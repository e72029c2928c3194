/** The files under the working directory as a map from path to the JSON
    value each holds, and `write_json` (tool.py:56-58), which replaces the
    value at one path wholesale. A run of `write_json` calls is a sequence of
    writes performed in order; the lemmas here say what such a run leaves at
    each path, whatever the paths are. */
module Writes {
  import opened Json
  import opened Layout

  type Files = map<Path, Json>

  /** What is at `p`: the value in the file, or None when there is no file. */
  function Lookup(files: Files, p: Path): Option<Json> {
    if p in files then Some(files[p]) else None
  }

  /** One `write_json(path, data)`. */
  datatype Write = Write(path: Path, value: Json)

  /** The files after `writes` have been performed, first to last. */
  function WriteAll(files: Files, writes: seq<Write>): (r: Files)
    ensures files.Keys <= r.Keys
    decreases |writes|
  {
    if writes == [] then files
    else
      var last := writes[|writes| - 1];
      WriteAll(files, writes[..|writes| - 1])[last.path := last.value]
  }

  /** The paths `writes` write to. */
  function Targets(writes: seq<Write>): set<Path> {
    set j | 0 <= j < |writes| :: writes[j].path
  }

  lemma TargetsSnoc(writes: seq<Write>)
    requires writes != []
    ensures Targets(writes) == Targets(writes[..|writes| - 1]) + {writes[|writes| - 1].path}
  {
    var n := |writes| - 1;
    assert forall j :: 0 <= j < n ==> writes[..n][j] == writes[j];
  }

  /** Performing one more write after a prefix of `writes`. */
  lemma WriteAllSnoc(files: Files, writes: seq<Write>, i: int)
    requires 0 <= i < |writes|
    ensures WriteAll(files, writes[..i + 1])
         == WriteAll(files, writes[..i])[writes[i].path := writes[i].value]
  {
    assert writes[..i + 1][..i] == writes[..i];
  }

  /** The writes add exactly their targets to the paths there are. */
  lemma {:induction false} WriteAllKeys(files: Files, writes: seq<Write>)
    ensures WriteAll(files, writes).Keys == files.Keys + Targets(writes)
    decreases |writes|
  {
    if writes != [] {
      WriteAllKeys(files, writes[..|writes| - 1]);
      TargetsSnoc(writes);
    }
  }

  /** A path no write targets keeps its file, or its absence. */
  lemma {:induction false} WriteAllFrame(files: Files, writes: seq<Write>, p: Path)
    requires forall j :: 0 <= j < |writes| ==> writes[j].path != p
    ensures Lookup(WriteAll(files, writes), p) == Lookup(files, p)
    decreases |writes|
  {
    if writes != [] {
      var n := |writes| - 1;
      assert forall j :: 0 <= j < n ==> writes[..n][j] == writes[j];
      WriteAllFrame(files, writes[..n], p);
    }
  }

  /** A write that no later write to the same path follows is what the path
      holds at the end: of two writes to one path, the later one wins. */
  lemma {:induction false} WriteAllLast(files: Files, writes: seq<Write>, j: int)
    requires 0 <= j < |writes|
    requires forall k :: j < k < |writes| ==> writes[k].path != writes[j].path
    ensures Lookup(WriteAll(files, writes), writes[j].path) == Some(writes[j].value)
    decreases |writes|
  {
    var n := |writes| - 1;
    if j < n {
      assert forall k :: j < k < n ==> writes[..n][k] == writes[k];
      WriteAllLast(files, writes[..n], j);
    }
  }

  /** A target holds one of the values written to it. */
  lemma {:induction false} WriteAllTarget(files: Files, writes: seq<Write>, p: Path)
    requires p in Targets(writes)
    ensures exists j :: 0 <= j < |writes| && writes[j].path == p
                        && Lookup(WriteAll(files, writes), p) == Some(writes[j].value)
    decreases |writes|
  {
    var n := |writes| - 1;
    if writes[n].path != p {
      TargetsSnoc(writes);
      WriteAllTarget(files, writes[..n], p);
      var j :| 0 <= j < n && writes[..n][j].path == p
               && Lookup(WriteAll(files, writes[..n]), p) == Some(writes[..n][j].value);
      assert writes[j] == writes[..n][j];
    } else {
      assert Lookup(WriteAll(files, writes), p) == Some(writes[n].value);
    }
  }

  /** What was at a target before makes no difference afterwards: two file
      maps that agree at `p`, or in which `p` is a target, agree at `p` after
      the writes. */
  lemma {:induction false} WriteAllAgree(f: Files, g: Files, writes: seq<Write>, p: Path)
    requires Lookup(f, p) == Lookup(g, p) || p in Targets(writes)
    ensures Lookup(WriteAll(f, writes), p) == Lookup(WriteAll(g, writes), p)
    decreases |writes|
  {
    if writes != [] {
      var n := |writes| - 1;
      if writes[n].path != p {
        TargetsSnoc(writes);
        WriteAllAgree(f, g, writes[..n], p);
      }
    }
  }

  /** Two file maps that agree off the targets are equal after the writes. */
  lemma {:induction false} WriteAllEqual(f: Files, g: Files, writes: seq<Write>)
    requires forall p :: p !in Targets(writes) ==> Lookup(f, p) == Lookup(g, p)
    ensures WriteAll(f, writes) == WriteAll(g, writes)
  {
    var rf, rg := WriteAll(f, writes), WriteAll(g, writes);
    forall p ensures (p in rf <==> p in rg) && (p in rf ==> rf[p] == rg[p]) {
      WriteAllAgree(f, g, writes, p);
      assert Lookup(rf, p) == Lookup(rg, p);
    }
    assert rf.Keys == rg.Keys;
  }

  /** A write to a path none of `writes` targets commutes with them. */
  lemma {:induction false} WriteAllUpdate(f: Files, writes: seq<Write>, k: Path, v: Json)
    requires forall j :: 0 <= j < |writes| ==> writes[j].path != k
    ensures WriteAll(f[k := v], writes) == WriteAll(f, writes)[k := v]
    decreases |writes|
  {
    if writes != [] {
      var n := |writes| - 1;
      assert forall j :: 0 <= j < n ==> writes[..n][j] == writes[j];
      WriteAllUpdate(f, writes[..n], k, v);
      var before := WriteAll(f, writes[..n]);
      assert before[k := v][writes[n].path := writes[n].value]
          == before[writes[n].path := writes[n].value][k := v];
    }
  }

  lemma TargetsCons(w: Write, writes: seq<Write>)
    ensures Targets([w] + writes) == {w.path} + Targets(writes)
  {
    assert forall j :: 0 <= j < |writes| ==> ([w] + writes)[j + 1] == writes[j];
    forall p | p in Targets([w] + writes) ensures p in {w.path} + Targets(writes) {
      var j :| 0 <= j < |[w] + writes| && ([w] + writes)[j].path == p;
      if j > 0 { assert writes[j - 1].path == p; }
    }
    assert ([w] + writes)[0].path == w.path;
    forall p | p in Targets(writes) ensures p in Targets([w] + writes) {
      var j :| 0 <= j < |writes| && writes[j].path == p;
      assert ([w] + writes)[j + 1].path == p;
    }
  }

  /** Performing a first write and then the rest is performing them all. */
  lemma {:induction false} WriteAllCons(files: Files, w: Write, writes: seq<Write>)
    ensures WriteAll(files, [w] + writes) == WriteAll(files[w.path := w.value], writes)
    decreases |writes|
  {
    if writes != [] {
      var n := |writes| - 1;
      assert ([w] + writes)[..n + 1] == [w] + writes[..n];
      WriteAllCons(files, w, writes[..n]);
    }
  }

  /** Performing the writes again, over their own result with another
      path `k` changed since, changes nothing. */
  lemma {:induction false} WriteAllRewrite(files: Files, writes: seq<Write>, k: Path, v: Json)
    requires forall j :: 0 <= j < |writes| ==> writes[j].path != k
    ensures var g := WriteAll(files, writes)[k := v];
      WriteAll(g, writes) == g
  {
    var g := WriteAll(files, writes)[k := v];
    forall p | p !in Targets(writes) ensures Lookup(g, p) == Lookup(files[k := v], p) {
      assert forall j :: 0 <= j < |writes| ==> writes[j].path in Targets(writes);
      WriteAllFrame(files, writes, p);
    }
    WriteAllEqual(g, files[k := v], writes);
    WriteAllUpdate(files, writes, k, v);
  }
}
