/** The name sanitizer of tool.py (`sanitize_name`): it turns a display name
    into the slug used as a directory or file name. The source does it in three
    stages, kept here as three functions: keep only alphanumerics, '-' and ' ';
    replace each ' ' by '-'; lower-case the result.

    Python's `str.isalnum` and `str.lower` are Unicode-aware; this model covers
    ASCII names only, where both are the familiar ASCII classifications. */
module Slug {

  predicate IsAsciiChar(c: char) {
    c as int < 128
  }

  predicate IsAscii(s: string) {
    forall i :: 0 <= i < |s| ==> IsAsciiChar(s[i])
  }

  /** `str.isalnum` on an ASCII character. */
  predicate IsAlnum(c: char) {
    'a' <= c <= 'z' || 'A' <= c <= 'Z' || '0' <= c <= '9'
  }

  /** The filter of the first stage: `c.isalnum() or c in "- "`. */
  predicate IsKept(c: char) {
    IsAlnum(c) || c == '-' || c == ' '
  }

  /** The characters a slug is made of: `[a-z0-9-]`. */
  predicate IsSlugChar(c: char) {
    'a' <= c <= 'z' || '0' <= c <= '9' || c == '-'
  }

  predicate IsSlug(s: string) {
    forall i :: 0 <= i < |s| ==> IsSlugChar(s[i])
  }

  /** `str.lower` on an ASCII character. */
  function LowerChar(c: char): (d: char)
    requires IsAsciiChar(c)
    ensures IsAsciiChar(d)
    ensures 'A' <= c <= 'Z' ==> 'a' <= d <= 'z' && d as int - c as int == 32
    ensures !('A' <= c <= 'Z') ==> d == c
  {
    if 'A' <= c <= 'Z' then (c as int + 32) as char else c
  }

  /** Stage one: the generator expression that drops every character other
      than an alphanumeric, '-' or ' ', keeping the rest in order. */
  function KeepNameChars(s: string): (r: string)
    requires IsAscii(s)
    ensures |r| <= |s|
  {
    if s == [] then []
    else (if IsKept(s[0]) then [s[0]] else []) + KeepNameChars(s[1..])
  }

  /** Only alphanumerics, '-' and ' ' survive stage one. */
  lemma {:induction false} KeepNameCharsKept(s: string)
    requires IsAscii(s)
    ensures forall i :: 0 <= i < |KeepNameChars(s)| ==> IsKept(KeepNameChars(s)[i])
  {
    if s != [] {
      KeepNameCharsKept(s[1..]);
      var head: string := if IsKept(s[0]) then [s[0]] else [];
      assert KeepNameChars(s) == head + KeepNameChars(s[1..]);
    }
  }

  /** Stage two: `.replace(" ", "-")`. */
  function HyphenateSpaces(s: string): (r: string)
    ensures |r| == |s|
  {
    if s == [] then []
    else [if s[0] == ' ' then '-' else s[0]] + HyphenateSpaces(s[1..])
  }

  /** Each space becomes '-'; every other character stays where it is. */
  lemma {:induction false} HyphenateSpacesAt(s: string)
    ensures forall i :: 0 <= i < |s| ==>
      HyphenateSpaces(s)[i] == (if s[i] == ' ' then '-' else s[i])
  {
    if s != [] {
      HyphenateSpacesAt(s[1..]);
      assert forall i :: 1 <= i < |s| ==> HyphenateSpaces(s)[i] == HyphenateSpaces(s[1..])[i - 1];
    }
  }

  /** Stage three: `.lower()`. */
  function Lower(s: string): (r: string)
    requires IsAscii(s)
    ensures |r| == |s|
  {
    if s == [] then [] else [LowerChar(s[0])] + Lower(s[1..])
  }

  /** Each character is lowered in place. */
  lemma {:induction false} LowerAt(s: string)
    requires IsAscii(s)
    ensures forall i :: 0 <= i < |s| ==> Lower(s)[i] == LowerChar(s[i])
  {
    if s != [] {
      LowerAt(s[1..]);
      assert forall i :: 1 <= i < |s| ==> Lower(s)[i] == Lower(s[1..])[i - 1];
    }
  }

  /** `sanitize_name`: the result is a slug, never longer than the name. */
  function Sanitize(name: string): (slug: string)
    requires IsAscii(name)
    ensures IsSlug(slug)
    ensures |slug| <= |name|
  {
    var kept := KeepNameChars(name);
    KeepNameCharsKept(name);
    var hyphenated := HyphenateSpaces(kept);
    HyphenateSpacesAt(kept);
    assert forall i :: 0 <= i < |hyphenated| ==> IsAlnum(hyphenated[i]) || hyphenated[i] == '-';
    LowerAt(hyphenated);
    Lower(hyphenated)
  }

  lemma AsciiAppend(s: string, t: string)
    requires IsAscii(s) && IsAscii(t)
    ensures IsAscii(s + t)
  {
    forall i | 0 <= i < |s + t| ensures IsAsciiChar((s + t)[i]) {
      if i < |s| { assert (s + t)[i] == s[i]; } else { assert (s + t)[i] == t[i - |s|]; }
    }
  }

  lemma {:induction false} KeepNameCharsAppend(s: string, t: string)
    requires IsAscii(s) && IsAscii(t)
    ensures IsAscii(s + t)
    ensures KeepNameChars(s + t) == KeepNameChars(s) + KeepNameChars(t)
  {
    AsciiAppend(s, t);
    if s != [] {
      var head := if IsKept(s[0]) then [s[0]] else [];
      assert (s + t)[0] == s[0] && (s + t)[1..] == s[1..] + t;
      assert KeepNameChars(s + t) == head + KeepNameChars(s[1..] + t);
      KeepNameCharsAppend(s[1..], t);
      assert KeepNameChars(s) == head + KeepNameChars(s[1..]);
    } else {
      assert s + t == t;
    }
  }

  lemma HyphenateSpacesAppend(s: string, t: string)
    ensures HyphenateSpaces(s + t) == HyphenateSpaces(s) + HyphenateSpaces(t)
  {
    var l, r := HyphenateSpaces(s + t), HyphenateSpaces(s) + HyphenateSpaces(t);
    HyphenateSpacesAt(s + t);
    HyphenateSpacesAt(s);
    HyphenateSpacesAt(t);
    assert |l| == |r|;
    forall i | 0 <= i < |l| ensures l[i] == r[i] {
      if i < |s| { assert (s + t)[i] == s[i]; } else { assert (s + t)[i] == t[i - |s|]; }
    }
  }

  lemma LowerAppend(s: string, t: string)
    requires IsAscii(s) && IsAscii(t)
    ensures IsAscii(s + t)
    ensures Lower(s + t) == Lower(s) + Lower(t)
  {
    AsciiAppend(s, t);
    var l, r := Lower(s + t), Lower(s) + Lower(t);
    LowerAt(s + t);
    LowerAt(s);
    LowerAt(t);
    assert |l| == |r|;
    forall i | 0 <= i < |l| ensures l[i] == r[i] {
      if i < |s| { assert (s + t)[i] == s[i]; } else { assert (s + t)[i] == t[i - |s|]; }
    }
  }

  /** Sanitizing distributes over concatenation: every character is treated
      on its own and the survivors keep their order. */
  lemma SanitizeAppend(s: string, t: string)
    requires IsAscii(s) && IsAscii(t)
    ensures IsAscii(s + t)
    ensures Sanitize(s + t) == Sanitize(s) + Sanitize(t)
  {
    KeepNameCharsAppend(s, t);
    var ks, kt := KeepNameChars(s), KeepNameChars(t);
    HyphenateSpacesAppend(ks, kt);
    var hs, ht := HyphenateSpaces(ks), HyphenateSpaces(kt);
    KeepNameCharsKept(s);
    KeepNameCharsKept(t);
    HyphenatedIsAscii(ks);
    HyphenatedIsAscii(kt);
    LowerAppend(hs, ht);
  }

  lemma HyphenatedIsAscii(s: string)
    requires IsAscii(s)
    ensures IsAscii(HyphenateSpaces(s))
  {
    HyphenateSpacesAt(s);
  }

  /** What happens to one character: an alphanumeric is kept and lower-cased,
      '-' is kept, ' ' becomes '-', and anything else is dropped. */
  lemma SanitizeChar(c: char)
    requires IsAsciiChar(c)
    ensures IsAscii([c])
    ensures IsAlnum(c) ==> Sanitize([c]) == [LowerChar(c)]
    ensures c == '-' || c == ' ' ==> Sanitize([c]) == "-"
    ensures !IsKept(c) ==> Sanitize([c]) == ""
  {
    assert [c][1..] == [];
  }

  /** A slug is left as it is. */
  lemma {:induction false} SanitizeSlug(s: string)
    requires IsSlug(s)
    ensures IsAscii(s)
    ensures Sanitize(s) == s
  {
    if s != [] {
      assert s == [s[0]] + s[1..];
      SanitizeChar(s[0]);
      SanitizeSlug(s[1..]);
      SanitizeAppend([s[0]], s[1..]);
    }
  }

  /** `sanitize_name(sanitize_name(s)) == sanitize_name(s)`. */
  lemma SanitizeIdempotent(s: string)
    requires IsAscii(s)
    ensures IsAscii(Sanitize(s))
    ensures Sanitize(Sanitize(s)) == Sanitize(s)
  {
    SanitizeSlug(Sanitize(s));
  }

  /** The slug is exactly as long as the name if and only if no character of
      the name is dropped. */
  lemma {:induction false} SanitizeKeepsLength(s: string)
    requires IsAscii(s)
    ensures |Sanitize(s)| == |s| <==> forall i :: 0 <= i < |s| ==> IsKept(s[i])
  {
    if s != [] {
      assert s == [s[0]] + s[1..];
      SanitizeAppend([s[0]], s[1..]);
      SanitizeChar(s[0]);
      SanitizeKeepsLength(s[1..]);
      assert forall i :: 1 <= i < |s| ==> s[i] == s[1..][i - 1];
    }
  }

  /** Worked example: punctuation vanishes. */
  lemma SanitizeArtistExample()
    ensures IsAscii("AC/DC") && Sanitize("AC/DC") == "acdc"
  {
    assert IsAscii("AC/DC") by {
      assert forall i :: 0 <= i < 5 ==> "AC/DC"[i] in "AC/DC";
    }
    assert KeepNameChars("AC/DC") == "ACDC";
    assert HyphenateSpaces("ACDC") == "ACDC";
    assert Lower("ACDC") == "acdc";
  }
}
