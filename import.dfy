/** What `add_album` (tool.py:61-114) does to the files under `artists/`,
    stated as a function of the files before the call. A file system is a map
    from path to the JSON value in the file; `write_json` replaces the value at
    one path wholesale. The method that performs the writes one by one is
    `Tool.Library.AddAlbum`, proved equal to this function. */
module Import {
  import opened Json
  import opened Slug
  import opened Layout
  import opened Records
  import opened Writes

  /** The names `add_album` sanitizes are ASCII (see module Slug). */
  predicate SlugSafe(album: AlbumDetail) {
    && IsAscii(album.name)
    && (|album.artists| > 0 ==> IsAscii(album.artists[0].name))
    && TracksSlugSafe(album.tracks)
  }

  predicate TracksSlugSafe(tracks: seq<TrackItem>) {
    forall j :: 0 <= j < |tracks| ==> IsAscii(tracks[j].name)
  }

  /** `song_path` for one track. */
  function TrackPath(a: string, b: string, track: TrackItem): Path
    requires IsAscii(track.name)
  {
    TrackFile(a, b, Sanitize(track.name))
  }

  /** Two tracks of one album go to different files exactly when their
      slugs differ. */
  lemma TrackPathsDiffer(a: string, b: string, t1: TrackItem, t2: TrackItem)
    requires IsAscii(t1.name) && IsAscii(t2.name)
    ensures TrackPath(a, b, t1) != TrackPath(a, b, t2) <==> Sanitize(t1.name) != Sanitize(t2.name)
  {
    TrackFileInjective(a, b, Sanitize(t1.name), Sanitize(t2.name));
  }

  /** `p` is the file of one of `tracks`. */
  predicate IsTrackPath(a: string, b: string, tracks: seq<TrackItem>, p: Path)
    requires TracksSlugSafe(tracks)
  {
    exists j :: 0 <= j < |tracks| && TrackPath(a, b, tracks[j]) == p
  }

  /** The writes of the track loop (tool.py:87-97) into album directory
      `AlbumDir(a, b)`: one per track, in track order, each putting the
      track's record in the file named by the track's slug. */
  function TrackWrites(a: string, b: string, artistName: string, albumName: string,
                       tracks: seq<TrackItem>): (writes: seq<Write>)
    requires TracksSlugSafe(tracks)
    ensures |writes| == |tracks|
  {
    if tracks == [] then []
    else
      [Write(TrackPath(a, b, tracks[0]), TrackRecord(tracks[0], artistName, albumName))]
      + TrackWrites(a, b, artistName, albumName, tracks[1..])
  }

  /** Write `j` of the loop puts track `j`'s record in track `j`'s file. */
  lemma {:induction false} TrackWritesAt(a: string, b: string, artistName: string, albumName: string,
                                         tracks: seq<TrackItem>, j: int)
    requires TracksSlugSafe(tracks) && 0 <= j < |tracks|
    ensures TrackWrites(a, b, artistName, albumName, tracks)[j]
         == Write(TrackPath(a, b, tracks[j]), TrackRecord(tracks[j], artistName, albumName))
  {
    if j > 0 {
      assert forall k :: 0 <= k < |tracks| - 1 ==> tracks[1..][k] == tracks[k + 1];
      TrackWritesAt(a, b, artistName, albumName, tracks[1..], j - 1);
    }
  }

  /** The track loop writes to exactly the tracks' files. */
  lemma {:induction false} TrackTargets(a: string, b: string, artistName: string, albumName: string,
                                        tracks: seq<TrackItem>, p: Path)
    requires TracksSlugSafe(tracks)
    ensures p in Targets(TrackWrites(a, b, artistName, albumName, tracks))
        <==> IsTrackPath(a, b, tracks, p)
  {
    var writes := TrackWrites(a, b, artistName, albumName, tracks);
    if p in Targets(writes) {
      var j :| 0 <= j < |writes| && writes[j].path == p;
      TrackWritesAt(a, b, artistName, albumName, tracks, j);
      assert TrackPath(a, b, tracks[j]) == p;
    }
    if IsTrackPath(a, b, tracks, p) {
      var j :| 0 <= j < |tracks| && TrackPath(a, b, tracks[j]) == p;
      TrackWritesAt(a, b, artistName, albumName, tracks, j);
      assert writes[j].path == p;
    }
  }

  /** The whole effect of `add_album`: the files afterwards and how the call
      ends. Files written before an exception stay written. */
  datatype Imported = Imported(files: Files, outcome: Result<()>)

  function ArtistSlug(album: AlbumDetail): string
    requires SlugSafe(album) && |album.artists| > 0
  {
    Sanitize(album.artists[0].name)
  }

  /** The track writes of `add_album` for `album`. */
  function AlbumTrackWrites(album: AlbumDetail): seq<Write>
    requires SlugSafe(album) && |album.artists| > 0
  {
    TrackWrites(ArtistSlug(album), Sanitize(album.name), album.artists[0].name, album.name, album.tracks)
  }

  /** The writes `add_album` performs before the merge (tool.py:75-98): the
      album record, then the track records in track order. */
  function AlbumWrites(album: AlbumDetail): (writes: seq<Write>)
    requires SlugSafe(album) && |album.artists| > 0
    ensures |writes| == |album.tracks| + 1
    ensures writes[0] == Write(AlbumFile(ArtistSlug(album), Sanitize(album.name)),
                               AlbumRecord(album, album.artists[0]))
  {
    [Write(AlbumFile(ArtistSlug(album), Sanitize(album.name)), AlbumRecord(album, album.artists[0]))]
    + AlbumTrackWrites(album)
  }

  /** Write `j + 1` before the merge is track `j`'s. */
  lemma AlbumWritesAt(album: AlbumDetail, j: int)
    requires SlugSafe(album) && |album.artists| > 0 && 0 <= j < |album.tracks|
    ensures AlbumWrites(album)[j + 1]
         == Write(TrackPath(ArtistSlug(album), Sanitize(album.name), album.tracks[j]),
                  TrackRecord(album.tracks[j], album.artists[0].name, album.name))
  {
    TrackWritesAt(ArtistSlug(album), Sanitize(album.name), album.artists[0].name, album.name,
                  album.tracks, j);
  }

  /** The files once those writes are done, before the artist record is
      merged. */
  function AlbumAndTracks(files: Files, album: AlbumDetail): Files
    requires SlugSafe(album) && |album.artists| > 0
  {
    WriteAll(files, AlbumWrites(album))
  }

  function ImportAlbum(files: Files, album: AlbumDetail): (r: Imported)
    requires SlugSafe(album)
    ensures files.Keys <= r.files.Keys
    ensures |album.artists| == 0 ==> r == Imported(files, Err(NoArtist))
  {
    if |album.artists| == 0 then Imported(files, Err(NoArtist))
    else
      var withTracks := AlbumAndTracks(files, album);
      var artistPath := ArtistFile(ArtistSlug(album));
      match MergeArtist(Lookup(withTracks, artistPath), album.artists[0], album.name)
      case Ok(record) => Imported(withTracks[artistPath := record], Ok(()))
      case Err(e) => Imported(withTracks, Err(e))
  }

  /** Every path but the artist file ends as the album and track writes
      leave it. */
  lemma {:induction false} ImportOffArtistFile(files: Files, album: AlbumDetail, p: Path)
    requires SlugSafe(album) && |album.artists| > 0
    requires p != ArtistFile(ArtistSlug(album))
    ensures Lookup(ImportAlbum(files, album).files, p) == Lookup(AlbumAndTracks(files, album), p)
  {
    var withTracks := AlbumAndTracks(files, album);
    var artistPath := ArtistFile(ArtistSlug(album));
    match MergeArtist(Lookup(withTracks, artistPath), album.artists[0], album.name)
    case Ok(record) =>
      assert ImportAlbum(files, album).files == withTracks[artistPath := record];
    case Err(e) =>
      assert ImportAlbum(files, album).files == withTracks;
  }

  /** The album's three kinds of file are at different paths: the album slug
      is not "metadata", and when it is empty no track slug is "metadata" or
      empty. */
  predicate PathsDistinct(album: AlbumDetail)
    requires SlugSafe(album)
  {
    var b := Sanitize(album.name);
    && b != "metadata"
    && (b == "" ==> forall j :: 0 <= j < |album.tracks| ==>
          Sanitize(album.tracks[j].name) != "metadata" && Sanitize(album.tracks[j].name) != "")
  }

  lemma {:induction false} PathsDistinctMeans(album: AlbumDetail)
    requires SlugSafe(album) && |album.artists| > 0 && PathsDistinct(album)
    ensures var a, b := ArtistSlug(album), Sanitize(album.name);
      && AlbumFile(a, b) != ArtistFile(a)
      && forall j :: 0 <= j < |album.tracks| ==>
           TrackPath(a, b, album.tracks[j]) != ArtistFile(a)
           && TrackPath(a, b, album.tracks[j]) != AlbumFile(a, b)
  {
    var a, b := ArtistSlug(album), Sanitize(album.name);
    AlbumFileIsArtistFile(a, b);
    forall j | 0 <= j < |album.tracks|
      ensures TrackPath(a, b, album.tracks[j]) != ArtistFile(a)
      ensures TrackPath(a, b, album.tracks[j]) != AlbumFile(a, b)
    {
      TrackFileIsArtistFile(a, b, Sanitize(album.tracks[j].name));
      TrackFileIsAlbumFile(a, b, Sanitize(album.tracks[j].name));
    }
  }

  /** With distinct paths, no write before the merge touches the artist
      file, and only the first touches the album file. */
  lemma {:induction false} AlbumWritesDistinct(album: AlbumDetail)
    requires SlugSafe(album) && |album.artists| > 0 && PathsDistinct(album)
    ensures var writes := AlbumWrites(album);
      && (forall j :: 0 <= j < |writes| ==> writes[j].path != ArtistFile(ArtistSlug(album)))
      && (forall j :: 0 < j < |writes| ==> writes[j].path != writes[0].path)
  {
    var writes := AlbumWrites(album);
    PathsDistinctMeans(album);
    forall j | 0 < j < |writes|
      ensures writes[j].path != ArtistFile(ArtistSlug(album))
      ensures writes[j].path != writes[0].path
    {
      AlbumWritesAt(album, j - 1);
    }
  }

  /** The album and track writes leave every path they do not name alone. */
  lemma {:induction false} AlbumAndTracksFrame(files: Files, album: AlbumDetail, p: Path)
    requires SlugSafe(album) && |album.artists| > 0
    requires p != AlbumFile(ArtistSlug(album), Sanitize(album.name))
    requires forall j :: 0 <= j < |album.tracks| ==>
      p != TrackPath(ArtistSlug(album), Sanitize(album.name), album.tracks[j])
    ensures Lookup(AlbumAndTracks(files, album), p) == Lookup(files, p)
  {
    var writes := AlbumWrites(album);
    forall j | 0 < j < |writes| ensures writes[j].path != p {
      AlbumWritesAt(album, j - 1);
    }
    WriteAllFrame(files, writes, p);
  }

  /** With distinct paths, the album file ends up holding the album record. */
  lemma {:induction false} AlbumAndTracksAlbumFile(files: Files, album: AlbumDetail)
    requires SlugSafe(album) && |album.artists| > 0
    requires Sanitize(album.name) == "" ==>
      forall j :: 0 <= j < |album.tracks| ==> Sanitize(album.tracks[j].name) != ""
    ensures Lookup(AlbumAndTracks(files, album), AlbumFile(ArtistSlug(album), Sanitize(album.name)))
         == Some(AlbumRecord(album, album.artists[0]))
  {
    var writes := AlbumWrites(album);
    forall j | 0 < j < |writes| ensures writes[j].path != writes[0].path {
      TrackWriteOffAlbumFile(album, j - 1);
    }
    WriteAllLast(files, writes, 0);
  }
  lemma TrackWriteOffAlbumFile(album: AlbumDetail, j: int)
    requires SlugSafe(album) && |album.artists| > 0 && 0 <= j < |album.tracks|
    requires Sanitize(album.name) == "" ==> Sanitize(album.tracks[j].name) != ""
    ensures AlbumWrites(album)[j + 1].path != AlbumFile(ArtistSlug(album), Sanitize(album.name))
  {
    AlbumWritesAt(album, j);
    TrackFileIsAlbumFile(ArtistSlug(album), Sanitize(album.name), Sanitize(album.tracks[j].name));
  }

  /** Only the album file, the track files and the artist file can change;
      every other path keeps its file, or its absence. */
  lemma {:induction false} ImportFrame(files: Files, album: AlbumDetail, p: Path)
    requires SlugSafe(album) && |album.artists| > 0
    requires p != AlbumFile(ArtistSlug(album), Sanitize(album.name))
    requires p != ArtistFile(ArtistSlug(album))
    requires forall j :: 0 <= j < |album.tracks| ==>
      p != TrackPath(ArtistSlug(album), Sanitize(album.name), album.tracks[j])
    ensures Lookup(ImportAlbum(files, album).files, p) == Lookup(files, p)
  {
    AlbumAndTracksFrame(files, album, p);
    ImportOffArtistFile(files, album, p);
  }

  /** Everything `add_album` writes lies in `artists/<artist slug>`. */
  lemma {:induction false} ImportStaysInArtistDir(files: Files, album: AlbumDetail, p: Path)
    requires SlugSafe(album) && |album.artists| > 0
    requires !IsUnder(p, ArtistDir(ArtistSlug(album)))
    ensures Lookup(ImportAlbum(files, album).files, p) == Lookup(files, p)
  {
    var a, b := ArtistSlug(album), Sanitize(album.name);
    FilesUnderArtistDir(a, b, "");
    forall j | 0 <= j < |album.tracks|
      ensures p != TrackPath(a, b, album.tracks[j])
    {
      FilesUnderArtistDir(a, b, Sanitize(album.tracks[j].name));
    }
    ImportFrame(files, album, p);
  }

  /** When the three kinds of file are at distinct paths: the album file holds
      the album record; the merge sees the artist file as it was before the
      call; on success the artist file holds the merged record, and on failure
      it is left as it was. */
  lemma {:induction false} ImportWrites(files: Files, album: AlbumDetail)
    requires SlugSafe(album) && |album.artists| > 0 && PathsDistinct(album)
    ensures var r, a, b := ImportAlbum(files, album), ArtistSlug(album), Sanitize(album.name);
      var merged := MergeArtist(Lookup(files, ArtistFile(a)), album.artists[0], album.name);
      && Lookup(r.files, AlbumFile(a, b)) == Some(AlbumRecord(album, album.artists[0]))
      && (merged.Ok? ==> r.outcome == Ok(()) && Lookup(r.files, ArtistFile(a)) == Some(merged.value))
      && (merged.Err? ==> r.outcome == Err(merged.error)
                          && Lookup(r.files, ArtistFile(a)) == Lookup(files, ArtistFile(a)))
  {
    var af, ap := AlbumFile(ArtistSlug(album), Sanitize(album.name)), ArtistFile(ArtistSlug(album));
    AlbumWritesDistinct(album);
    AlbumAndTracksAlbumFile(files, album);
    WriteAllFrame(files, AlbumWrites(album), ap);
    ImportOffArtistFile(files, album, af);
  }

  /** In the track loop, no write after track `j`'s goes to the same file,
      unless a later track has the same slug. */
  lemma {:induction false} TrackWritesLater(a: string, b: string, artistName: string, albumName: string,
                                            tracks: seq<TrackItem>, j: int)
    requires TracksSlugSafe(tracks) && 0 <= j < |tracks|
    requires forall k :: j < k < |tracks| ==> Sanitize(tracks[k].name) != Sanitize(tracks[j].name)
    ensures var writes := TrackWrites(a, b, artistName, albumName, tracks);
      forall k :: j < k < |writes| ==> writes[k].path != writes[j].path
  {
    var writes := TrackWrites(a, b, artistName, albumName, tracks);
    TrackWritesAt(a, b, artistName, albumName, tracks, j);
    forall k | j < k < |writes| ensures writes[k].path != writes[j].path {
      TrackWritesAt(a, b, artistName, albumName, tracks, k);
      TrackPathsDiffer(a, b, tracks[k], tracks[j]);
    }
  }

  /** Before the artist record is merged, each track's file holds its record
      unless a later track of the album has the same slug. */
  lemma {:induction false} AlbumAndTracksTrack(files: Files, album: AlbumDetail, j: int)
    requires SlugSafe(album) && |album.artists| > 0
    requires 0 <= j < |album.tracks|
    requires forall k :: j < k < |album.tracks| ==>
      Sanitize(album.tracks[k].name) != Sanitize(album.tracks[j].name)
    ensures var a, b := ArtistSlug(album), Sanitize(album.name);
      && AlbumWrites(album)[j + 1].path == TrackFile(a, b, Sanitize(album.tracks[j].name))
      && Lookup(AlbumAndTracks(files, album), TrackFile(a, b, Sanitize(album.tracks[j].name)))
        == Some(TrackRecord(album.tracks[j], album.artists[0].name, album.name))
  {
    var a, b := ArtistSlug(album), Sanitize(album.name);
    var first := Write(AlbumFile(a, b), AlbumRecord(album, album.artists[0]));
    var tw := AlbumTrackWrites(album);
    WriteAllCons(files, first, tw);
    TrackWritesLater(a, b, album.artists[0].name, album.name, album.tracks, j);
    TrackWritesAt(a, b, album.artists[0].name, album.name, album.tracks, j);
    WriteAllLast(files[first.path := first.value], tw, j);
  }
  /** Each track's file holds its record unless a later track of the album
      has the same slug. A track file that lands on the artist file makes the
      import fail after the track writes, so the record is still there. */
  lemma {:induction false} ImportWritesTrack(files: Files, album: AlbumDetail, j: int)
    requires SlugSafe(album) && |album.artists| > 0
    requires 0 <= j < |album.tracks|
    requires forall k :: j < k < |album.tracks| ==>
      Sanitize(album.tracks[k].name) != Sanitize(album.tracks[j].name)
    ensures var a, b := ArtistSlug(album), Sanitize(album.name);
      Lookup(ImportAlbum(files, album).files, TrackFile(a, b, Sanitize(album.tracks[j].name)))
        == Some(TrackRecord(album.tracks[j], album.artists[0].name, album.name))
  {
    var a, b := ArtistSlug(album), Sanitize(album.name);
    var p := TrackFile(a, b, Sanitize(album.tracks[j].name));
    AlbumAndTracksTrack(files, album, j);
    if p != ArtistFile(a) {
      ImportOffArtistFile(files, album, p);
    } else {
      assert AlbumWrites(album)[j + 1].path == ArtistFile(a);
      assert ArtistFile(a) in Targets(AlbumWrites(album));
      ArtistFileOverwrittenFails(files, album);
      assert ImportAlbum(files, album).files == AlbumAndTracks(files, album);
    }
  }


  /** An album whose slug is "metadata" writes its album record over the
      artist record, and the merge then fails for lack of "albums": the
      artist's list of albums is lost. */
  lemma {:induction false} ImportMetadataAlbum(files: Files, album: AlbumDetail)
    requires SlugSafe(album) && |album.artists| > 0
    requires Sanitize(album.name) == "metadata"
    ensures var r, a := ImportAlbum(files, album), ArtistSlug(album);
      && r.outcome == Err(ArtistFileLacksAlbums)
      && Lookup(r.files, ArtistFile(a)) == Some(AlbumRecord(album, album.artists[0]))
  {
    var artist := album.artists[0];
    var a, b := ArtistSlug(album), Sanitize(album.name);
    AlbumFileIsArtistFile(a, b);
    var record := AlbumRecord(album, artist);
    forall j | 0 <= j < |album.tracks| ensures TrackPath(a, b, album.tracks[j]) != ArtistFile(a) {
      TrackFileIsArtistFile(a, b, Sanitize(album.tracks[j].name));
    }
    var writes := AlbumWrites(album);
    forall j | 0 < j < |writes| ensures writes[j].path != writes[0].path {
      AlbumWritesAt(album, j - 1);
    }
    WriteAllLast(files, writes, 0);
    var withTracks := AlbumAndTracks(files, album);
    assert Lookup(withTracks, ArtistFile(a)) == Some(record);
    MergeIntoAlbumRecord(album, artist, album.name);
    assert ImportAlbum(files, album) == Imported(withTracks, Err(ArtistFileLacksAlbums));
  }

  /** Neither the album record nor a track record has an "albums" key. */
  lemma AlbumWritesLackAlbums(album: AlbumDetail, j: int)
    requires SlugSafe(album) && |album.artists| > 0 && 0 <= j < |AlbumWrites(album)|
    ensures AlbumWrites(album)[j].value.JObj? && "albums" !in AlbumWrites(album)[j].value.fields
  {
    if j > 0 {
      AlbumWritesAt(album, j - 1);
      assert "albums" !in TrackRecord(album.tracks[j - 1], album.artists[0].name, album.name).fields;
    } else {
      assert "albums" !in AlbumRecord(album, album.artists[0]).fields;
    }
  }

  /** When the album record or a track record lands on the artist file, the
      merge finds a record without "albums" and the import fails with a
      KeyError. */
  lemma {:induction false} ArtistFileOverwrittenFails(files: Files, album: AlbumDetail)
    requires SlugSafe(album) && |album.artists| > 0
    requires ArtistFile(ArtistSlug(album)) in Targets(AlbumWrites(album))
    ensures ImportAlbum(files, album).outcome == Err(ArtistFileLacksAlbums)
  {
    var writes, ap := AlbumWrites(album), ArtistFile(ArtistSlug(album));
    WriteAllTarget(files, writes, ap);
    var m :| 0 <= m < |writes| && writes[m].path == ap
             && Lookup(AlbumAndTracks(files, album), ap) == Some(writes[m].value);
    AlbumWritesLackAlbums(album, m);
  }

  /** An import that succeeds wrote nothing over the artist file before the
      merge. */
  lemma {:induction false} ImportOkSparesArtistFile(files: Files, album: AlbumDetail)
    requires SlugSafe(album) && |album.artists| > 0
    ensures var writes := AlbumWrites(album);
      ImportAlbum(files, album).outcome.Ok? ==>
        forall j :: 0 <= j < |writes| ==> writes[j].path != ArtistFile(ArtistSlug(album))
  {
    var writes, ap := AlbumWrites(album), ArtistFile(ArtistSlug(album));
    if ap in Targets(writes) {
      ArtistFileOverwrittenFails(files, album);
    } else {
      assert forall j :: 0 <= j < |writes| ==> writes[j].path in Targets(writes);
    }
  }

  /** Importing the same album again, after an import that succeeded,
      changes nothing: records are rewritten with equal values and the album
      is already listed in the artist record. */
  lemma {:induction false} ImportIdempotent(files: Files, album: AlbumDetail)
    requires SlugSafe(album) && |album.artists| > 0
    requires ImportAlbum(files, album).outcome == Ok(())
    ensures ImportAlbum(ImportAlbum(files, album).files, album) == ImportAlbum(files, album)
  {
    var artist := album.artists[0];
    var ap := ArtistFile(ArtistSlug(album));
    var withTracks := AlbumAndTracks(files, album);
    var merged := MergeArtist(Lookup(withTracks, ap), artist, album.name);
    var first := Imported(withTracks[ap := merged.value], Ok(()));
    assert ImportAlbum(files, album) == first;
    MergeIdempotent(Lookup(withTracks, ap), artist, album.name);
    ImportOkSparesArtistFile(files, album);
    WriteAllRewrite(files, AlbumWrites(album), ap, merged.value);
    assert Lookup(first.files, ap) == Some(merged.value);
  }

  /** Into an empty tree, the writes before the merge create exactly the
      album file and the track files, and not the artist file. */
  lemma {:induction false} AlbumAndTracksIntoEmpty(album: AlbumDetail)
    requires SlugSafe(album) && |album.artists| > 0 && PathsDistinct(album)
    ensures var r := AlbumAndTracks(map[], album);
      && r.Keys == {AlbumFile(ArtistSlug(album), Sanitize(album.name))} + Targets(AlbumTrackWrites(album))
      && ArtistFile(ArtistSlug(album)) !in r
  {
    var writes := AlbumWrites(album);
    AlbumWritesDistinct(album);
    WriteAllKeys(map[], writes);
    WriteAllFrame(map[], writes, ArtistFile(ArtistSlug(album)));
    TargetsCons(writes[0], AlbumTrackWrites(album));
    assert writes == [writes[0]] + AlbumTrackWrites(album);
  }

  /** Importing into an empty tree succeeds and creates exactly the album
      file, the artist file and one file per distinct track path. */
  lemma {:induction false} ImportIntoEmpty(album: AlbumDetail)
    requires SlugSafe(album) && |album.artists| > 0 && PathsDistinct(album)
    ensures var r, a, b := ImportAlbum(map[], album), ArtistSlug(album), Sanitize(album.name);
      && r.outcome == Ok(())
      && r.files.Keys == {AlbumFile(a, b), ArtistFile(a)} + Targets(AlbumTrackWrites(album))
      && Lookup(r.files, ArtistFile(a)) == Some(FreshArtistRecord(album.artists[0], album.name))
  {
    var a := ArtistSlug(album);
    AlbumAndTracksIntoEmpty(album);
    var withTracks := AlbumAndTracks(map[], album);
    assert Lookup(withTracks, ArtistFile(a)) == None;
    assert ImportAlbum(map[], album)
        == Imported(withTracks[ArtistFile(a) := FreshArtistRecord(album.artists[0], album.name)], Ok(()));
  }
}
