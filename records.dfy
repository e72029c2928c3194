/** The records `add_album` builds, the API payloads it builds them from, and
    the merge of a new album into an artist record (tool.py, lines 62-113). */
module Records {
  import opened Json

  /** The parts of the Spotify album detail that `add_album` reads. A JSON
      key the source reads with `[...]` is a field here; `genres`, read with
      `.get("genres", [])`, may be absent. */
  datatype ArtistRef = ArtistRef(name: string, id: string)
  datatype TrackItem = TrackItem(name: string, id: string, durationMs: int)
  datatype AlbumDetail = AlbumDetail(
    id: string,
    name: string,
    artists: seq<ArtistRef>,
    releaseDate: string,
    genres: Option<seq<string>>,
    tracks: seq<TrackItem>)

  /** One item of a search response; `grab` reads only its id. */
  datatype AlbumSummary = AlbumSummary(id: string)

  /** The ways `grab` and `add_album` stop, each named after what happened:
      a failed API call (an exception raised by the HTTP helper), an empty
      search result or artist list (an IndexError), and an artist record
      that is not an object (TypeError), has no "albums" (KeyError), holds
      something `in` cannot search (TypeError), or something without
      `.append` when the album must be added (AttributeError). */
  datatype Error =
    | ApiCallFailed
    | EmptySearchResult
    | NoArtist
    | ArtistFileNotObject
    | ArtistFileLacksAlbums
    | AlbumsNotSearchable
    | AlbumsNotAppendable

  /** A value, or the exception that stopped the computation; a whole
      `add_album` or `grab` call ends in `Ok(())` or in an exception. */
  datatype Result<T> = Ok(value: T) | Err(error: Error)

  /** The album record's "tracklist": `[track["id"] for track in ...]`. */
  function TrackIds(tracks: seq<TrackItem>): (ids: seq<Json>)
    ensures |ids| == |tracks|
    ensures forall i :: 0 <= i < |tracks| ==> ids[i] == JStr(tracks[i].id)
  {
    if tracks == [] then [] else [JStr(tracks[0].id)] + TrackIds(tracks[1..])
  }

  /** The album record (tool.py:75-82). */
  function AlbumRecord(album: AlbumDetail, artist: ArtistRef): Json {
    var genres := match album.genres case Some(g) => g case None => [];
    JObj(map[
      "title" := JStr(album.name),
      "artist" := JStr(artist.name),
      "release_year" := JStr(album.releaseDate),
      "genres" := JArr(Strings(genres)),
      "tracklist" := JArr(TrackIds(album.tracks)),
      "id" := JStr(album.id)])
  }

  /** The album record has exactly the six keys of tool.py:75-82: it names
      the album, its artist, its release date and id, lists the genres (none
      when absent), and its tracklist is exactly the track ids in track
      order. */
  lemma AlbumRecordContents(album: AlbumDetail, artist: ArtistRef)
    ensures var r := AlbumRecord(album, artist);
      && r.JObj?
      && r.fields.Keys == {"title", "artist", "release_year", "genres", "tracklist", "id"}
      && r.fields["title"] == JStr(album.name)
      && r.fields["artist"] == JStr(artist.name)
      && r.fields["id"] == JStr(album.id)
      && r.fields["tracklist"].JArr?
      && |r.fields["tracklist"].items| == |album.tracks|
      && (forall i :: 0 <= i < |album.tracks| ==>
            r.fields["tracklist"].items[i] == JStr(album.tracks[i].id))
      && r.fields["release_year"] == JStr(album.releaseDate)
      && (album.genres.Some? ==> r.fields["genres"] == JArr(Strings(album.genres.value)))
      && (album.genres.None? ==> r.fields["genres"] == JArr([]))
  {
  }

  /** An album record is no artist record: merging into it fails. */
  lemma MergeIntoAlbumRecord(album: AlbumDetail, artist: ArtistRef, albumName: string)
    ensures MergeArtist(Some(AlbumRecord(album, artist)), artist, albumName) == Err(ArtistFileLacksAlbums)
  {
    assert "albums" !in AlbumRecord(album, artist).fields;
  }

  /** A track record (tool.py:90-96). */
  function TrackRecord(track: TrackItem, artistName: string, albumName: string): Json {
    JObj(map[
      "title" := JStr(track.name),
      "artist" := JStr(artistName),
      "album" := JStr(albumName),
      "duration_ms" := JNum(track.durationMs),
      "id" := JStr(track.id)])
  }

  /** The record written for an artist seen for the first time
      (tool.py:108-112). */
  function FreshArtistRecord(artist: ArtistRef, albumName: string): Json {
    JObj(map[
      "name" := JStr(artist.name),
      "albums" := JArr([JStr(albumName)]),
      "id" := JStr(artist.id)])
  }

  /** Python's `part in s` for strings. */
  predicate IsSubstring(part: string, s: string) {
    part <= s || (s != [] && IsSubstring(part, s[1..]))
  }

  /** Python's `album_name in albums`, for the values `in` can search; the
      others raise TypeError. */
  predicate Searchable(albums: Json) {
    albums.JArr? || albums.JStr? || albums.JObj?
  }

  predicate ListsAlbum(albums: Json, albumName: string)
    requires Searchable(albums)
  {
    match albums
    case JArr(xs) => JStr(albumName) in xs
    case JStr(s) => IsSubstring(albumName, s)
    case JObj(keys) => albumName in keys
  }

  predicate NoDuplicates(xs: seq<Json>) {
    forall i, j :: 0 <= i < j < |xs| ==> xs[i] != xs[j]
  }

  /** The list after `if x not in xs: xs.append(x)`. */
  function AppendIfAbsent(xs: seq<Json>, x: Json): (ys: seq<Json>)
    ensures x in ys
    ensures |xs| <= |ys| <= |xs| + 1
    ensures ys[..|xs|] == xs
    ensures x in xs <==> ys == xs
    ensures NoDuplicates(xs) ==> NoDuplicates(ys)
  {
    if x in xs then xs else xs + [x]
  }

  /** The artist record after the merge of tool.py:102-112: `existing` is the
      record on disk, if there is one. */
  function MergeArtist(existing: Option<Json>, artist: ArtistRef, albumName: string): (r: Result<Json>)
    // afterwards the record lists the album
    ensures r.Ok? ==>
      && r.value.JObj? && "albums" in r.value.fields
      && Searchable(r.value.fields["albums"]) && ListsAlbum(r.value.fields["albums"], albumName)
    // an existing record keeps its keys, and every field but "albums"
    ensures r.Ok? && existing.Some? ==>
      && existing.value.JObj?
      && r.value.fields.Keys == existing.value.fields.Keys
      && forall k :: k in r.value.fields && k != "albums" ==> r.value.fields[k] == existing.value.fields[k]
    // an album already listed leaves the record as it is
    ensures (&& existing.Some? && existing.value.JObj? && "albums" in existing.value.fields
             && Searchable(existing.value.fields["albums"])
             && ListsAlbum(existing.value.fields["albums"], albumName))
      ==> r == Ok(existing.value)
  {
    match existing
    case None => Ok(FreshArtistRecord(artist, albumName))
    case Some(JObj(m)) =>
      if "albums" !in m then Err(ArtistFileLacksAlbums)
      else
        var albums := m["albums"];
        if !Searchable(albums) then Err(AlbumsNotSearchable)
        else if ListsAlbum(albums, albumName) then Ok(JObj(m))
        else if albums.JArr? then Ok(JObj(m["albums" := JArr(albums.items + [JStr(albumName)])]))
        else Err(AlbumsNotAppendable)
    case Some(_) => Err(ArtistFileNotObject)
  }

  /** With no record on disk, the new record holds the first artist's name
      and id and lists exactly this album. */
  lemma MergeFresh(artist: ArtistRef, albumName: string)
    ensures var r := MergeArtist(None, artist, albumName);
      && r.Ok? && r.value.JObj?
      && r.value.fields.Keys == {"name", "albums", "id"}
      && r.value.fields["name"] == JStr(artist.name)
      && r.value.fields["albums"] == JArr([JStr(albumName)])
      && r.value.fields["id"] == JStr(artist.id)
  {
  }

  /** On an existing list of albums the merge is append-if-absent: the list
      gains this album at the end unless it is there already, and the earlier
      entries keep their order. A list without duplicates stays so. */
  lemma MergeIntoList(m: map<string, Json>, artist: ArtistRef, albumName: string)
    requires "albums" in m && m["albums"].JArr?
    ensures var r := MergeArtist(Some(JObj(m)), artist, albumName);
      && r.Ok? && r.value.JObj?
      && r.value.fields["albums"] == JArr(AppendIfAbsent(m["albums"].items, JStr(albumName)))
      && (NoDuplicates(m["albums"].items) ==> NoDuplicates(r.value.fields["albums"].items))
  {
    var xs := m["albums"].items;
    if JStr(albumName) in xs {
      assert ListsAlbum(m["albums"], albumName);
    } else {
      assert !ListsAlbum(m["albums"], albumName);
    }
  }

  /** The merge fails exactly when a record exists and either is not an
      object, has no "albums", holds something `in` cannot search there, or
      holds a string or object that does not contain the album, which then
      has no `.append`. */
  lemma MergeFails(existing: Option<Json>, artist: ArtistRef, albumName: string)
    ensures MergeArtist(existing, artist, albumName).Err? <==>
      && existing.Some?
      && (|| !existing.value.JObj?
          || "albums" !in existing.value.fields
          || !Searchable(existing.value.fields["albums"])
          || (!existing.value.fields["albums"].JArr?
              && !ListsAlbum(existing.value.fields["albums"], albumName)))
  {
  }

  /** Merging the same album into the merged record changes nothing. */
  lemma MergeIdempotent(existing: Option<Json>, artist: ArtistRef, albumName: string)
    requires MergeArtist(existing, artist, albumName).Ok?
    ensures var merged := MergeArtist(existing, artist, albumName).value;
      MergeArtist(Some(merged), artist, albumName) == Ok(merged)
  {
  }

  /** The merge examples: a fresh artist, a repeated album, a new album. */
  lemma MergeExamples(artist: ArtistRef)
    requires artist.name == "A"
    ensures MergeArtist(None, artist, "X") ==
      Ok(JObj(map["name" := JStr("A"), "albums" := JArr([JStr("X")]), "id" := JStr(artist.id)]))
    ensures var known := JObj(map["name" := JStr("A"), "albums" := JArr([JStr("X")])]);
      MergeArtist(Some(known), artist, "X") == Ok(known)
    ensures var known := JObj(map["name" := JStr("A"), "albums" := JArr([JStr("X")])]);
      MergeArtist(Some(known), artist, "Y") ==
        Ok(JObj(map["name" := JStr("A"), "albums" := JArr([JStr("X"), JStr("Y")])]))
  {
    var known := map["name" := JStr("A"), "albums" := JArr([JStr("X")])];
    assert ListsAlbum(known["albums"], "X");
    assert JStr("Y") != JStr("X");
    assert !ListsAlbum(known["albums"], "Y");
    assert known["albums"].items + [JStr("Y")] == [JStr("X"), JStr("Y")];
    assert known["albums" := JArr([JStr("X"), JStr("Y")])]
      == map["name" := JStr("A"), "albums" := JArr([JStr("X"), JStr("Y")])];
  }
}
