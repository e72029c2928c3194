/** The tool's effect on disk, step by step: `create_directory`,
    `write_json`, the artist-record merge and `add_album` as methods of a
    class whose fields are the files and directories under the working
    directory, and `grab`, which picks the first search result and imports
    it (tool.py:52-122). Each method is proved equal to the specification in
    module Import. */
module Tool {
  import opened Json
  import opened Slug
  import opened Layout
  import opened Records
  import opened Writes
  import opened Import

  /** The directories `os.makedirs(path, exist_ok=True)` makes sure exist:
      the path and each directory above it, down to the working directory. */
  function Ancestors(p: Path): (ds: set<Path>)
    ensures p in ds && [] in ds
    ensures forall d :: d in ds <==> IsUnder(p, d)
  {
    assert p[..|p|] == p && p[..0] == [];
    assert forall d :: IsUnder(p, d) ==> d == p[..|d|];
    set k | 0 <= k <= |p| :: p[..k]
  }

  /** `grab`'s `search_results["albums"]["items"][0]["id"]`: the id of the
      first search result; an empty result list is an error. */
  function FirstAlbumId(items: seq<AlbumSummary>): (r: Result<string>)
    ensures r.Ok? <==> |items| > 0
    ensures r.Ok? ==> r.value == items[0].id
    ensures r.Err? ==> r.error == EmptySearchResult
  {
    if |items| == 0 then Err(EmptySearchResult) else Ok(items[0].id)
  }

  class Library {
    /** The JSON value in each file. */
    var files: map<Path, Json>
    /** The directories; `[]` is the working directory. */
    var dirs: set<Path>

    /** Every file lies in a directory that exists. */
    ghost predicate Valid()
      reads this
    {
      && [] in dirs
      && forall p {:trigger p in files} :: p in files ==> |p| > 0 && Parent(p) in dirs
    }

    /** The disk as the tool finds it. */
    constructor (files0: map<Path, Json>, dirs0: set<Path>)
      requires [] in dirs0
      requires forall p {:trigger p in files0} :: p in files0 ==> |p| > 0 && Parent(p) in dirs0
      ensures Valid() && files == files0 && dirs == dirs0
    {
      files := files0;
      dirs := dirs0;
    }

    /** `create_directory` (tool.py:52-53). */
    method CreateDirectory(path: Path)
      requires Valid()
      modifies this
      ensures Valid()
      ensures files == old(files) && dirs == old(dirs) + Ancestors(path)
    {
      dirs := dirs + Ancestors(path);
    }

    /** `write_json` (tool.py:56-58): the file at `path` holds `data`
        afterwards, whatever it held before; no other file changes. Opening
        the file needs its directory to exist. */
    method WriteJson(path: Path, data: Json)
      requires Valid() && |path| > 0 && Parent(path) in dirs
      modifies this
      ensures Valid()
      ensures files == old(files)[path := data] && dirs == old(dirs)
    {
      files := files[path := data];
    }

    /** The artist-record merge (tool.py:101-113): read the record if the file
        exists, append the album to its "albums" list in place if it is not
        listed, or start a fresh record; then rewrite the file, even when
        nothing changed. */
    method MergeArtistMetadata(path: Path, artist: ArtistRef, albumName: string) returns (outcome: Result<()>)
      requires Valid() && |path| > 0 && Parent(path) in dirs
      modifies this
      ensures Valid() && dirs == old(dirs)
      ensures var merged := MergeArtist(Lookup(old(files), path), artist, albumName);
        && (merged.Ok? ==> outcome == Ok(()) && files == old(files)[path := merged.value])
        && (merged.Err? ==> outcome == Err(merged.error) && files == old(files))
    {
      var record: Json;
      if path in files {
        var loaded := files[path];
        if !loaded.JObj? {
          return Err(ArtistFileNotObject);
        }
        var fields := loaded.fields;
        if "albums" !in fields {
          return Err(ArtistFileLacksAlbums);
        }
        var albums := fields["albums"];
        if !Searchable(albums) {
          return Err(AlbumsNotSearchable);
        }
        if !ListsAlbum(albums, albumName) {
          if !albums.JArr? {
            return Err(AlbumsNotAppendable);
          }
          var list := albums.items;
          list := list + [JStr(albumName)];
          fields := fields["albums" := JArr(list)];
        }
        record := JObj(fields);
      } else {
        record := FreshArtistRecord(artist, albumName);
      }
      WriteJson(path, record);
      outcome := Ok(());
    }

    /** The track loop of `add_album` (tool.py:87-98): each track's record
        goes to the file named by its slug in the album directory, in track
        order. */
    method WriteTracks(a: string, b: string, artistName: string, albumName: string,
                       tracks: seq<TrackItem>)
      requires Valid() && TracksSlugSafe(tracks) && AlbumDir(a, b) in dirs
      modifies this
      ensures Valid() && dirs == old(dirs)
      ensures files == WriteAll(old(files), TrackWrites(a, b, artistName, albumName, tracks))
    {
      ghost var writes := TrackWrites(a, b, artistName, albumName, tracks);
      for i := 0 to |tracks|
        invariant Valid() && dirs == old(dirs)
        invariant files == WriteAll(old(files), writes[..i])
      {
        var track := tracks[i];
        var songPath := TrackFile(a, b, Sanitize(track.name));
        var record := TrackRecord(track, artistName, albumName);
        TrackWritesAt(a, b, artistName, albumName, tracks, i);
        FileParents(a, b, Sanitize(track.name));
        WriteJson(songPath, record);
        WriteAllSnoc(old(files), writes, i);
      }
      assert writes[..|tracks|] == writes;
    }

    /** `add_album` (tool.py:61-114): the files afterwards, and how the call
        ends, are those of `ImportAlbum`; the album directory and those above
        it exist once the artist list is known to be non-empty. */
    method AddAlbum(album: AlbumDetail) returns (outcome: Result<()>)
      requires Valid() && SlugSafe(album)
      modifies this
      ensures Valid()
      ensures Imported(files, outcome) == ImportAlbum(old(files), album)
      ensures |album.artists| == 0 ==> dirs == old(dirs)
      ensures |album.artists| > 0 ==>
        dirs == old(dirs) + Ancestors(AlbumDir(ArtistSlug(album), Sanitize(album.name)))
    {
      if |album.artists| == 0 {
        return Err(NoArtist);
      }
      var artist := album.artists[0];
      var a := Sanitize(artist.name);
      var b := Sanitize(album.name);
      var albumDir := AlbumDir(a, b);
      CreateDirectory(albumDir);
      assert ArtistDir(a) == albumDir[..|ArtistDir(a)|];
      FileParents(a, b, "");
      WriteJson(AlbumFile(a, b), AlbumRecord(album, artist));
      WriteTracks(a, b, artist.name, album.name, album.tracks);
      WriteAllCons(old(files), AlbumWrites(album)[0], AlbumTrackWrites(album));
      assert AlbumWrites(album) == [AlbumWrites(album)[0]] + AlbumTrackWrites(album);
      assert files == AlbumAndTracks(old(files), album);
      outcome := MergeArtistMetadata(ArtistFile(a), artist, album.name);
    }
  }

  /** `grab` (tool.py:117-122) with the two API calls as inputs: `search` is
      the search response's album list, or None when the call failed, and
      `fetch(id)` the album detail for `id`, or None when that call failed.
      Nothing is written and no directory is made unless both calls succeed
      and the search found an album. */
  method Grab(library: Library, search: Option<seq<AlbumSummary>>,
              fetch: string -> Option<AlbumDetail>) returns (outcome: Result<()>)
    requires library.Valid()
    requires forall id :: fetch(id).Some? ==> SlugSafe(fetch(id).value)
    modifies library
    ensures library.Valid()
    ensures search.None? ==>
      && outcome == Err(ApiCallFailed)
      && library.files == old(library.files) && library.dirs == old(library.dirs)
    ensures search == Some([]) ==>
      && outcome == Err(EmptySearchResult)
      && library.files == old(library.files) && library.dirs == old(library.dirs)
    ensures search.Some? && |search.value| > 0 ==>
      var detail := fetch(search.value[0].id);
      && (detail.None? ==>
            && outcome == Err(ApiCallFailed)
            && library.files == old(library.files) && library.dirs == old(library.dirs))
      && (detail.Some? ==> Imported(library.files, outcome) == ImportAlbum(old(library.files), detail.value))
      && (detail.Some? && |detail.value.artists| == 0 ==> library.dirs == old(library.dirs))
      && (detail.Some? && |detail.value.artists| > 0 ==>
            library.dirs == old(library.dirs)
              + Ancestors(AlbumDir(ArtistSlug(detail.value), Sanitize(detail.value.name))))
  {
    if search.None? {
      return Err(ApiCallFailed);
    }
    var first := FirstAlbumId(search.value);
    if first.Err? {
      return Err(first.error);
    }
    var detail := fetch(first.value);
    if detail.None? {
      return Err(ApiCallFailed);
    }
    outcome := library.AddAlbum(detail.value);
  }
}
