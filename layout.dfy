/** Where `add_album` puts its files. The source builds each path with an
    f-string, `f"artists/{a}/{b}.json"` and the like. A path is modelled as the
    operating system resolves it: the sequence of its non-empty components,
    since an empty slug leaves a doubled '/' that names the same directory as a
    single one. */
module Layout {

  type Path = seq<string>

  /** The parent directory of a file. */
  function Parent(p: Path): Path
    requires |p| > 0
  {
    p[..|p| - 1]
  }

  /** A path part that contributes nothing when it is empty. */
  function Part(s: string): (r: Path)
    ensures s == "" ==> r == []
    ensures s != "" ==> r == [s]
  {
    if s == "" then [] else [s]
  }

  /** `base_artist_dir = f"artists/{sanitized_artist}"`. */
  function ArtistDir(a: string): Path {
    ["artists"] + Part(a)
  }

  /** `album_dir = f"{base_artist_dir}/{sanitized_album}"`. */
  function AlbumDir(a: string, b: string): Path {
    ArtistDir(a) + Part(b)
  }

  /** The album record: `f"{base_artist_dir}/{sanitized_album}.json"`. */
  function AlbumFile(a: string, b: string): Path
  {
    ArtistDir(a) + [b + ".json"]
  }

  /** A track record: `f"{album_dir}/{sanitized_song}.json"`. */
  function TrackFile(a: string, b: string, t: string): Path
  {
    AlbumDir(a, b) + [t + ".json"]
  }

  /** The artist record: `f"{base_artist_dir}/metadata.json"`. */
  function ArtistFile(a: string): Path
  {
    ArtistDir(a) + ["metadata.json"]
  }

  /** The album and artist records lie directly in the artist directory, a
      track record directly in the album directory. */
  lemma FileParents(a: string, b: string, t: string)
    ensures |AlbumFile(a, b)| > 0 && Parent(AlbumFile(a, b)) == ArtistDir(a)
    ensures |TrackFile(a, b, t)| > 0 && Parent(TrackFile(a, b, t)) == AlbumDir(a, b)
    ensures |ArtistFile(a)| > 0 && Parent(ArtistFile(a)) == ArtistDir(a)
  {
  }

  /** `p` lies in directory `d` or below it. */
  predicate IsUnder(p: Path, d: Path) {
    |d| <= |p| && p[..|d|] == d
  }

  lemma SuffixCancel(x: string, y: string, s: string)
    requires x + s == y + s
    ensures x == y
  {
    assert |x| == |y|;
    assert x == (x + s)[..|x|];
    assert y == (y + s)[..|y|];
  }

  /** Every file of one album, and the album directory itself, lies in the
      artist's directory. */
  lemma FilesUnderArtistDir(a: string, b: string, t: string)
    ensures IsUnder(AlbumDir(a, b), ArtistDir(a))
    ensures IsUnder(AlbumFile(a, b), ArtistDir(a))
    ensures IsUnder(TrackFile(a, b, t), ArtistDir(a))
    ensures IsUnder(ArtistFile(a), ArtistDir(a))
  {
    assert TrackFile(a, b, t) == ArtistDir(a) + (Part(b) + [t + ".json"]);
  }

  /** Two artists with different non-empty slugs share no file. */
  lemma ArtistDirsDisjoint(a1: string, a2: string, p: Path)
    requires a1 != "" && a2 != "" && a1 != a2
    ensures IsUnder(p, ArtistDir(a1)) ==> !IsUnder(p, ArtistDir(a2))
  {
    if IsUnder(p, ArtistDir(a1)) {
      assert p[1] == p[..|ArtistDir(a1)|][1] == a1;
    }
  }

  /** The album record lands on the artist record exactly when the album's
      slug is "metadata". */
  lemma AlbumFileIsArtistFile(a: string, b: string)
    ensures AlbumFile(a, b) == ArtistFile(a) <==> b == "metadata"
  {
    assert "metadata.json" == "metadata" + ".json";
    if AlbumFile(a, b) == ArtistFile(a) {
      assert AlbumFile(a, b)[|ArtistDir(a)|] == b + ".json";
      assert ArtistFile(a)[|ArtistDir(a)|] == "metadata.json";
      SuffixCancel(b, "metadata", ".json");
    }
  }

  /** A track record lands on the artist record exactly when the album's slug
      is empty and the track's slug is "metadata". */
  lemma TrackFileIsArtistFile(a: string, b: string, t: string)
    ensures TrackFile(a, b, t) == ArtistFile(a) <==> b == "" && t == "metadata"
  {
    assert "metadata.json" == "metadata" + ".json";
    if TrackFile(a, b, t) == ArtistFile(a) {
      assert |Part(b)| == 0;
      assert TrackFile(a, b, t)[|ArtistDir(a)|] == t + ".json";
      assert ArtistFile(a)[|ArtistDir(a)|] == "metadata.json";
      SuffixCancel(t, "metadata", ".json");
    }
  }

  /** A track record lands on the album record exactly when both the album's
      and the track's slugs are empty. */
  lemma TrackFileIsAlbumFile(a: string, b: string, t: string)
    ensures TrackFile(a, b, t) == AlbumFile(a, b) <==> b == "" && t == ""
  {
    assert ".json" == "" + ".json";
    if TrackFile(a, b, t) == AlbumFile(a, b) {
      assert |Part(b)| == 0;
      assert TrackFile(a, b, t)[|ArtistDir(a)|] == t + ".json";
      assert AlbumFile(a, b)[|ArtistDir(a)|] == b + ".json";
      SuffixCancel(t, "", ".json");
    }
  }

  /** Within one album, two tracks share a file exactly when their slugs are
      equal. */
  lemma TrackFileInjective(a: string, b: string, t1: string, t2: string)
    ensures TrackFile(a, b, t1) == TrackFile(a, b, t2) <==> t1 == t2
  {
    if TrackFile(a, b, t1) == TrackFile(a, b, t2) {
      assert TrackFile(a, b, t1)[|AlbumDir(a, b)|] == t1 + ".json";
      assert TrackFile(a, b, t2)[|AlbumDir(a, b)|] == t2 + ".json";
      SuffixCancel(t1, t2, ".json");
    }
  }
}
