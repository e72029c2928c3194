# A verified model of the album importer in `tool.py`

`tool.py` looks up an album on the Spotify Web API and writes what it finds as
JSON files under `artists/`:

- one album record at `artists/<artist slug>/<album slug>.json`;
- one track record per track at `artists/<artist slug>/<album slug>/<track slug>.json`;
- one artist record at `artists/<artist slug>/metadata.json`. The album's name is
  appended to the artist record's `albums` list unless it is already there.

A slug is a name passed through `sanitize_name`. This project models the tool's
local logic in Dafny and proves what it does.

- **Slug** (`slug.dfy`) models `sanitize_name` as the source's three stages: filter, then
  `replace`, then `lower`. The proofs cover:
  - a slug is made of `[a-z0-9-]` and is never longer than the name;
  - sanitizing works character by character, in order;
  - it is idempotent;
  - it keeps the length of a name exactly when no character of the name is dropped.
- **Json** (`json.dfy`) defines the JSON values that files hold.
- **Layout** (`layout.dfy`) defines the paths. A path is the sequence of its non-empty
  components, because the operating system resolves the doubled `/` left by an empty
  slug that way. The lemmas say when two of the tool's paths are the same file.
- **Records** (`records.dfy`) covers three things:
  - the album detail the API returns;
  - the album, track and artist records built from it;
  - the artist merge, modelled as a pure function `MergeArtist`.

  The merge follows Python's behaviour for every JSON shape:
  - an `albums` list is append-if-absent;
  - an `albums` string uses substring `in`;
  - an `albums` object uses key `in`;
  - anything that cannot be searched or appended to raises, as Python would.
- **Writes** (`writes.dfy`) models the files as a map from path to value, and
  `write_json` as replacing one entry. `WriteAll` performs a list of writes in order.
  Its lemmas say what a run of writes leaves at each path, whatever the paths are:
  - untouched paths keep their file;
  - the last write to a path wins;
  - what a path held before it was written does not matter.
- **Import** (`import.dfy`) states the whole effect of `add_album` as a function of the
  files before the call. Before the merge, that effect is a list of writes: the album
  record, then the track records in track order.
- **Tool** (`tool.dfy`) is the imperative side. Class `Library` holds the files and
  directories as fields. It has methods for `create_directory`, `write_json`, the
  in-place artist merge, the track loop and `add_album`. Each method is proved to
  produce exactly the state `Import` describes. `Grab` picks the first search result
  and imports it.

Some consequences are proved about the code as written:
- An album whose slug is `metadata` writes its album record over the artist record.
  The merge then fails with a `KeyError`, and the artist's album list is lost.
- Two tracks with the same slug share one file, and the later track wins.
- Importing the same album twice after a successful import changes nothing.

A reader might expect `sanitize_name` to drop non-ASCII letters, but it does not.
Python's `str.isalnum` keeps letters such as `ó`, so `sanitize_name("Sigur Rós")` is
`"sigur-rós"`. The model does not decide non-ASCII
names at all (see "Left out").

## Model

| member | source | states |
|---|---|---|
| Slug.KeepNameChars | tool.py:49 | the filter stage is never longer than its input |
| Slug.KeepNameCharsKept | tool.py:49 | only alphanumerics, `-` and spaces survive the filter stage |
| Slug.HyphenateSpaces | tool.py:49 | `.replace(" ", "-")` keeps the length |
| Slug.HyphenateSpacesAt | tool.py:49 | `.replace(" ", "-")`: each space becomes `-`, every other character stays where it is |
| Slug.Lower | tool.py:49 | `.lower()` on ASCII keeps the length |
| Slug.LowerAt | tool.py:49 | `.lower()` on ASCII lowers each character in place |
| Slug.LowerChar | tool.py:49 | an upper-case letter becomes its lower-case letter, every other character is unchanged |
| Slug.Sanitize | tool.py:48-49 | the slug contains only `a-z`, `0-9` and `-`, and is never longer than the name (so `""` maps to `""`) |
| Slug.SanitizeAppend | tool.py:49 | sanitizing a concatenation is the concatenation of the sanitized parts: characters are treated one by one and keep their order |
| Slug.SanitizeChar | tool.py:49 | an alphanumeric is kept and lowered, `-` is kept, a space becomes `-`, any other character is dropped |
| Slug.SanitizeSlug | tool.py:49 | a string already made of `[a-z0-9-]` is its own slug |
| Slug.SanitizeIdempotent | tool.py:49 | `sanitize_name(sanitize_name(s)) == sanitize_name(s)` |
| Slug.SanitizeKeepsLength | tool.py:49 | the slug is as long as the name exactly when every character of the name is alphanumeric, `-` or a space |
| Slug.SanitizeArtistExample | tool.py:49 | `"AC/DC"` becomes `"acdc"` |
| Json.Strings | tool.py:79 | the genres array holds the genre strings in order |
| Layout.FileParents | tool.py:68-101 | the album record and the artist record lie directly in the artist directory, a track record directly in the album directory |
| Layout.FilesUnderArtistDir | tool.py:68-69 | the album directory and all three kinds of file lie under `artists/<artist slug>` |
| Layout.ArtistDirsDisjoint | tool.py:68 | no file lies under the directories of two artists with different non-empty slugs |
| Layout.AlbumFileIsArtistFile | tool.py:83 | the album file is the artist file if and only if the album slug is `metadata` |
| Layout.TrackFileIsArtistFile | tool.py:89 | a track file is the artist file if and only if the album slug is empty and the track slug is `metadata` |
| Layout.TrackFileIsAlbumFile | tool.py:89 | a track file is the album file if and only if the album slug and the track slug are both empty |
| Layout.TrackFileInjective | tool.py:88-89 | two tracks of one album share a file if and only if their slugs are equal |
| Records.TrackIds | tool.py:80 | the tracklist has one entry per track, and entry `i` is track `i`'s id |
| Records.AlbumRecordContents | tool.py:75-82 | the album record has exactly the six keys and gives each its value: the album's name, the artist's name, the release date, the genres in order (`[]` when absent), the track ids in track order, and the album's id |
| Records.MergeIntoAlbumRecord | tool.py:104-105 | merging into a record without `albums`, such as an album record, fails with a `KeyError` |
| Records.AppendIfAbsent | tool.py:105-106 | afterwards the album is listed; the list grows by at most one; the earlier entries keep their order; it is unchanged if and only if the album was listed; a list without duplicates stays without |
| Records.MergeArtist | tool.py:102-112 | on success the record lists the album; an existing record keeps its keys and every field other than `albums`; an album already listed leaves the record unchanged |
| Records.MergeFresh | tool.py:107-112 | with no file, the record is exactly `name` = first artist's name, `albums` = `[album]`, `id` = first artist's id |
| Records.MergeIntoList | tool.py:105-106 | on an existing `albums` list the merge is append-if-absent and keeps the list free of duplicates |
| Records.MergeFails | tool.py:102-106 | the merge fails if and only if a file exists and is not an object, lacks `albums`, holds something `in` cannot search, or holds a string or object without the album, which then has no `.append` |
| Records.MergeIdempotent | tool.py:102-106 | merging the same album into the merged record changes nothing |
| Records.MergeExamples | tool.py:102-112 | a fresh artist gives `albums: ["X"]`; merging `"X"` again leaves `["X"]`; merging `"Y"` gives `["X", "Y"]` |
| Writes.WriteAll | tool.py:56-58 | a run of `write_json` calls removes no file |
| Writes.WriteAllKeys | tool.py:56-58 | a run of writes adds exactly the paths it writes to the existing files |
| Writes.WriteAllFrame | tool.py:56-58 | a path that no write targets keeps its file, or stays absent |
| Writes.WriteAllLast | tool.py:56-58 | a path holds the value of the last write to it: of two writes to one path, the later one wins |
| Writes.WriteAllTarget | tool.py:56-58 | a path that was written to holds one of the values written to it |
| Writes.WriteAllAgree | tool.py:56-58 | `open(path, "w")` truncates: after the writes, a target holds the same value whatever it held before |
| Writes.WriteAllEqual | tool.py:56-58 | two trees that agree everywhere except at the targets are equal after the writes |
| Writes.WriteAllUpdate | tool.py:56-58 | a write to a path none of the writes targets commutes with them |
| Writes.WriteAllCons | tool.py:56-58 | performing the first write and then the rest is performing them all |
| Writes.WriteAllRewrite | tool.py:56-58 | repeating the writes over their own result, with one untargeted path changed since, changes nothing |
| Import.TrackPathsDiffer | tool.py:88-89 | two tracks go to different files if and only if their slugs differ |
| Import.TrackWrites | tool.py:87-97 | the track loop performs one write per track |
| Import.TrackWritesAt | tool.py:87-97 | write `j` of the loop puts track `j`'s record (title, artist, album, duration, id) in the file named by track `j`'s slug |
| Import.TrackTargets | tool.py:87-97 | the track loop writes to exactly the files named by the tracks |
| Import.TrackWritesLater | tool.py:87-97 | no later write of the loop goes to track `j`'s file unless a later track has the same slug |
| Import.AlbumWrites | tool.py:75-97 | before the merge, `add_album` first writes the album record to the album file, then one record per track |
| Import.AlbumWritesAt | tool.py:87-97 | write `j + 1` before the merge is track `j`'s record going to track `j`'s file |
| Import.AlbumWritesDistinct | tool.py:83-101 | with distinct paths, no write before the merge touches the artist file, and no track write touches the album file |
| Import.AlbumAndTracksFrame | tool.py:75-97 | the album and track writes leave every other path alone |
| Import.AlbumAndTracksAlbumFile | tool.py:83-97 | unless the album slug and some track slug are both empty, the album file holds the album record once the tracks are written |
| Import.TrackWriteOffAlbumFile | tool.py:83-97 | a track whose slug is not empty, or an album whose slug is not empty, sends that track's write somewhere other than the album file |
| Import.ImportAlbum | tool.py:61-113 | `add_album` removes no file, and fails with no effect when the album lists no artist |
| Import.ImportOffArtistFile | tool.py:101-113 | the artist merge changes no path but the artist file |
| Import.PathsDistinctMeans | tool.py:83-101 | outside the `metadata` and empty-slug cases, the album file, the artist file and every track file are different paths |
| Import.ImportFrame | tool.py:61-113 | only the album file, the track files and the artist file can change; every other path is untouched |
| Import.ImportStaysInArtistDir | tool.py:68-113 | nothing outside `artists/<artist slug>` changes |
| Import.ImportWrites | tool.py:75-113 | with distinct paths, the album file holds the album record; the merge sees the artist file as it was before the call; on success the artist file holds the merged record, and on failure it is unchanged |
| Import.AlbumAndTracksTrack | tool.py:87-97 | once the tracks are written, and before the artist merge, each track's file holds its record unless a later track has the same slug |
| Import.ImportWritesTrack | tool.py:87-101 | after the whole import, each track's file holds its record unless a later track has the same slug; this holds even when the track file is the artist file, because the import then fails without merging |
| Import.ImportMetadataAlbum | tool.py:83-105 | an album whose slug is `metadata` overwrites the artist record with the album record, and the call fails with a `KeyError` |
| Import.AlbumWritesLackAlbums | tool.py:75-96 | neither the album record nor a track record has an `albums` key |
| Import.ArtistFileOverwrittenFails | tool.py:83-105 | when the album record or a track record lands on the artist file, the merge fails with a `KeyError` |
| Import.ImportOkSparesArtistFile | tool.py:75-113 | an import that succeeds wrote nothing over the artist file before the merge |
| Import.ImportIdempotent | tool.py:61-113 | after a successful import, importing the same album again gives the same files and outcome |
| Import.AlbumAndTracksIntoEmpty | tool.py:75-97 | with distinct paths, into an empty tree the writes before the merge create exactly the album file and the track files, and not the artist file |
| Import.ImportIntoEmpty | tool.py:61-113 | with distinct paths, into an empty tree the import succeeds and creates exactly the album file, the artist file and the track files; the artist record is the fresh one |
| Tool.Ancestors | tool.py:52-53 | `os.makedirs` makes sure that exactly the path and the directories above it exist: a directory is in the set if and only if the path lies in it or below it |
| Tool.FirstAlbumId | tool.py:119-120 | the first search result's id is selected; an empty result list is an error |
| Tool.Library.CreateDirectory | tool.py:52-53 | adds the directory and its ancestors, and changes no file |
| Tool.Library.WriteJson | tool.py:56-58 | replaces the whole value at one path; every other path is unchanged |
| Tool.Library.MergeArtistMetadata | tool.py:101-113 | reads, appends in place and rewrites the artist file unconditionally; the result is `MergeArtist` of the file as it was, and a failure writes nothing |
| Tool.Library.WriteTracks | tool.py:87-98 | the files after the loop are the files before it with the writes of `TrackWrites` performed in order |
| Tool.Library.AddAlbum | tool.py:61-114 | the files and outcome after the call are exactly `ImportAlbum` of the files before; the album directory and its ancestors exist |
| Tool.Grab | tool.py:117-122 | a failed API call or an empty search result writes no file and makes no directory; otherwise the files and outcome are `ImportAlbum` of the detail fetched for the first result's id, and the directories are those `add_album` makes |

## Left out

- `get_access_token`, `spotify_api_call`, `search_spotify` and `fetch_album_data` (tool.py:9-45) are left out. They are HTTP calls and OAuth client-credentials calls through `requests`, with credentials loaded by `dotenv`. `Grab` takes their results as inputs instead: the search result list or a failure, and a function from album id to album detail or failure.
- The command-line entry point (tool.py:125-131) and every `print` are left out, because they only log and parse arguments.
- JSON text is not modelled: no serialisation, indentation or key order, and no floating-point numbers. A file holds a JSON value, and reading it back with `json.load` gives the value that `json.dump` wrote.
- Files that do not hold valid JSON are not modelled. Such a file can be one this tool did not write, or one truncated by an interrupted earlier run, since `open(path, "w")` empties the file before `json.dump` writes it (tool.py:57-58). `json.load` at tool.py:104 raises on such an artist file. The model has no way to represent such a file, so it does not include that failure.
- Slug.Sanitize: is defined only for ASCII names (`requires IsAscii`). Python's `str.isalnum` and `str.lower` are Unicode-aware, which means non-ASCII letters are kept and lowering can change a string's length. The model claims nothing about non-ASCII names.
- Tool.Library.AddAlbum: requires the names it sanitizes to be ASCII (`SlugSafe`): the first artist's name, the album's name and every track's name. The reason is the one given for `Slug.Sanitize`.
- Tool.Grab: requires every album the fetch can return to have ASCII names, for the same reason.
- Tool.Library.WriteJson: requires the file's directory to exist instead of modelling `open` failing. Every caller creates that directory first.
- File-system failures are not modelled. These include permissions and a full disk, a regular file standing where `os.makedirs` needs a directory, and a directory standing at a `.json` path. A directory at the artist file's path is one case: `os.path.exists` is true there and the read would fail.
- Malformed API payloads are not modelled, except for an empty artist list, which is the `IndexError` the source can hit. Missing keys such as `release_date`, a `genres` value of `null`, and ids or durations of other JSON types all fall outside the model.
- Concurrent runs of the tool for the same artist are not modelled, and neither is the lost update this read-modify-write allows. The tool is single-threaded.
