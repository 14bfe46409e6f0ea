# bs-song-manager: the song-folder indexer, modelled in Dafny

This project models the indexer of the Beat Saber song manager (`src/lib.rs`).
The indexer walks a folder of custom songs. For each sub-folder it reads the
level's `info.dat` and decodes the difficulty sets declared there. It reads
every beatmap file those sets reference. It then builds a `Song` record whose
level hash is computed over the `info.dat` text followed by the beatmap texts.
Any missing file, unparsable document or mistyped field rejects the song.

Files and modules:

- `options.dfy` (`Options`): `Option`, and `MapAll`, which decodes every element of a sequence and fails at the first failure (Rust's `?` inside a collecting loop).
- `json.dfy` (`Json`): the part of serde_json's `Value` the indexer inspects.
  - It provides indexing (`Get`, which gives `Null` for a missing key or a non-object) and `as_str`, `as_u64` and `as_array` as partial functions.
  - It also defines Rust's `u64`.
- `characteristic.dfy` (`Characteristic`): the seven beatmap characteristics, `as_str`, and the name match of `DifficultyBeatmapSet::new`.
- `beatmap.dfy` (`Beatmap`): `DifficultyBeatmap::new` as a function. `DifficultyBeatmapSet::new` is a method with the source's push loop, proved equal to its specification function `DifficultyBeatmapSetOf`. There are also encoders used to state the round trips.
- `folder.dfy` (`Folder`): the file system as data.
  - A directory listing is a sequence of entries. An entry that could not be read is `None`.
  - Each entry has a name and a kind. The kind is what `is_file` / `is_dir` report for the entry's path.
  - Files map a path to their text.
  - A path missing from the map means that `read_dir`, `File::open` or `read_to_string` failed on it.
  - It also defines the ASCII case-insensitive name comparison.
- `song.dfy` (`Songs`): `Song::from_path`.
  - The method `FromPath` keeps the source's loops, its early returns and the growing hash input. It is split into `LoadDifficultyBeatmapSets` (the loop over sets) and `AppendBeatmapFiles` (the loop over one set's beatmaps).
  - `FromPath` is proved equal to the specification function `SongAt`, which reads the first info.dat and hands its text to `SongFromInfoDat` and, once parsed, to `SongFromInfo`.
  - `LoadDifficultyBeatmapSets` is proved to yield `MapAll(DifficultyBeatmapSetOf, …)` and to extend the hash input by `Concat` of `ReadBeatmapFiles` over `BeatmapFilenames` of those sets; `AppendBeatmapFiles` does the same for the file names of one set (`FilenamesOf`).
  - Lemmas about those functions state when a song is produced and what it holds.
- `song_list.dfy` (`SongList`): `generate_song_list`. The method `GenerateSongList` keeps the source's loop. It is proved equal to `SongListAt`, a filter-map over the root listing.

Two collaborators are parameters of the model:

- `parse: string -> Option<Value>` stands for `serde_json::from_str`.
- `hashString: string -> string` stands for `hash_string`, a SHA-1 digest followed by hex encoding. It is left uninterpreted, so what is proved is which text is hashed.

Two facts about the code that the model keeps:

- The second text field read from `info.dat` is `_version` (src/lib.rs:159).
- The song comes from the first listing entry that is a regular file named `info.dat` in any ASCII case (src/lib.rs:116). Whatever that file yields is the result, and later matching entries are never looked at: a song is returned at src/lib.rs:168, and nothing is returned by the early exits at src/lib.rs:122, 126, 132, 138, 146 and 150 and by the `?` at src/lib.rs:135 and 158-164. Only when no entry matches does the loop end and return nothing (src/lib.rs:173).

## Model

| member | source | states |
|---|---|---|
| Characteristic.AsStr | src/lib.rs:32-41 | decoding the name of any characteristic gives that characteristic back |
| Characteristic.FromNameKnown | src/lib.rs:69-78 | a name decodes exactly when it is one of the seven known names |
| Characteristic.NameRoundTrip | src/lib.rs:69-76 | a name that decodes is the name of the characteristic it decodes to |
| Characteristic.AsStrInjective | src/lib.rs:32-41 | no two characteristics share a name |
| Characteristic.FromName | src/lib.rs:69-78 | the name match (definition, no contract): each of the seven names gives its characteristic, any other string nothing; its properties are `FromNameKnown` and `NameRoundTrip` |
| Json.AsStr | src/lib.rs:54 | succeeds exactly on strings, with that string |
| Json.AsU64 | src/lib.rs:55 | succeeds exactly on integers in 0 .. 2^64-1, with that value |
| Json.AsArray | src/lib.rs:79 | succeeds exactly on arrays, with their elements |
| Json.Get | src/lib.rs:54-56 | `value[key]` (definition, no contract): the field of an object that has the key, and `Null` for a missing key or a value that is not an object |
| Options.MapAll | src/lib.rs:79-81 | succeeds exactly when every element decodes; the result then has the same length and holds each element's value in order |
| Beatmap.NewDifficultyBeatmap | src/lib.rs:52-58 | decodes exactly when `_difficulty` and `_beatmapFilename` are strings and `_difficultyRank` is a u64; the fields are then those values |
| Beatmap.CharacteristicOf | src/lib.rs:69-78 | the `as_str()?` on `_beatmapCharacteristicName` followed by the seven-way match (definition, no contract); its properties are `CharacteristicOfKnown` and `UnknownNameRejects` |
| Beatmap.CharacteristicOfKnown | src/lib.rs:69-78 | the characteristic decodes exactly when `_beatmapCharacteristicName` is a string among the seven names, and it is then the name of the result |
| Beatmap.DifficultyBeatmapSetOf | src/lib.rs:67-86 | specification of `DifficultyBeatmapSet::new` (definition, no contract): the name, then the beatmaps array decoded element by element with `MapAll`; its properties are the lemmas around it |
| Beatmap.DifficultyBeatmapSetOfIff | src/lib.rs:67-86 | a set decodes exactly when its name decodes, `_difficultyBeatmaps` is an array and every element decodes; it then keeps the characteristic and has as many beatmaps as the array, each decoded from the element at the same position |
| Beatmap.NewDifficultyBeatmapSet | src/lib.rs:67-86 | the push loop with early return yields exactly the specification `DifficultyBeatmapSetOf` |
| Beatmap.UnknownNameRejects | src/lib.rs:69-77 | a characteristic name that is not a string, or not one of the seven names, rejects the set |
| Beatmap.FailingBeatmapRejects | src/lib.rs:79-81 | a single beatmap element that fails to decode rejects the whole set |
| Beatmap.DifficultyBeatmapRoundTrip | src/lib.rs:52-58 | every beatmap record decodes back from its own info.dat form |
| Beatmap.DifficultyBeatmapSetRoundTrip | src/lib.rs:67-86 | every difficulty set decodes back from its own info.dat form, beatmaps in order |
| Folder.ReadDir | src/lib.rs:108-112 | listing succeeds exactly for the directories that can be listed |
| Folder.ReadToString | src/lib.rs:119-127 | reading succeeds exactly for the files that can be opened and read |
| Folder.EqIgnoreAsciiCase | src/lib.rs:116 | `eq_ignore_ascii_case` (definition, no contract): same length and equal position by position once ASCII upper-case letters are lowered |
| Folder.IsInfoDat | src/lib.rs:115-118 | the entries `from_path` processes (definition, no contract): readable, a regular file, named `info.dat` up to ASCII case |
| Folder.InfoDatNameRule | src/lib.rs:116 | for every name: it matches `info.dat` exactly when it has eight characters, each equal to that of `info.dat` or, for a letter, its upper-case form |
| Folder.InfoDatNames | src/lib.rs:116 | `Info.dat` and `INFO.DAT` regular files count as info.dat; a directory of that name, `info.dat.bak` and `info_dat` do not |
| Songs.FirstInfoDat | src/lib.rs:114-118 | the position found is an info.dat file and no earlier entry is one; with no position, no entry is one |
| Songs.FilenamesOf | src/lib.rs:140-142 | the file names of one set's beatmaps, in beatmap order (definition; its contract only spells out the comprehension); its properties are carried by `BeatmapFilenamesAt` and `AppendBeatmapFiles` |
| Songs.BeatmapFilenames | src/lib.rs:135-153 | every referenced beatmap file name, set after set and within a set beatmap after beatmap (definition, no contract); its properties are `BeatmapFilenamesAt` and `BeatmapFilenamesFrom` |
| Songs.Concat | src/lib.rs:152 | the texts one after another, as the repeated `extend` of the hash input builds them (definition, no contract); used by `AppendBeatmapFiles`, `LoadDifficultyBeatmapSets` and `FromPathSuccess` |
| Songs.ReadBeatmapFiles | src/lib.rs:140-152 | succeeds exactly when every named file can be read; gives their texts in the order of the names |
| Songs.BeatmapFilenamesAt | src/lib.rs:135-155 | hash input order: the file of beatmap m of set k comes right after the files of all earlier sets and of the earlier beatmaps of set k |
| Songs.BeatmapFilenamesFrom | src/lib.rs:140-142 | every referenced file name is the file name of some beatmap of some set |
| Songs.ReadBeatmapFilesSucceedsIff | src/lib.rs:140-151 | the beatmap files can all be read exactly when every beatmap of every set names a readable file |
| Songs.HasRequiredFields | src/lib.rs:158-164 | the seven required fields (definition, no contract): the four text fields `_songName`, `_version`, `_songAuthorName`, `_levelAuthorName` and the two file names `_songFilename`, `_coverImageFilename` are strings, and `_beatsPerMinute` is a u64 |
| Songs.SongFromInfoDat | src/lib.rs:129-133 | parse the info.dat text, or yield nothing when it does not parse, then continue with `SongFromInfo` (definition, no contract); its properties are `FromPathSucceedsIff` and `FromPathSuccess` |
| Songs.SongFromInfo | src/lib.rs:134-168 | specification of `from_path` after parsing (definition, no contract): sets decoded, beatmap files read in order, required fields taken, and the hash of the info.dat text followed by the file texts |
| Songs.SongAt | src/lib.rs:107-174 | specification of `from_path` (definition, no contract): list the folder, take the first info.dat, read it, parse it, continue with `SongFromInfo` |
| Songs.InfoDatPath | src/lib.rs:119 | the path of the first info.dat entry: the song folder joined with that entry's name, as `entry.path()` gives it (definition, no contract) |
| Songs.UnreadableSetRejects | src/lib.rs:143-151 | one unreadable beatmap file of any set makes the song's beatmap files unreadable |
| Songs.SongFromInfoSucceedsIff | src/lib.rs:134-168 | after parsing, a song results exactly when the sets are an array that all decode, every referenced file is readable and every required field has its type |
| Songs.FromPathSucceedsIff | src/lib.rs:107-174 | fail closed: a song results exactly when the folder can be listed, has an info.dat that is readable and parses, whose sets all decode, whose beatmap files are all readable, and which has every required field |
| Songs.FromPathSuccess | src/lib.rs:128-166 | a song holds the input path, each required field exactly as in the first info.dat (the tempo as the `_beatsPerMinute` u64), the sets decoded in order, and as level hash the hash of the info.dat text followed by every beatmap file's text in set, then beatmap, order |
| Songs.OnlyFirstInfoDat | src/lib.rs:114-168 | whatever follows the first info.dat in the listing, the result is what that one file yields |
| Songs.HashDataExtended | src/lib.rs:152 | appending one more set's file texts keeps the hash input equal to the info.dat text followed by every file read so far |
| Songs.AppendBeatmapFiles | src/lib.rs:140-153 | the inner loop succeeds exactly when the set's files are all readable, and then appends their texts in order to the hash input |
| Songs.LoadDifficultyBeatmapSets | src/lib.rs:134-155 | the outer loop succeeds exactly when every set decodes and every referenced file is readable; it then yields the decoded sets and the hash input extended by all their file texts |
| Songs.FromPath | src/lib.rs:107-174 | the loop over the listing with its early returns yields exactly the specification `SongAt` |
| Songs.SampleInfoSong | src/lib.rs:156-168 | a concrete info.dat with every required field and no sets yields the song with those fields, tempo 120, and the hash of the info.dat text alone |
| Songs.SampleSong | src/lib.rs:107-174 | the success side is reachable: a folder holding only a readable `Info.DAT` that parses to that info.dat yields a song with tempo 120 and the hash of its text |
| SongList.SongOf | src/lib.rs:199-207 | the song one listing item contributes (definition; its contract only spells out its if-then-else): a readable directory entry gives `SongAt` of its folder, anything else nothing; its properties are carried by `SongsInAt`, `SongsInSound` and `SongListFolders` |
| SongList.SongsIn | src/lib.rs:198-209 | at most one song per listing entry |
| SongList.SongListAt | src/lib.rs:191-211 | specification of `generate_song_list` (definition, no contract): nothing when the root cannot be listed, otherwise `SongsIn` over its listing |
| SongList.SongListBound | src/lib.rs:191-211 | no song when the root cannot be listed; otherwise at most as many songs as entries |
| SongList.SongsInAppend | src/lib.rs:198-209 | the songs of two listings one after the other are the songs of each, in that order |
| SongList.SongsInAt | src/lib.rs:198-209 | completeness and order: each entry puts its song, if any, after the songs of the entries before it and before those of the entries after it |
| SongList.SongsInSound | src/lib.rs:198-209 | every listed song is the song of some directory entry of the listing |
| SongList.SongListFolders | src/lib.rs:204-206 | every listed song was read from the sub-folder that one of the root's directory entries names |
| SongList.GenerateSongList | src/lib.rs:191-211 | the push loop, skipping unreadable entries, yields exactly the specification `SongListAt` |

## Left out

- `src/app.rs` and `src/main.rs`: the user interface, the file dialog, audio playback, logging and start-up. They are not part of this model.
- `Song::read_cover_image` (src/lib.rs:175-188): a plain file read with no logic of its own.
- SHA-1 and hex encoding inside `hash_string`: a foreign library. `hashString` is an uninterpreted parameter, so no property of the digest itself is stated.
- JSON parsing (`serde_json::from_str`): a foreign library. `parse` is an uninterpreted parameter.
- Bytes versus characters: the source hashes the UTF-8 bytes of the texts it read. The model hashes the concatenated texts. `read_to_string` succeeds only on valid UTF-8, and UTF-8 encoding of a concatenation is the concatenation of the encodings, so the two describe the same hash input.
- Paths: `PathBuf::push` of an absolute or multi-component file name replaces or extends the path in ways the model does not follow. A path is the folder given, or a folder joined with one entry name.
- Real file-system calls, symbolic links and the file-system state changing between calls: the file system is one fixed snapshot, given as data.
- JSON floating-point numbers are exact reals (`Float`). Only their rejection by `as_u64` matters here.
- Order of reads: the specification `SongAt` decodes every set before reading any beatmap file, whereas the method interleaves the two like the source. They agree because every failure gives `None` with no other effect, and the method is proved equal to `SongAt`.
- Entry names are strings of characters, whereas the source compares and pushes `OsString` names (src/lib.rs:116, 203). A name that is not valid UTF-8 cannot be written in the model. Such a name never matches `info.dat` in the source either. A sub-folder with such a name is scanned by the source like any other, but the model cannot describe that folder.
