/** `Song::from_path`: one song folder, its info.dat and the beatmap files it
    references, turned into a song record with its level hash. */
module Songs {
  import opened Options
  import opened Json
  import opened Beatmap
  import opened Folder

  /** The `Song` record; `songFolderPath` is the folder it was read from. */
  datatype Song = Song(
    songFolderPath: Path,
    songName: string,
    version: string,
    songAuthorName: string,
    levelAuthorName: string,
    beatsPerMinute: u64,
    songFilename: string,
    coverImageFilename: string,
    difficultyBeatmapSets: seq<DifficultyBeatmapSet>,
    levelHash: string)

  /** The position of the first listing item that is an info.dat file. */
  function FirstInfoDat(listing: Listing): (r: Option<nat>)
    ensures r.Some? ==> r.value < |listing| && IsInfoDat(listing[r.value])
    ensures forall j :: 0 <= j < |listing| && (r.None? || j < r.value) ==> !IsInfoDat(listing[j])
    decreases |listing|
  {
    if listing == [] then None
    else if IsInfoDat(listing[0]) then Some(0)
    else
      match FirstInfoDat(listing[1..])
      case None => None
      case Some(k) => Some(k + 1)
  }

  /** The beatmap file names of one set, in declaration order. */
  function FilenamesOf(s: DifficultyBeatmapSet): (names: seq<string>)
    ensures |names| == |s.difficultyBeatmaps|
    ensures forall m :: 0 <= m < |names| ==> names[m] == s.difficultyBeatmaps[m].beatmapFilename
  {
    seq(|s.difficultyBeatmaps|, m requires 0 <= m < |s.difficultyBeatmaps| => s.difficultyBeatmaps[m].beatmapFilename)
  }

  /** Every referenced beatmap file name: set after set, and within a set
      beatmap after beatmap. */
  function BeatmapFilenames(sets: seq<DifficultyBeatmapSet>): seq<string>
  {
    if sets == [] then [] else FilenamesOf(sets[0]) + BeatmapFilenames(sets[1..])
  }

  /** The texts one after another. */
  function Concat(texts: seq<string>): string
  {
    if texts == [] then [] else texts[0] + Concat(texts[1..])
  }

  /** The text of every named file of the song folder, if every one of them
      can be read. */
  function ReadBeatmapFiles(files: map<Path, string>, songPath: Path, names: seq<string>): (r: Option<seq<string>>)
    ensures r.Some? <==> forall i :: 0 <= i < |names| ==> Join(songPath, names[i]) in files
    ensures r.Some? ==>
      |r.value| == |names| && forall i :: 0 <= i < |names| ==> r.value[i] == files[Join(songPath, names[i])]
    decreases |names|
  {
    if names == [] then Some([])
    else
      match ReadToString(files, Join(songPath, names[0]))
      case None => None
      case Some(text) =>
        match ReadBeatmapFiles(files, songPath, names[1..])
        case None => None
        case Some(texts) => Some([text] + texts)
  }

  /** Every beatmap file that some set of `sets` references can be read. */
  predicate AllBeatmapFilesReadable(files: map<Path, string>, songPath: Path, sets: seq<DifficultyBeatmapSet>)
  {
    forall k, m :: 0 <= k < |sets| && 0 <= m < |sets[k].difficultyBeatmaps| ==>
      Join(songPath, sets[k].difficultyBeatmaps[m].beatmapFilename) in files
  }

  /** The top-level fields of info.dat that `from_path` requires, each of the right type. */
  predicate HasRequiredFields(info: Value)
  {
    Get(info, "_songName").Str? &&
    Get(info, "_version").Str? &&
    Get(info, "_songAuthorName").Str? &&
    Get(info, "_levelAuthorName").Str? &&
    AsU64(Get(info, "_beatsPerMinute")).Some? &&
    Get(info, "_songFilename").Str? &&
    Get(info, "_coverImageFilename").Str?
  }

  /** What the folder `songPath` yields once its info.dat has been read as `text`. */
  function SongFromInfoDat(
    files: map<Path, string>, songPath: Path, text: string,
    parse: string -> Option<Value>, hashString: string -> string): Option<Song>
  {
    match parse(text)
    case None => None
    case Some(info) => SongFromInfo(files, songPath, text, info, hashString)
  }

  /** What the folder `songPath` yields once its info.dat text has been parsed as `info`. */
  function SongFromInfo(
    files: map<Path, string>, songPath: Path, text: string, info: Value, hashString: string -> string): Option<Song>
  {
    match AsArray(Get(info, "_difficultyBeatmapSets"))
    case None => None
    case Some(setValues) =>
      match MapAll(DifficultyBeatmapSetOf, setValues)
      case None => None
      case Some(sets) =>
        match ReadBeatmapFiles(files, songPath, BeatmapFilenames(sets))
        case None => None
        case Some(texts) =>
          if !HasRequiredFields(info) then None
          else Some(Song(
            songPath,
            Get(info, "_songName").s,
            Get(info, "_version").s,
            Get(info, "_songAuthorName").s,
            Get(info, "_levelAuthorName").s,
            AsU64(Get(info, "_beatsPerMinute")).value,
            Get(info, "_songFilename").s,
            Get(info, "_coverImageFilename").s,
            sets,
            hashString(text + Concat(texts))))
  }

  /** `SongFromInfoDat` when every step succeeds. */
  lemma SongFromInfoDatSucceeds(
    files: map<Path, string>, songPath: Path, text: string,
    parse: string -> Option<Value>, hashString: string -> string,
    info: Value, sets: seq<DifficultyBeatmapSet>, hashData: string)
    requires parse(text) == Some(info)
    requires Get(info, "_difficultyBeatmapSets").Array?
    requires MapAll(DifficultyBeatmapSetOf, Get(info, "_difficultyBeatmapSets").items) == Some(sets)
    requires ReadBeatmapFiles(files, songPath, BeatmapFilenames(sets)).Some?
    requires hashData == text + Concat(ReadBeatmapFiles(files, songPath, BeatmapFilenames(sets)).value)
    requires HasRequiredFields(info)
    ensures SongFromInfoDat(files, songPath, text, parse, hashString) == Some(Song(
      songPath,
      Get(info, "_songName").s,
      Get(info, "_version").s,
      Get(info, "_songAuthorName").s,
      Get(info, "_levelAuthorName").s,
      AsU64(Get(info, "_beatsPerMinute")).value,
      Get(info, "_songFilename").s,
      Get(info, "_coverImageFilename").s,
      sets,
      hashString(hashData)))
  {
  }

  /** The path of the info.dat file of a listing that has one. */
  function InfoDatPath(songPath: Path, listing: Listing): Path
    requires FirstInfoDat(listing).Some?
  {
    Join(songPath, listing[FirstInfoDat(listing).value].value.fileName)
  }

  /** Specification of `Song::from_path`: only the first info.dat of the
      listing is read, and what it yields is the result. */
  function SongAt(fs: FileSystem, songPath: Path, parse: string -> Option<Value>, hashString: string -> string): Option<Song>
  {
    match ReadDir(fs, songPath)
    case None => None
    case Some(listing) =>
      if FirstInfoDat(listing).None? then None
      else
        match ReadToString(fs.files, InfoDatPath(songPath, listing))
        case None => None
        case Some(text) => SongFromInfoDat(fs.files, songPath, text, parse, hashString)
  }

  lemma {:induction false} ConcatSnoc(texts: seq<string>, t: string)
    ensures Concat(texts + [t]) == Concat(texts) + t
    decreases |texts|
  {
    if texts == [] {
      assert Concat([t]) == t + Concat([]);
    } else {
      assert (texts + [t])[1..] == texts[1..] + [t];
      ConcatSnoc(texts[1..], t);
    }
  }

  lemma {:induction false} BeatmapFilenamesAppend(a: seq<DifficultyBeatmapSet>, b: seq<DifficultyBeatmapSet>)
    ensures BeatmapFilenames(a + b) == BeatmapFilenames(a) + BeatmapFilenames(b)
    decreases |a|
  {
    if a == [] {
      assert a + b == b;
    } else {
      assert (a + b)[1..] == a[1..] + b;
      BeatmapFilenamesAppend(a[1..], b);
    }
  }

  /** The hash input order: the file name of beatmap `m` of set `k` comes right
      after the file names of all the sets before `k` and of the beatmaps
      before `m` in set `k`. */
  lemma BeatmapFilenamesAt(sets: seq<DifficultyBeatmapSet>, k: nat, m: nat)
    requires k < |sets| && m < |sets[k].difficultyBeatmaps|
    ensures |BeatmapFilenames(sets[..k])| + m < |BeatmapFilenames(sets)|
    ensures BeatmapFilenames(sets)[|BeatmapFilenames(sets[..k])| + m] == sets[k].difficultyBeatmaps[m].beatmapFilename
  {
    assert sets[..k] + sets[k..] == sets;
    BeatmapFilenamesAppend(sets[..k], sets[k..]);
    assert sets[k..][1..] == sets[k + 1..];
    assert BeatmapFilenames(sets[k..]) == FilenamesOf(sets[k]) + BeatmapFilenames(sets[k + 1..]);
  }

  /** Conversely, every referenced file name is that of some beatmap of some set. */
  lemma {:induction false} BeatmapFilenamesFrom(sets: seq<DifficultyBeatmapSet>, i: nat)
    requires i < |BeatmapFilenames(sets)|
    ensures exists k, m ::
      0 <= k < |sets| && 0 <= m < |sets[k].difficultyBeatmaps| &&
      BeatmapFilenames(sets)[i] == sets[k].difficultyBeatmaps[m].beatmapFilename
    decreases |sets|
  {
    var head := FilenamesOf(sets[0]);
    if i < |head| {
      assert BeatmapFilenames(sets)[i] == sets[0].difficultyBeatmaps[i].beatmapFilename;
    } else {
      BeatmapFilenamesFrom(sets[1..], i - |head|);
      var k, m :| 0 <= k < |sets[1..]| && 0 <= m < |sets[1..][k].difficultyBeatmaps| &&
        BeatmapFilenames(sets[1..])[i - |head|] == sets[1..][k].difficultyBeatmaps[m].beatmapFilename;
      assert BeatmapFilenames(sets)[i] == sets[k + 1].difficultyBeatmaps[m].beatmapFilename;
    }
  }

  /** The beatmap files of a song can all be read exactly when every beatmap
      of every set names a readable file. */
  lemma ReadBeatmapFilesSucceedsIff(files: map<Path, string>, songPath: Path, sets: seq<DifficultyBeatmapSet>)
    ensures ReadBeatmapFiles(files, songPath, BeatmapFilenames(sets)).Some? <==>
      AllBeatmapFilesReadable(files, songPath, sets)
  {
    var names := BeatmapFilenames(sets);
    if AllBeatmapFilesReadable(files, songPath, sets) {
      forall i | 0 <= i < |names|
        ensures Join(songPath, names[i]) in files
      {
        BeatmapFilenamesFrom(sets, i);
      }
    } else {
      var k, m :| 0 <= k < |sets| && 0 <= m < |sets[k].difficultyBeatmaps| &&
        Join(songPath, sets[k].difficultyBeatmaps[m].beatmapFilename) !in files;
      BeatmapFilenamesAt(sets, k, m);
    }
  }

  /** Once info.dat has been parsed, the folder yields a song exactly when its
      `_difficultyBeatmapSets` is an array of sets that all decode, whose
      referenced beatmap files can all be read, and it has every required
      top-level field. */
  lemma SongFromInfoSucceedsIff(
    files: map<Path, string>, songPath: Path, text: string, info: Value, hashString: string -> string)
    ensures SongFromInfo(files, songPath, text, info, hashString).Some? <==>
      Get(info, "_difficultyBeatmapSets").Array? &&
      var setValues := Get(info, "_difficultyBeatmapSets").items;
      (forall k :: 0 <= k < |setValues| ==> DifficultyBeatmapSetOf(setValues[k]).Some?) &&
      AllBeatmapFilesReadable(files, songPath, MapAll(DifficultyBeatmapSetOf, setValues).value) &&
      HasRequiredFields(info)
  {
    var r := SongFromInfo(files, songPath, text, info, hashString);
    if Get(info, "_difficultyBeatmapSets").Array? {
      var sets := MapAll(DifficultyBeatmapSetOf, Get(info, "_difficultyBeatmapSets").items);
      if sets.Some? {
        ReadBeatmapFilesSucceedsIff(files, songPath, sets.value);
        var texts := ReadBeatmapFiles(files, songPath, BeatmapFilenames(sets.value));
        if texts.Some? {
          assert r.Some? <==> HasRequiredFields(info);
        } else {
          assert r.None?;
        }
      } else {
        assert r.None?;
      }
    } else {
      assert r.None?;
    }
  }

  /** `from_path` fails closed: the folder yields a song exactly when it can be
      listed, has an info.dat file that can be read and parsed, whose
      `_difficultyBeatmapSets` is an array of sets that all decode, whose
      referenced beatmap files can all be read, and that has every required
      top-level field. */
  lemma FromPathSucceedsIff(fs: FileSystem, songPath: Path, parse: string -> Option<Value>, hashString: string -> string)
    ensures SongAt(fs, songPath, parse, hashString).Some? <==>
      songPath in fs.dirs &&
      FirstInfoDat(fs.dirs[songPath]).Some? &&
      InfoDatPath(songPath, fs.dirs[songPath]) in fs.files &&
      parse(fs.files[InfoDatPath(songPath, fs.dirs[songPath])]).Some? &&
      var info := parse(fs.files[InfoDatPath(songPath, fs.dirs[songPath])]).value;
      Get(info, "_difficultyBeatmapSets").Array? &&
      var setValues := Get(info, "_difficultyBeatmapSets").items;
      (forall k :: 0 <= k < |setValues| ==> DifficultyBeatmapSetOf(setValues[k]).Some?) &&
      AllBeatmapFilesReadable(fs.files, songPath, MapAll(DifficultyBeatmapSetOf, setValues).value) &&
      HasRequiredFields(info)
  {
    if songPath in fs.dirs && FirstInfoDat(fs.dirs[songPath]).Some? {
      var infoPath := InfoDatPath(songPath, fs.dirs[songPath]);
      if infoPath in fs.files && parse(fs.files[infoPath]).Some? {
        SongFromInfoSucceedsIff(fs.files, songPath, fs.files[infoPath], parse(fs.files[infoPath]).value, hashString);
      }
    }
  }

  /** A song that `from_path` yields carries the folder path it was asked for,
      the required fields of the first info.dat exactly as declared there
      (the tempo as the `_beatsPerMinute` u64), the decoded sets in declaration
      order, and as level hash the hash of the info.dat text followed by the
      text of every referenced beatmap file in set order and then beatmap order. */
  lemma FromPathSuccess(fs: FileSystem, songPath: Path, parse: string -> Option<Value>, hashString: string -> string)
    requires SongAt(fs, songPath, parse, hashString).Some?
    ensures songPath in fs.dirs && FirstInfoDat(fs.dirs[songPath]).Some?
    ensures InfoDatPath(songPath, fs.dirs[songPath]) in fs.files
    ensures
      var song := SongAt(fs, songPath, parse, hashString).value;
      var text := fs.files[InfoDatPath(songPath, fs.dirs[songPath])];
      parse(text).Some? &&
      var info := parse(text).value;
      song.songFolderPath == songPath &&
      Get(info, "_songName") == Str(song.songName) &&
      Get(info, "_version") == Str(song.version) &&
      Get(info, "_songAuthorName") == Str(song.songAuthorName) &&
      Get(info, "_levelAuthorName") == Str(song.levelAuthorName) &&
      Get(info, "_beatsPerMinute") == Number(song.beatsPerMinute as int) &&
      Get(info, "_songFilename") == Str(song.songFilename) &&
      Get(info, "_coverImageFilename") == Str(song.coverImageFilename) &&
      Get(info, "_difficultyBeatmapSets").Array? &&
      |Get(info, "_difficultyBeatmapSets").items| == |song.difficultyBeatmapSets| &&
      (forall k :: 0 <= k < |song.difficultyBeatmapSets| ==>
        DifficultyBeatmapSetOf(Get(info, "_difficultyBeatmapSets").items[k]) == Some(song.difficultyBeatmapSets[k])) &&
      var names := BeatmapFilenames(song.difficultyBeatmapSets);
      (forall i :: 0 <= i < |names| ==> Join(songPath, names[i]) in fs.files) &&
      song.levelHash == hashString(text + Concat(seq(|names|, i requires 0 <= i < |names| => fs.files[Join(songPath, names[i])])))
  {
    var listing := fs.dirs[songPath];
    var text := fs.files[InfoDatPath(songPath, listing)];
    var info := parse(text).value;
    var sets := MapAll(DifficultyBeatmapSetOf, Get(info, "_difficultyBeatmapSets").items).value;
    var names := BeatmapFilenames(sets);
    var texts := ReadBeatmapFiles(fs.files, songPath, names).value;
    assert texts == seq(|names|, i requires 0 <= i < |names| => fs.files[Join(songPath, names[i])]);
  }

  /** Only the first info.dat of the listing is ever considered: whatever comes
      after it in the listing, the result is what that one file yields, be it a
      song or nothing. */
  lemma OnlyFirstInfoDat(
    fs: FileSystem, songPath: Path, parse: string -> Option<Value>, hashString: string -> string,
    before: Listing, infoDat: Entry, after: Listing)
    requires forall j :: 0 <= j < |before| ==> !IsInfoDat(before[j])
    requires IsInfoDat(Some(infoDat))
    ensures
      var fs' := fs.(dirs := fs.dirs[songPath := before + [Some(infoDat)] + after]);
      SongAt(fs', songPath, parse, hashString) ==
        match ReadToString(fs.files, Join(songPath, infoDat.fileName))
        case None => None
        case Some(text) => SongFromInfoDat(fs.files, songPath, text, parse, hashString)
  {
    var listing := before + [Some(infoDat)] + after;
    assert listing[|before|] == Some(infoDat);
    assert forall j :: 0 <= j < |before| ==> listing[j] == before[j];
    assert FirstInfoDat(listing) == Some(|before|);
  }

  lemma {:induction false} ConcatAppend(a: seq<string>, b: seq<string>)
    ensures Concat(a + b) == Concat(a) + Concat(b)
    decreases |a|
  {
    if a == [] {
      assert a + b == b;
    } else {
      assert (a + b)[1..] == a[1..] + b;
      ConcatAppend(a[1..], b);
    }
  }

  lemma ReadBeatmapFilesAppend(files: map<Path, string>, songPath: Path, a: seq<string>, b: seq<string>)
    requires ReadBeatmapFiles(files, songPath, a).Some? && ReadBeatmapFiles(files, songPath, b).Some?
    ensures ReadBeatmapFiles(files, songPath, a + b) ==
      Some(ReadBeatmapFiles(files, songPath, a).value + ReadBeatmapFiles(files, songPath, b).value)
  {
    var ra := ReadBeatmapFiles(files, songPath, a).value;
    var rb := ReadBeatmapFiles(files, songPath, b).value;
    var r := ReadBeatmapFiles(files, songPath, a + b);
    assert forall i :: 0 <= i < |a + b| ==> Join(songPath, (a + b)[i]) in files by {
      forall i | 0 <= i < |a + b| ensures Join(songPath, (a + b)[i]) in files {
        if i < |a| { assert (a + b)[i] == a[i]; } else { assert (a + b)[i] == b[i - |a|]; }
      }
    }
    assert r.Some?;
    forall i | 0 <= i < |a + b| ensures r.value[i] == (ra + rb)[i] {
      if i < |a| { assert (a + b)[i] == a[i]; } else { assert (a + b)[i] == b[i - |a|]; }
    }
    assert r.value == ra + rb;
  }

  /** Reading one more file of a prefix that can be read appends its text. */
  lemma ReadBeatmapFilesPrefix(files: map<Path, string>, songPath: Path, names: seq<string>, m: nat)
    requires m < |names| && ReadBeatmapFiles(files, songPath, names[..m]).Some?
    requires Join(songPath, names[m]) in files
    ensures ReadBeatmapFiles(files, songPath, names[..m + 1]) ==
      Some(ReadBeatmapFiles(files, songPath, names[..m]).value + [files[Join(songPath, names[m])]])
  {
    var longer := names[..m + 1];
    var texts := ReadBeatmapFiles(files, songPath, names[..m]).value + [files[Join(songPath, names[m])]];
    assert forall i :: 0 <= i < |longer| ==> Join(songPath, longer[i]) in files by {
      forall i | 0 <= i < |longer| ensures Join(songPath, longer[i]) in files {
        if i < m { assert longer[i] == names[..m][i]; }
      }
    }
    var r := ReadBeatmapFiles(files, songPath, longer);
    forall i | 0 <= i < |longer| ensures r.value[i] == texts[i] {
      if i < m { assert longer[i] == names[..m][i]; }
    }
    assert r.value == texts;
  }

  /** The inner loop of `from_path` over the beatmaps of one set: append the
      text of each beatmap file to the hash input, giving up at the first file
      that cannot be read. */
  method AppendBeatmapFiles(files: map<Path, string>, songPath: Path, data: DifficultyBeatmapSet, hashData: string)
    returns (ok: bool, newHashData: string)
    ensures ok <==> ReadBeatmapFiles(files, songPath, FilenamesOf(data)).Some?
    ensures ok ==> newHashData == hashData + Concat(ReadBeatmapFiles(files, songPath, FilenamesOf(data)).value)
  {
    var beatmaps := data.difficultyBeatmaps;
    ghost var names := FilenamesOf(data);
    newHashData := hashData;
    var m := 0;
    while m < |beatmaps|
      invariant 0 <= m <= |beatmaps|
      invariant ReadBeatmapFiles(files, songPath, names[..m]).Some?
      invariant newHashData == hashData + Concat(ReadBeatmapFiles(files, songPath, names[..m]).value)
    {
      var buffer := ReadToString(files, Join(songPath, beatmaps[m].beatmapFilename));
      if buffer.None? {
        assert Join(songPath, names[m]) !in files;
        return false, newHashData;
      }
      ReadBeatmapFilesPrefix(files, songPath, names, m);
      ConcatSnoc(ReadBeatmapFiles(files, songPath, names[..m]).value, buffer.value);
      newHashData := newHashData + buffer.value;
      m := m + 1;
    }
    assert names[..m] == names;
    return true, newHashData;
  }

  /** A set one of whose beatmap files cannot be read leaves the song without
      its beatmap files. */
  lemma UnreadableSetRejects(files: map<Path, string>, songPath: Path, sets: seq<DifficultyBeatmapSet>, k: nat)
    requires k < |sets| && ReadBeatmapFiles(files, songPath, FilenamesOf(sets[k])).None?
    ensures ReadBeatmapFiles(files, songPath, BeatmapFilenames(sets)).None?
  {
    var m :| 0 <= m < |sets[k].difficultyBeatmaps| && Join(songPath, FilenamesOf(sets[k])[m]) !in files;
    BeatmapFilenamesAt(sets, k, m);
    var i := |BeatmapFilenames(sets[..k])| + m;
    assert Join(songPath, BeatmapFilenames(sets)[i]) !in files;
  }

  /** One more set whose files were read extends the hash input by their texts. */
  lemma HashDataExtended(
    files: map<Path, string>, songPath: Path, sets: seq<DifficultyBeatmapSet>, data: DifficultyBeatmapSet,
    hashData: string, before: string, after: string)
    requires ReadBeatmapFiles(files, songPath, BeatmapFilenames(sets)).Some?
    requires before == hashData + Concat(ReadBeatmapFiles(files, songPath, BeatmapFilenames(sets)).value)
    requires ReadBeatmapFiles(files, songPath, FilenamesOf(data)).Some?
    requires after == before + Concat(ReadBeatmapFiles(files, songPath, FilenamesOf(data)).value)
    ensures ReadBeatmapFiles(files, songPath, BeatmapFilenames(sets + [data])).Some?
    ensures after == hashData + Concat(ReadBeatmapFiles(files, songPath, BeatmapFilenames(sets + [data])).value)
  {
    BeatmapFilenamesAppend(sets, [data]);
    assert BeatmapFilenames([data]) == FilenamesOf(data) + BeatmapFilenames([]);
    assert FilenamesOf(data) + BeatmapFilenames([]) == FilenamesOf(data);
    var names := BeatmapFilenames(sets + [data]);
    assert names == BeatmapFilenames(sets) + FilenamesOf(data);
    var earlier := ReadBeatmapFiles(files, songPath, BeatmapFilenames(sets)).value;
    var added := ReadBeatmapFiles(files, songPath, FilenamesOf(data)).value;
    ReadBeatmapFilesAppend(files, songPath, BeatmapFilenames(sets), FilenamesOf(data));
    ConcatAppend(earlier, added);
    assert after == hashData + (Concat(earlier) + Concat(added));
  }

  /** The outer loop of `from_path` over the difficulty sets of info.dat:
      decode a set, append the text of its beatmap files to the hash input,
      keep the set; a set that does not decode or a file that cannot be read
      ends it with nothing. */
  method LoadDifficultyBeatmapSets(files: map<Path, string>, songPath: Path, setValues: seq<Value>, hashData: string)
    returns (sets: Option<seq<DifficultyBeatmapSet>>, newHashData: string)
    ensures sets.Some? <==>
      MapAll(DifficultyBeatmapSetOf, setValues).Some? &&
      ReadBeatmapFiles(files, songPath, BeatmapFilenames(MapAll(DifficultyBeatmapSetOf, setValues).value)).Some?
    ensures sets.Some? ==>
      sets == MapAll(DifficultyBeatmapSetOf, setValues) &&
      newHashData == hashData + Concat(ReadBeatmapFiles(files, songPath, BeatmapFilenames(sets.value)).value)
  {
    var difficultyBeatmapSets: seq<DifficultyBeatmapSet> := [];
    newHashData := hashData;
    var k := 0;
    while k < |setValues|
      invariant 0 <= k <= |setValues|
      invariant MapAll(DifficultyBeatmapSetOf, setValues[..k]) == Some(difficultyBeatmapSets)
      invariant ReadBeatmapFiles(files, songPath, BeatmapFilenames(difficultyBeatmapSets)).Some?
      invariant newHashData ==
        hashData + Concat(ReadBeatmapFiles(files, songPath, BeatmapFilenames(difficultyBeatmapSets)).value)
    {
      var data := NewDifficultyBeatmapSet(setValues[k]);
      if data.None? {
        return None, newHashData;
      }
      var ok, appended := AppendBeatmapFiles(files, songPath, data.value, newHashData);
      if !ok {
        ghost var all := MapAll(DifficultyBeatmapSetOf, setValues);
        if all.Some? {
          UnreadableSetRejects(files, songPath, all.value, k);
        }
        return None, newHashData;
      }
      HashDataExtended(files, songPath, difficultyBeatmapSets, data.value, hashData, newHashData, appended);
      MapAllPrefix(DifficultyBeatmapSetOf, setValues, k);
      newHashData := appended;
      difficultyBeatmapSets := difficultyBeatmapSets + [data.value];
      k := k + 1;
    }
    assert setValues[..k] == setValues;
    return Some(difficultyBeatmapSets), newHashData;
  }

  /** `Song::from_path`: walk the listing, and at the first info.dat read it,
      parse it, load its sets while growing the hash input, take the required
      fields and return; without an info.dat there is no song. */
  method FromPath(fs: FileSystem, songPath: Path, parse: string -> Option<Value>, hashString: string -> string)
    returns (r: Option<Song>)
    ensures r == SongAt(fs, songPath, parse, hashString)
  {
    var fileList := ReadDir(fs, songPath);
    if fileList.None? {
      return None;
    }
    var listing := fileList.value;
    var hashData: string := [];
    var i := 0;
    while i < |listing|
      invariant 0 <= i <= |listing|
      invariant forall j :: 0 <= j < i ==> !IsInfoDat(listing[j])
      invariant hashData == []
    {
      var entry := listing[i];
      if entry.Some? && entry.value.kind == RegularFile && EqIgnoreAsciiCase(entry.value.fileName, "info.dat") {
        assert FirstInfoDat(listing) == Some(i);
        var infodatFile := ReadToString(fs.files, Join(songPath, entry.value.fileName));
        if infodatFile.None? {
          return None;
        }
        var buffer := infodatFile.value;
        hashData := hashData + buffer;
        assert hashData == buffer;
        var infodat := parse(buffer);
        if infodat.None? {
          return None;
        }
        var info := infodat.value;
        var setValues := AsArray(Get(info, "_difficultyBeatmapSets"));
        if setValues.None? {
          return None;
        }
        var difficultyBeatmapSets, newHashData := LoadDifficultyBeatmapSets(fs.files, songPath, setValues.value, hashData);
        if difficultyBeatmapSets.None? {
          return None;
        }
        hashData := newHashData;
        var songName := AsStr(Get(info, "_songName"));
        if songName.None? {
          return None;
        }
        var version := AsStr(Get(info, "_version"));
        if version.None? {
          return None;
        }
        var songAuthorName := AsStr(Get(info, "_songAuthorName"));
        if songAuthorName.None? {
          return None;
        }
        var levelAuthorName := AsStr(Get(info, "_levelAuthorName"));
        if levelAuthorName.None? {
          return None;
        }
        var beatsPerMinute := AsU64(Get(info, "_beatsPerMinute"));
        if beatsPerMinute.None? {
          return None;
        }
        var songFilename := AsStr(Get(info, "_songFilename"));
        if songFilename.None? {
          return None;
        }
        var coverImageFilename := AsStr(Get(info, "_coverImageFilename"));
        if coverImageFilename.None? {
          return None;
        }
        SongFromInfoDatSucceeds(fs.files, songPath, buffer, parse, hashString, info, difficultyBeatmapSets.value, hashData);
        return Some(Song(
          songPath,
          songName.value,
          version.value,
          songAuthorName.value,
          levelAuthorName.value,
          beatsPerMinute.value,
          songFilename.value,
          coverImageFilename.value,
          difficultyBeatmapSets.value,
          hashString(hashData)));
      }
      i := i + 1;
    }
    return None;
  }

  /** An info.dat with every required field and no difficulty sets. */
  const SampleInfo: Value := Object(map[
    "_songName" := Str("Song"),
    "_version" := Str("2.0.0"),
    "_songAuthorName" := Str("Artist"),
    "_levelAuthorName" := Str("Mapper"),
    "_beatsPerMinute" := Number(120),
    "_songFilename" := Str("song.egg"),
    "_coverImageFilename" := Str("cover.jpg"),
    "_difficultyBeatmapSets" := Array([])])

  /** `SampleInfo` yields a song whatever the folder, hashed over the info.dat text alone. */
  lemma SampleInfoSong(files: map<Path, string>, p: Path, text: string, hashString: string -> string)
    ensures SongFromInfo(files, p, text, SampleInfo, hashString) ==
      Some(Song(p, "Song", "2.0.0", "Artist", "Mapper", 120, "song.egg", "cover.jpg", [], hashString(text)))
  {
    assert AsArray(Get(SampleInfo, "_difficultyBeatmapSets")) == Some([]);
    assert ReadBeatmapFiles(files, p, []) == Some([]);
    assert text + Concat([]) == text;
  }

  /** A folder whose only entry is a readable `Info.DAT` that parses to
      `SampleInfo` yields a song with tempo 120, hashed over that text alone. */
  lemma SampleSong(text: string, hashString: string -> string)
    ensures
      var p := Given("Song");
      var fs := FileSystem(map[p := [Some(Entry("Info.DAT", RegularFile))]], map[Join(p, "Info.DAT") := text]);
      var parse := (t: string) => if t == text then Some(SampleInfo) else None;
      var song := SongAt(fs, p, parse, hashString);
      song.Some? && song.value.songFolderPath == p && song.value.beatsPerMinute == 120 &&
      song.value.difficultyBeatmapSets == [] && song.value.levelHash == hashString(text)
  {
    var p := Given("Song");
    var fs := FileSystem(map[p := [Some(Entry("Info.DAT", RegularFile))]], map[Join(p, "Info.DAT") := text]);
    InfoDatNameRule("Info.DAT");
    assert FirstInfoDat(fs.dirs[p]) == Some(0);
    SampleInfoSong(fs.files, p, text, hashString);
  }
}
