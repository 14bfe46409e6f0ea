/** The view of the filesystem that the indexer reads: directory listings and
    the text of the files it opens. A path missing from `dirs` cannot be
    listed (`fs::read_dir` fails); a path missing from `files` cannot be
    opened or read as text (`File::open` or `read_to_string` fails). */
module Folder {
  import opened Options

  /** What `Path::is_file` and `Path::is_dir` report for an entry; `Other`
      covers everything for which both are false. */
  datatype Kind = RegularFile | Directory | Other

  /** One directory entry: its file name and its kind. */
  datatype Entry = Entry(fileName: string, kind: Kind)

  /** A listing is the sequence the directory iterator yields, in order; an
      item that the iterator yields as an error is `None`. */
  type Listing = seq<Option<Entry>>

  /** A path: one given as is, or a path with one more name pushed onto it
      (`PathBuf::push`, also how `DirEntry::path` is formed). */
  datatype Path = Given(text: string) | Join(parent: Path, name: string)

  datatype FileSystem = FileSystem(dirs: map<Path, Listing>, files: map<Path, string>)

  /** `fs::read_dir` */
  function ReadDir(fs: FileSystem, path: Path): (r: Option<Listing>)
    ensures r.Some? <==> path in fs.dirs
  {
    if path in fs.dirs then Some(fs.dirs[path]) else None
  }

  /** `File::open` followed by `read_to_string`. */
  function ReadToString(files: map<Path, string>, path: Path): (r: Option<string>)
    ensures r.Some? <==> path in files
  {
    if path in files then Some(files[path]) else None
  }

  /** `u8::to_ascii_lowercase`, lifted to characters. */
  function ToAsciiLowercase(c: char): char
  {
    if 'A' <= c <= 'Z' then (c as int + 32) as char else c
  }

  /** `eq_ignore_ascii_case`: same length, and equal position by position once
      ASCII upper-case letters are lowered. */
  predicate EqIgnoreAsciiCase(a: string, b: string)
  {
    |a| == |b| && forall i :: 0 <= i < |a| ==> ToAsciiLowercase(a[i]) == ToAsciiLowercase(b[i])
  }

  /** An iterator item that `Song::from_path` processes: a regular file
      whose name is `info.dat` up to ASCII case. */
  predicate IsInfoDat(item: Option<Entry>)
  {
    item.Some? && item.value.kind == RegularFile && EqIgnoreAsciiCase(item.value.fileName, "info.dat")
  }

  /** A name matches `info.dat` exactly when it has its eight characters, each
      one either the same or, for a letter, its ASCII upper-case form: the
      letters may be in any case, and nothing else may differ. */
  lemma InfoDatNameRule(name: string)
    ensures EqIgnoreAsciiCase(name, "info.dat") <==>
      |name| == 8 &&
      forall i :: 0 <= i < 8 ==>
        name[i] == "info.dat"[i] || ('a' <= "info.dat"[i] <= 'z' && name[i] == ("info.dat"[i] as int - 32) as char)
  {
  }

  /** Examples of the rule: the case of the letters does not matter, but the
      kind of the entry, extra characters and the dot do. */
  lemma InfoDatNames()
    ensures IsInfoDat(Some(Entry("Info.dat", RegularFile)))
    ensures IsInfoDat(Some(Entry("INFO.DAT", RegularFile)))
    ensures !IsInfoDat(Some(Entry("info.dat", Directory)))
    ensures !IsInfoDat(Some(Entry("info.dat.bak", RegularFile)))
    ensures !IsInfoDat(Some(Entry("info_dat", RegularFile)))
  {
    assert ToAsciiLowercase("info_dat"[4]) != ToAsciiLowercase("info.dat"[4]);
  }
}
