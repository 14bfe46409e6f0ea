/** `generate_song_list`: every sub-folder of the song folder that yields a
    song, in listing order. */
module SongList {
  import opened Options
  import opened Json
  import opened Folder
  import opened Songs

  /** The song one listing item of `root` contributes: an entry that can be
      read, is a directory, and whose folder yields a song. */
  function SongOf(fs: FileSystem, root: Path, item: Option<Entry>,
    parse: string -> Option<Value>, hashString: string -> string): (r: Option<Song>)
    ensures r.Some? <==>
      item.Some? && item.value.kind == Directory &&
      SongAt(fs, Join(root, item.value.fileName), parse, hashString).Some?
    ensures r.Some? ==> r == SongAt(fs, Join(root, item.value.fileName), parse, hashString)
  {
    if item.Some? && item.value.kind == Directory then
      SongAt(fs, Join(root, item.value.fileName), parse, hashString)
    else None
  }

  /** The songs the listing items contribute, in listing order; each item
      contributes at most one. */
  function SongsIn(fs: FileSystem, root: Path, items: Listing,
    parse: string -> Option<Value>, hashString: string -> string): (songs: seq<Song>)
    ensures |songs| <= |items|
    decreases |items|
  {
    if items == [] then []
    else
      var earlier := SongsIn(fs, root, items[..|items| - 1], parse, hashString);
      match SongOf(fs, root, items[|items| - 1], parse, hashString)
      case None => earlier
      case Some(song) => earlier + [song]
  }

  /** Specification of `generate_song_list`: nothing when the song folder
      cannot be listed, and otherwise the songs its entries contribute. */
  function SongListAt(fs: FileSystem, root: Path,
    parse: string -> Option<Value>, hashString: string -> string): seq<Song>
  {
    match ReadDir(fs, root)
    case None => []
    case Some(items) => SongsIn(fs, root, items, parse, hashString)
  }

  /** The list is empty when the song folder cannot be listed, and otherwise
      holds at most one song per listed entry. */
  lemma SongListBound(fs: FileSystem, root: Path, parse: string -> Option<Value>, hashString: string -> string)
    ensures root !in fs.dirs ==> SongListAt(fs, root, parse, hashString) == []
    ensures root in fs.dirs ==> |SongListAt(fs, root, parse, hashString)| <= |fs.dirs[root]|
  {
  }

  lemma {:induction false} SongsInAppend(fs: FileSystem, root: Path, a: Listing, b: Listing,
    parse: string -> Option<Value>, hashString: string -> string)
    ensures SongsIn(fs, root, a + b, parse, hashString) ==
      SongsIn(fs, root, a, parse, hashString) + SongsIn(fs, root, b, parse, hashString)
    decreases |b|
  {
    if b == [] {
      assert a + b == a;
    } else {
      var init := b[..|b| - 1];
      assert (a + b)[..|a + b| - 1] == a + init;
      assert (a + b)[|a + b| - 1] == b[|b| - 1];
      SongsInAppend(fs, root, a, init, parse, hashString);
    }
  }

  /** Completeness and order: an entry whose folder yields a song puts exactly
      that song into the list, after the songs of the entries before it and
      before the songs of the entries after it. */
  lemma SongsInAt(fs: FileSystem, root: Path, items: Listing, j: nat,
    parse: string -> Option<Value>, hashString: string -> string)
    requires j < |items|
    ensures SongsIn(fs, root, items, parse, hashString) ==
      SongsIn(fs, root, items[..j], parse, hashString) +
      (match SongOf(fs, root, items[j], parse, hashString) case None => [] case Some(song) => [song]) +
      SongsIn(fs, root, items[j + 1..], parse, hashString)
  {
    assert items == items[..j] + [items[j]] + items[j + 1..];
    SongsInAppend(fs, root, items[..j] + [items[j]], items[j + 1..], parse, hashString);
    SongsInAppend(fs, root, items[..j], [items[j]], parse, hashString);
    assert [items[j]][..0] == [];
  }

  /** Soundness: every song of the list is the song of some directory entry of
      the listing, read from the folder that entry names. */
  lemma {:induction false} SongsInSound(fs: FileSystem, root: Path, items: Listing, n: nat,
    parse: string -> Option<Value>, hashString: string -> string)
    requires n < |SongsIn(fs, root, items, parse, hashString)|
    ensures exists j ::
      0 <= j < |items| && items[j].Some? && items[j].value.kind == Directory &&
      SongAt(fs, Join(root, items[j].value.fileName), parse, hashString) ==
        Some(SongsIn(fs, root, items, parse, hashString)[n])
    decreases |items|
  {
    var last := |items| - 1;
    var init := items[..last];
    var earlier := SongsIn(fs, root, init, parse, hashString);
    if n < |earlier| {
      SongsInSound(fs, root, init, n, parse, hashString);
      var j :| 0 <= j < |init| && init[j].Some? && init[j].value.kind == Directory &&
        SongAt(fs, Join(root, init[j].value.fileName), parse, hashString) == Some(earlier[n]);
      assert init[j] == items[j];
    } else {
      assert SongOf(fs, root, items[last], parse, hashString).Some?;
    }
  }

  /** Every song of the list was read from a sub-folder of the song folder,
      named by one of its directory entries. */
  lemma SongListFolders(fs: FileSystem, root: Path, n: nat,
    parse: string -> Option<Value>, hashString: string -> string)
    requires n < |SongListAt(fs, root, parse, hashString)|
    ensures root in fs.dirs
    ensures exists j ::
      0 <= j < |fs.dirs[root]| && fs.dirs[root][j].Some? &&
      fs.dirs[root][j].value.kind == Directory &&
      SongListAt(fs, root, parse, hashString)[n].songFolderPath == Join(root, fs.dirs[root][j].value.fileName)
  {
    var items := fs.dirs[root];
    var songs := SongListAt(fs, root, parse, hashString);
    SongsInSound(fs, root, items, n, parse, hashString);
    var j :| 0 <= j < |items| && items[j].Some? && items[j].value.kind == Directory &&
      SongAt(fs, Join(root, items[j].value.fileName), parse, hashString) == Some(songs[n]);
    FromPathSuccess(fs, Join(root, items[j].value.fileName), parse, hashString);
  }

  /** `generate_song_list`: list the song folder (nothing if that fails), skip
      entries that cannot be read, and keep the song of every directory entry
      whose folder yields one. */
  method GenerateSongList(fs: FileSystem, root: Path, parse: string -> Option<Value>, hashString: string -> string)
    returns (songList: seq<Song>)
    ensures songList == SongListAt(fs, root, parse, hashString)
  {
    songList := [];
    var songPathEntry := ReadDir(fs, root);
    if songPathEntry.None? {
      return songList;
    }
    var items := songPathEntry.value;
    var i := 0;
    while i < |items|
      invariant 0 <= i <= |items|
      invariant songList == SongsIn(fs, root, items[..i], parse, hashString)
    {
      assert items[..i + 1][..i] == items[..i];
      var entry := items[i];
      i := i + 1;
      if entry.None? {
        continue;
      }
      var songFolderPath := Join(root, entry.value.fileName);
      if entry.value.kind == Directory {
        var song := FromPath(fs, songFolderPath, parse, hashString);
        if song.Some? {
          songList := songList + [song.value];
        }
      }
    }
    assert items[..i] == items;
  }
}
