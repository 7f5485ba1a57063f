/** The playlist parser as it runs: cursors over the data, path buffers, and the caller's record. */
module PlaylistReader {
  import opened Wrappers
  import opened PathBuffer
  import opened PlaylistParser

  class Playlist {
    var entries: seq<string>

    constructor ()
      ensures entries == []
    {
      entries := [];
    }
  }

  /** Normalises into a fresh buffer of the fixed path capacity. */
  method Normalized(path: string) returns (r: Fallible<string>)
    ensures r == Normalized4K(path)
  {
    var buffer := new char[PATH_CAPACITY];
    var status, length := NormalizePath(path, buffer);
    match status {
      case PathOk => r := Ok(buffer[..length]);
      case PathUnsafe => r := Err(Unsafe);
      case PathLong => r := Err(TooLong);
    }
  }

  /** The scan for a scheme before the first slash. */
  method StartsScheme(path: string) returns (r: bool)
    requires path != ""
    ensures r == (IsLetter(path[0]) && SchemeFollows(path[1..]))
  {
    if !IsLetter(path[0]) {
      return false;
    }
    var cursor := 1;
    while cursor < |path|
      invariant 1 <= cursor <= |path|
      invariant SchemeFollows(path[cursor..]) == SchemeFollows(path[1..])
    {
      var c := path[cursor];
      assert path[cursor..][1..] == path[cursor + 1..];
      if c == ':' {
        return true;
      }
      if !(IsLetter(c) || '0' <= c <= '9' || c in "+-.") {
        return false;
      }
      cursor := cursor + 1;
    }
    r := false;
  }

  /** The position after the last slash. */
  method FindLeaf(s: string) returns (k: nat)
    ensures k == LeafStart(s)
  {
    k := |s|;
    while k > 0 && s[k - 1] != '/'
      invariant k <= |s| && LeafStart(s[..k]) == LeafStart(s)
    {
      assert s[..k][..k - 1] == s[..k - 1];
      k := k - 1;
    }
  }

  method CheckLocal(path: string) returns (r: Fallible<()>)
    ensures r == LocalError(path)
  {
    if path == "" {
      return Err(InvalidArgument);
    }
    if |path| >= PATH_CAPACITY {
      return Err(TooLong);
    }
    var scheme := StartsScheme(path);
    if path[0] == '\\' || (path[0] == '/' && |path| > 1 && path[1] == '/') || scheme {
      return Err(Unsafe);
    }
    r := Ok(());
  }

  /** `playlist_directory`. */
  method PlaylistDirectory(path: string) returns (r: Fallible<string>)
    ensures r == Directory(path)
  {
    var local := CheckLocal(path);
    if local.Err? {
      return Err(local.error);
    }
    if path[|path| - 1] == '/' {
      return Err(InvalidArgument);
    }
    r := Normalized(path);
    if r.Err? {
      return;
    }
    var text := r.value;
    if text == "/" || text == "." || text == ".." || (text != "" && text[|text| - 1] == '/') {
      return Err(InvalidArgument);
    }
    var leaf := FindLeaf(text);
    r := Ok(if leaf == 0 then "." else if leaf == 1 then "/" else text[..leaf - 1]);
  }

  method ResolveEntry(directory: string, entry: string) returns (r: Fallible<string>)
    ensures r == Resolve(directory, entry)
  {
    var local := CheckLocal(entry);
    if local.Err? {
      return Err(local.error);
    }
    if entry[|entry| - 1] == '/' {
      return Err(InvalidArgument);
    }
    var k := FindLeaf(entry);
    if entry[k..] == "." || entry[k..] == ".." {
      return Err(InvalidArgument);
    }
    if entry[0] == '/' || directory == "." {
      r := Normalized(entry);
      return;
    }
    if |directory| + |entry| + 2 > PATH_CAPACITY {
      return Err(TooLong);
    }
    var separate := directory == "" || directory[|directory| - 1] != '/';
    r := Normalized(if separate then directory + "/" + entry else directory + entry);
  }

  /** Reads up to the end of a line, or to a NUL. */
  method FindLineEnd(data: string, from: nat) returns (position: nat)
    requires from <= |data|
    ensures from <= position <= |data| && position == from + LineLength(data[from..])
  {
    position := from;
    while position < |data| && !Stops(data[position])
      invariant from <= position <= |data|
      invariant position + LineLength(data[position..]) == from + LineLength(data[from..])
    {
      assert data[position..][1..] == data[position + 1..];
      position := position + 1;
    }
  }

  /** The bounds of a line without its surrounding blanks. */
  method TrimBounds(data: string, from: nat, to: nat) returns (start: nat, end: nat)
    requires from <= to <= |data|
    ensures from <= start <= end <= to && data[start..end] == TrimRight(TrimLeft(data[from..to]))
  {
    start, end := from, to;
    while start < end && IsSpace(data[start])
      invariant from <= start <= end == to
      invariant TrimLeft(data[start..to]) == TrimLeft(data[from..to])
    {
      assert data[start..to][1..] == data[start + 1..to];
      start := start + 1;
    }
    while end > start && IsSpace(data[end - 1])
      invariant start <= end <= to
      invariant TrimRight(data[start..end]) == TrimRight(data[start..to])
    {
      assert data[start..end][..end - start - 1] == data[start..end - 1];
      end := end - 1;
    }
  }

  /** Reads one line: its bounds without blanks and where the next line begins. */
  method ReadLine(data: string, position: nat) returns (broken: bool, line: string, next: nat)
    requires position < |data|
    ensures
      var k := LineLength(data[position..]);
      && broken == (k < |data[position..]| && data[position..][k] == NUL)
      && (!broken ==>
            && position < next <= |data|
            && line == TrimRight(TrimLeft(data[position..][..k]))
            && data[next..] == data[position..][k + TerminatorLength(data[position..][k..])..])
  {
    var stop := FindLineEnd(data, position);
    ghost var k := LineLength(data[position..]);
    broken := stop < |data| && data[stop] == NUL;
    line, next := "", position;
    if !broken {
      next := stop;
      if next < |data| && data[next] == '\r' {
        next := next + 1;
        if next < |data| && data[next] == '\n' {
          next := next + 1;
        }
      } else if next < |data| {
        next := next + 1;
      }
      var start, end := TrimBounds(data, position, stop);
      line := data[start..end];
      assert data[position..][..k] == data[position..stop];
      assert data[position..][k..] == data[stop..];
      assert next == stop + TerminatorLength(data[stop..]);
    }
  }

  method ReadEntries(directory: string, data: string, from: nat) returns (r: Fallible<seq<string>>)
    requires from <= |data|
    ensures r == ParseLines(directory, [], data[from..])
  {
    var position := from;
    var entries: seq<string> := [];
    while position < |data|
      invariant from <= position <= |data|
      invariant ParseLines(directory, entries, data[position..]) == ParseLines(directory, [], data[from..])
    {
      var broken, line, next := ReadLine(data, position);
      if broken {
        return Err(InvalidArgument);
      }
      if line != "" && line[0] != '#' {
        if |entries| >= ENTRY_COUNT {
          return Err(WrongEntryCount);
        }
        var resolved := ResolveEntry(directory, line);
        if resolved.Err? {
          return Err(resolved.error);
        }
        entries := entries + [resolved.value];
      }
      position := next;
    }
    r := if |entries| == ENTRY_COUNT then Ok(entries) else Err(WrongEntryCount);
  }

  /** `dualboy_playlist_parse`: the caller's record changes only on success. */
  method ParsePlaylist(path: string, data: string, playlist: Playlist) returns (r: Fallible<()>)
    modifies playlist
    ensures r.Ok? <==> Parse(path, data).Ok?
    ensures r.Ok? ==> playlist.entries == Parse(path, data).value && |playlist.entries| == ENTRY_COUNT
    ensures r.Err? ==> r.error == Parse(path, data).error && playlist.entries == old(playlist.entries)
  {
    var directory := PlaylistDirectory(path);
    if directory.Err? {
      return Err(directory.error);
    }
    if |data| > FILE_LIMIT {
      return Err(TooLarge);
    }
    var position := if |data| >= 3 && data[0] == MARK[0] && data[1] == MARK[1] && data[2] == MARK[2] then 3 else 0;
    assert position == 3 <==> |data| >= 3 && data[..3] == MARK;
    assert data[position..] == WithoutMark(data);
    var entries := ReadEntries(directory.value, data, position);
    if entries.Err? {
      return Err(entries.error);
    }
    EntryCount(directory.value, [], data[position..]);
    playlist.entries := entries.value;
    r := Ok(());
  }

  lemma EntryCount(directory: string, entries: seq<string>, data: string)
    requires ParseLines(directory, entries, data).Ok?
    ensures |ParseLines(directory, entries, data).value| == ENTRY_COUNT
    decreases |data|
  {
  }
}
