/** Two-entry playlists: one path per line, resolved against the playlist's own directory. */
module PlaylistParser {
  import opened Wrappers
  import opened PathNormalizer

  const PATH_CAPACITY: nat := 4096
  const FILE_LIMIT: nat := 0x1_0000
  const ENTRY_COUNT: nat := 2
  const NUL: char := '\0'
  /** The bytes of a UTF-8 byte order mark; every character stands for one byte. */
  const MARK: string := ['\U{EF}', '\U{BB}', '\U{BF}']

  datatype Error = InvalidArgument | TooLarge | WrongEntryCount | Unsafe | TooLong
  type Fallible<T> = Result<T, Error>

  predicate IsSpace(c: char) {
    c == ' ' || c == '\t' || c == '\U{0B}' || c == '\U{0C}'
  }

  predicate IsLetter(c: char) {
    'A' <= c <= 'Z' || 'a' <= c <= 'z'
  }

  /** What may follow the first letter of a scheme, up to the colon. */
  predicate SchemeFollows(s: string) {
    s != "" && (s[0] == ':' || ((IsLetter(s[0]) || '0' <= s[0] <= '9' || s[0] in "+-.") && SchemeFollows(s[1..])))
  }

  predicate Foreign(path: string)
    requires path != ""
  {
    || path[0] == '\\'
    || (path[0] == '/' && |path| > 1 && path[1] == '/')
    || (IsLetter(path[0]) && SchemeFollows(path[1..]))
  }

  function LocalError(path: string): (r: Fallible<()>) {
    if path == "" then Err(InvalidArgument)
    else if |path| >= PATH_CAPACITY then Err(TooLong)
    else if Foreign(path) then Err(Unsafe)
    else Ok(())
  }

  /** How much of a string precedes the part after its last slash. */
  function LeafStart(s: string): (k: nat)
    ensures k <= |s| && '/' !in s[k..] && (k > 0 ==> s[k - 1] == '/')
  {
    if s == "" then 0
    else if s[|s| - 1] == '/' then |s|
    else
      var k := LeafStart(s[..|s| - 1]);
      assert s[k..] == s[..|s| - 1][k..] + [s[|s| - 1]];
      k
  }

  function Normalized4K(s: string): Fallible<string> {
    match Normalize(s, PATH_CAPACITY)
    case Normalized(text) => Ok(text)
    case UnsafePath => Err(Unsafe)
    case PathTooLong => Err(TooLong)
  }

  /** The part of a normalised path before its last component. */
  function Parent(text: string): string {
    var k := LeafStart(text);
    if k == 0 then "." else if k == 1 then "/" else text[..k - 1]
  }

  function Directory(path: string): Fallible<string> {
    var local := LocalError(path);
    if local.Err? then Err(local.error)
    else if path[|path| - 1] == '/' then Err(InvalidArgument)
    else
      var n := Normalized4K(path);
      if n.Err? then n
      else if n.value == "/" || n.value == "." || n.value == ".." then Err(InvalidArgument)
      else if n.value != "" && n.value[|n.value| - 1] == '/' then Err(InvalidArgument)
      else Ok(Parent(n.value))
  }

  function Resolve(directory: string, entry: string): Fallible<string> {
    var local := LocalError(entry);
    if local.Err? then Err(local.error)
    else if entry[|entry| - 1] == '/' then Err(InvalidArgument)
    else
      var leaf := entry[LeafStart(entry)..];
      if leaf == "." || leaf == ".." then Err(InvalidArgument)
      else if Absolute(entry) || directory == "." then Normalized4K(entry)
      else if |directory| + |entry| + 2 > PATH_CAPACITY then Err(TooLong)
      else if directory == "" || directory[|directory| - 1] != '/' then Normalized4K(directory + "/" + entry)
      else Normalized4K(directory + entry)
  }

  // ---- Lines ----

  predicate Stops(c: char) {
    c == '\n' || c == '\r' || c == NUL
  }

  /** How many characters precede the end of the line, or a NUL. */
  function LineLength(s: string): (k: nat)
    ensures k <= |s| && (k < |s| ==> Stops(s[k])) && forall i :: 0 <= i < k ==> !Stops(s[i])
  {
    if s == "" || Stops(s[0]) then 0 else 1 + LineLength(s[1..])
  }

  /** How long the line terminator at the start of `s` is. */
  function TerminatorLength(s: string): (k: nat)
    ensures k <= |s| && (s != "" ==> k > 0)
  {
    if s == "" then 0 else if s[0] == '\r' && |s| > 1 && s[1] == '\n' then 2 else 1
  }

  function TrimLeft(s: string): string {
    if s != "" && IsSpace(s[0]) then TrimLeft(s[1..]) else s
  }

  function TrimRight(s: string): string {
    if s != "" && IsSpace(s[|s| - 1]) then TrimRight(s[..|s| - 1]) else s
  }

  /** The entries found so far, after one more trimmed line. */
  function AddLine(directory: string, entries: seq<string>, line: string): Fallible<seq<string>> {
    if line == "" || line[0] == '#' then Ok(entries)
    else if |entries| >= ENTRY_COUNT then Err(WrongEntryCount)
    else
      var r := Resolve(directory, line);
      if r.Ok? then Ok(entries + [r.value]) else Err(r.error)
  }

  function ParseLines(directory: string, entries: seq<string>, data: string): Fallible<seq<string>>
    decreases |data|
  {
    if data == "" then if |entries| == ENTRY_COUNT then Ok(entries) else Err(WrongEntryCount)
    else
      var k := LineLength(data);
      if k < |data| && data[k] == NUL then Err(InvalidArgument)
      else
        var rest := data[k + TerminatorLength(data[k..])..];
        var next := AddLine(directory, entries, TrimRight(TrimLeft(data[..k])));
        if next.Err? then next else ParseLines(directory, next.value, rest)
  }

  function WithoutMark(data: string): string {
    if |data| >= 3 && data[..3] == MARK then data[3..] else data
  }

  /** `dualboy_playlist_parse` as a function. */
  function Parse(path: string, data: string): Fallible<seq<string>> {
    var directory := Directory(path);
    if directory.Err? then Err(directory.error)
    else if |data| > FILE_LIMIT then Err(TooLarge)
    else ParseLines(directory.value, [], WithoutMark(data))
  }

  // ---- Where entries lead ----

  lemma LeafOf(x: string, c: string)
    requires '/' !in c
    ensures LeafStart(x + "/" + c) == |x| + 1
    decreases |c|
  {
    var s := x + "/" + c;
    if c != "" {
      assert s[..|s| - 1] == x + "/" + c[..|c| - 1];
      assert c[|c| - 1] in c;
      LeafOf(x, c[..|c| - 1]);
    }
  }

  lemma LeafOfName(c: string)
    requires '/' !in c
    ensures LeafStart(c) == 0
  {
    if c != "" {
      assert c[|c| - 1] in c;
      LeafOfName(c[..|c| - 1]);
    }
  }

  lemma SplitLeaf(x: string, c: string)
    requires '/' !in c
    ensures
      var s := x + "/" + c;
      s[LeafStart(s)..] == c && Parent(s) == if x == "" then "/" else x
  {
    LeafOf(x, c);
    assert (x + "/" + c)[..|x|] == x;
  }

  /** A rendered path as its front, a slash and its last component. */
  lemma RenderSplit(absolute: bool, cs: seq<string>)
    requires cs != [] && (absolute || |cs| > 1)
    ensures
      var x := if |cs| == 1 then "" else Render(absolute, cs[..|cs| - 1]);
      Render(absolute, cs) == x + "/" + cs[|cs| - 1]
  {
  }

  lemma LeafOfRender(absolute: bool, cs: seq<string>)
    requires cs != [] && Normal(absolute, cs)
    ensures
      var s := Render(absolute, cs);
      s[LeafStart(s)..] == cs[|cs| - 1]
      && Parent(s) == (if |cs| == 1 && !absolute then "." else Render(absolute, cs[..|cs| - 1]))
  {
    var front, last := cs[..|cs| - 1], cs[|cs| - 1];
    if !absolute && |cs| == 1 {
      LeafOfName(last);
      assert Render(absolute, cs) == last;
    } else {
      var x := if |cs| == 1 then "" else Render(absolute, front);
      RenderSplit(absolute, cs);
      SplitLeaf(x, last);
      RenderStart(absolute, front);
    }
  }

  function Origin(absolute: bool, cwd: seq<string>): Place {
    Inside(if absolute then [] else cwd)
  }

  lemma RenderMeaning(absolute: bool, cs: seq<string>, cwd: seq<string>)
    requires forall i :: 0 <= i < |cs| ==> IsComponent(cs[i])
    ensures Meaning(cwd, Render(absolute, cs)) == Walk(Origin(absolute, cwd), cs)
  {
    RenderStart(absolute, cs);
    ComponentsOfRender(absolute, cs);
  }

  lemma DotMeaning(cwd: seq<string>)
    ensures Meaning(cwd, ".") == Inside(cwd)
  {
    OneComponent(".");
    assert Walk(Inside(cwd), ["."]) == Inside(cwd);
  }

  lemma ExtendMeaning(absolute: bool, front: seq<string>, last: string, cwd: seq<string>)
    requires IsComponent(last) && forall i :: 0 <= i < |front| ==> IsComponent(front[i])
    ensures Enter(Meaning(cwd, Render(absolute, front)), last) == Meaning(cwd, Render(absolute, front + [last]))
  {
    RenderMeaning(absolute, front, cwd);
    RenderMeaning(absolute, front + [last], cwd);
    WalkOneMore(Origin(absolute, cwd), front, last);
  }

  lemma ParentPlace(absolute: bool, cs: seq<string>, cwd: seq<string>)
    requires cs != [] && Normal(absolute, cs)
    ensures Meaning(cwd, Parent(Render(absolute, cs))) == Meaning(cwd, Render(absolute, cs[..|cs| - 1]))
  {
    LeafOfRender(absolute, cs);
    if |cs| == 1 && !absolute {
      assert Render(absolute, cs[..|cs| - 1]) == "";
      DotMeaning(cwd);
    }
  }

  lemma ParentMeaning(absolute: bool, cs: seq<string>, cwd: seq<string>)
    requires cs != [] && Normal(absolute, cs)
    ensures Enter(Meaning(cwd, Parent(Render(absolute, cs))), cs[|cs| - 1]) == Meaning(cwd, Render(absolute, cs))
  {
    ParentPlace(absolute, cs, cwd);
    ExtendMeaning(absolute, cs[..|cs| - 1], cs[|cs| - 1], cwd);
    assert cs[..|cs| - 1] + [cs[|cs| - 1]] == cs;
  }

  /** The playlist's directory is where entering its last component gives the playlist. */
  lemma DirectoryMeaning(path: string, cwd: seq<string>)
    requires Directory(path).Ok?
    ensures
      var cs := Components(Normalize(path, PATH_CAPACITY).text);
      cs != [] && Enter(Meaning(cwd, Directory(path).value), cs[|cs| - 1]) == Meaning(cwd, path)
  {
    var text := Normalize(path, PATH_CAPACITY).text;
    ResultShape(path, PATH_CAPACITY);
    MeaningPreserved(path, PATH_CAPACITY, cwd);
    RenderStart(Absolute(path), Components(text));
    assert Render(true, []) == "/";
    ParentMeaning(Absolute(path), Components(text), cwd);
  }

  lemma SlashAbsorbed(directory: string, entry: string)
    requires directory != "" && directory[|directory| - 1] == '/'
    ensures Components(directory + entry) == Components(directory) + Components(entry)
  {
    var x := directory[..|directory| - 1];
    assert directory == x + "/" + "" && directory + entry == x + "/" + entry;
    ComponentsSplit(x, "");
    ComponentsSplit(x, entry);
  }

  /** A resolved entry leads where its own components lead from the playlist's directory. */
  lemma ResolveMeaning(directory: string, entry: string, cwd: seq<string>)
    requires Resolve(directory, entry).Ok? && directory != ""
    ensures Meaning(cwd, Resolve(directory, entry).value)
         == if Absolute(entry) then Meaning(cwd, entry) else Walk(Meaning(cwd, directory), Components(entry))
  {
    if Absolute(entry) || directory == "." {
      MeaningPreserved(entry, PATH_CAPACITY, cwd);
      OneComponent(".");
      assert Walk(Inside(cwd), ["."]) == Inside(cwd);
    } else {
      var slash := directory[|directory| - 1] == '/';
      var whole := if slash then directory + entry else directory + "/" + entry;
      MeaningPreserved(whole, PATH_CAPACITY, cwd);
      if slash { SlashAbsorbed(directory, entry); } else { ComponentsSplit(directory, entry); }
      assert Absolute(whole) == Absolute(directory);
      WalkAppend(Inside(if Absolute(directory) then [] else cwd), Components(directory), Components(entry));
    }
  }
}
