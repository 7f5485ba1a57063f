/** Writing playlists and reading them back. */
module PlaylistRoundTrip {
  import opened Wrappers
  import opened PathNormalizer
  import opened PlaylistParser
  import opened PlaylistResolution

  /** A line of a playlist as it may be written. */
  datatype Line =
    | Blank(indent: string)
    | Comment(indent: string, text: string)
    | Entry(indent: string, path: string, trailing: string)

  /** Blanks, tabs, vertical tabs and form feeds. */
  predicate Spaces(s: string) {
    forall i :: 0 <= i < |s| ==> s[i] == ' ' || s[i] == '\t' || s[i] == '\U{0B}' || s[i] == '\U{0C}'
  }

  predicate Unbroken(s: string) {
    forall i :: 0 <= i < |s| ==> s[i] != '\n' && s[i] != '\r' && s[i] != '\0'
  }

  /** The normalised absolute path of a file. */
  predicate AbsoluteFile(path: string) {
    && Components(path) != [] && Normal(true, Components(path)) && path == Render(true, Components(path))
    && |path| < PATH_CAPACITY
  }

  /** A relative path of plain names that is not taken for something foreign and fits below directory `d`. */
  predicate RelativeFile(d: string, path: string) {
    && PlainNames(Components(path)) && path == Join(Components(path))
    && Local(path) && |d| + |path| + 2 <= PATH_CAPACITY
  }

  /** A path that can stand on a line: it is not read as a comment and trimming leaves it alone. */
  predicate Printable(d: string, path: string) {
    && (AbsoluteFile(path) || RelativeFile(d, path))
    && path != "" && path[0] != '#' && !Spaces([path[0]]) && !Spaces([path[|path| - 1]]) && Unbroken(path)
  }

  /** What an entry on a line stands for: itself, or a file below the playlist's directory. */
  function Target(d: string, path: string): string {
    if Absolute(path) then path else Below(d, Components(path))
  }

  predicate WellFormed(d: string, line: Line) {
    && Spaces(line.indent)
    && (line.Comment? ==> Unbroken(line.text))
    && (line.Entry? ==> Printable(d, line.path) && Spaces(line.trailing))
  }

  function Text(line: Line): string {
    match line
    case Blank(indent) => indent
    case Comment(indent, text) => indent + "#" + text
    case Entry(indent, path, trailing) => indent + path + trailing
  }

  /** The lines, each with its own ending. */
  function Print(lines: seq<(Line, string)>): string {
    if lines == [] then "" else Text(lines[0].0) + lines[0].1 + Print(lines[1..])
  }

  /** A line feed, carriage return and line feed, a lone carriage return, or the end of the data. */
  predicate Ends(ending: string, rest: string) {
    ending == "\n" || ending == "\r\n" || (ending == "\r" && !("\n" <= rest)) || (ending == "" && rest == "")
  }

  predicate AllEnd(lines: seq<(Line, string)>) {
    lines != [] ==> Ends(lines[0].1, Print(lines[1..])) && AllEnd(lines[1..])
  }

  /** What the entries stand for, in order. */
  function Entries(d: string, lines: seq<(Line, string)>): seq<string> {
    if lines == [] then []
    else (if lines[0].0.Entry? then [Target(d, lines[0].0.path)] else []) + Entries(d, lines[1..])
  }

  lemma {:induction false} TrimLeftOf(indent: string, s: string)
    requires Spaces(indent) && (s == "" || !IsSpace(s[0]))
    ensures TrimLeft(indent + s) == s
  {
    if indent == "" {
      assert indent + s == s;
    } else {
      assert (indent + s)[1..] == indent[1..] + s;
      TrimLeftOf(indent[1..], s);
    }
  }

  lemma {:induction false} TrimRightOf(s: string, trailing: string)
    requires Spaces(trailing) && (s == "" || !IsSpace(s[|s| - 1]))
    ensures TrimRight(s + trailing) == s
  {
    var whole := s + trailing;
    if trailing == "" {
      assert whole == s;
    } else {
      assert whole[..|whole| - 1] == s + trailing[..|trailing| - 1];
      TrimRightOf(s, trailing[..|trailing| - 1]);
    }
  }

  /** Trimming at the end keeps a first character that is no blank. */
  lemma TrimRightKeeps(s: string)
    requires s != "" && !IsSpace(s[0])
    ensures TrimRight(s) != "" && TrimRight(s)[0] == s[0]
  {
  }

  lemma PathStart(path: string)
    requires AbsoluteFile(path)
    ensures |path| > 1 && path[0] == '/' && path[1] != '/' && path[|path| - 1] != '/'
    ensures LocalError(path).Ok?
  {
    var cs := Components(path);
    JoinStart(cs);
    assert path == "/" + Join(cs);
  }

  /** What the parser sees of a written line. */
  lemma TrimmedText(d: string, line: Line)
    requires WellFormed(d, line)
    ensures
      var t := TrimRight(TrimLeft(Text(line)));
      && (line.Blank? ==> t == "")
      && (line.Comment? ==> t != "" && t[0] == '#')
      && (line.Entry? ==> t == line.path)
  {
    match line
    case Blank(indent) =>
      TrimLeftOf(indent, "");
      assert indent + "" == indent;
    case Comment(indent, text) =>
      TrimLeftOf(indent, "#" + text);
      assert indent + "#" + text == indent + ("#" + text);
      TrimRightKeeps("#" + text);
    case Entry(indent, path, trailing) =>
      TrimLeftOf(indent, path + trailing);
      assert indent + path + trailing == indent + (path + trailing);
      TrimRightOf(path, trailing);
  }

  lemma ResolvesToItself(d: string, path: string)
    requires AbsoluteFile(path)
    ensures Resolve(d, path) == Ok(path)
  {
    var cs := Components(path);
    PathStart(path);
    LeafOfRender(true, cs);
    NormalizeNormal(true, cs, PATH_CAPACITY);
  }

  lemma ResolvesToTarget(d: string, path: string)
    requires DirectoryForm(d) && Printable(d, path)
    ensures Resolve(d, path) == Ok(Target(d, path))
  {
    if AbsoluteFile(path) {
      PathStart(path);
      ResolvesToItself(d, path);
    } else {
      JoinStart(Components(path));
      RelativeResolves(d, Components(path));
    }
  }

  lemma LineAdded(d: string, entries: seq<string>, line: Line)
    requires DirectoryForm(d) && WellFormed(d, line)
    ensures AddLine(d, entries, TrimRight(TrimLeft(Text(line))))
         == if !line.Entry? then Ok(entries)
            else if |entries| >= ENTRY_COUNT then Err(WrongEntryCount) else Ok(entries + [Target(d, line.path)])
  {
    TrimmedText(d, line);
    if line.Entry? {
      ResolvesToTarget(d, line.path);
    }
  }

  lemma LineLengthOf(text: string, rest: string)
    requires Unbroken(text) && (rest == "" || Stops(rest[0]))
    ensures LineLength(text + rest) == |text|
  {
    if text == "" {
      assert text + rest == rest;
    } else {
      assert (text + rest)[1..] == text[1..] + rest;
      LineLengthOf(text[1..], rest);
    }
  }

  lemma TextUnbroken(d: string, line: Line)
    requires WellFormed(d, line)
    ensures Unbroken(Text(line))
  {
    assert forall i :: 0 <= i < |line.indent| ==> IsSpace(line.indent[i]);
    if line.Entry? {
      assert forall i :: 0 <= i < |line.trailing| ==> IsSpace(line.trailing[i]);
    }
  }

  /** One written line is read and the rest is left. */
  lemma ReadsLine(directory: string, entries: seq<string>, text: string, ending: string, rest: string)
    requires Unbroken(text) && Ends(ending, rest)
    ensures
      var next := AddLine(directory, entries, TrimRight(TrimLeft(text)));
      ParseLines(directory, entries, text + ending + rest)
      == if next.Err? then next else ParseLines(directory, next.value, rest)
  {
    var data := text + ending + rest;
    assert data == text + (ending + rest);
    LineLengthOf(text, ending + rest);
    var k := |text|;
    assert data[..k] == text && data[k..] == ending + rest;
    EndingLength(ending, rest);
    assert data[k + |ending|..] == rest;
  }

  lemma EndingLength(ending: string, rest: string)
    requires Ends(ending, rest)
    ensures TerminatorLength(ending + rest) == |ending|
  {
    assert ending == "\r" && rest != "" ==> (ending + rest)[1] == rest[0];
    assert ending == "\r" && rest != "" && rest[0] == '\n' ==> "\n" <= rest;
  }

  lemma ReadsWellFormed(directory: string, entries: seq<string>, line: Line, ending: string, rest: string)
    requires DirectoryForm(directory) && WellFormed(directory, line) && |entries| <= ENTRY_COUNT && Ends(ending, rest)
    ensures ParseLines(directory, entries, Text(line) + ending + rest)
         == if line.Blank? || line.Comment? then ParseLines(directory, entries, rest)
            else if |entries| == ENTRY_COUNT then Err(WrongEntryCount)
            else ParseLines(directory, entries + [Target(directory, line.path)], rest)
  {
    TextUnbroken(directory, line);
    ReadsLine(directory, entries, Text(line), ending, rest);
    LineAdded(directory, entries, line);
  }

  function Verdict(entries: seq<string>): Fallible<seq<string>> {
    if |entries| == ENTRY_COUNT then Ok(entries) else Err(WrongEntryCount)
  }

  lemma EntriesAhead(d: string, entries: seq<string>, lines: seq<(Line, string)>)
    requires lines != []
    ensures
      var more := if lines[0].0.Entry? then [Target(d, lines[0].0.path)] else [];
      entries + Entries(d, lines) == entries + more + Entries(d, lines[1..])
  {
  }

  /** Reading back any written playlist: exactly its entries when they are as many as expected. */
  lemma {:induction false} PrintedLines(directory: string, entries: seq<string>, lines: seq<(Line, string)>)
    requires DirectoryForm(directory) && forall i :: 0 <= i < |lines| ==> WellFormed(directory, lines[i].0)
    requires |entries| <= ENTRY_COUNT && AllEnd(lines)
    ensures ParseLines(directory, entries, Print(lines)) == Verdict(entries + Entries(directory, lines))
    decreases |lines|
  {
    if lines == [] {
      assert entries + Entries(directory, lines) == entries;
    } else {
      PrintedLine(directory, entries, lines[0].0, lines[0].1, Print(lines[1..]), Entries(directory, lines[1..]));
      EntriesAhead(directory, entries, lines);
      if lines[0].0.Entry? {
        if |entries| < ENTRY_COUNT {
          PrintedLines(directory, entries + [Target(directory, lines[0].0.path)], lines[1..]);
        }
      } else {
        assert entries + [] == entries;
        PrintedLines(directory, entries, lines[1..]);
      }
    }
  }

  /** One written line in front of text that reads back as `later`. */
  lemma PrintedLine(directory: string, entries: seq<string>, line: Line, ending: string, rest: string,
                    later: seq<string>)
    requires DirectoryForm(directory) && WellFormed(directory, line) && |entries| <= ENTRY_COUNT && Ends(ending, rest)
    ensures
      var more := if line.Entry? then [Target(directory, line.path)] else [];
      var data := Text(line) + ending + rest;
      ParseLines(directory, entries, data)
      == if |entries + more| <= ENTRY_COUNT then ParseLines(directory, entries + more, rest)
      else Verdict(entries + more + later)
  {
    ReadsWellFormed(directory, entries, line, ending, rest);
    assert entries + [] == entries;
  }

  lemma MarkGone(text: string)
    ensures WithoutMark(MARK + text) == text
  {
    assert (MARK + text)[..3] == MARK;
  }

  /** Printing two file paths, each either absolute and normalised or a relative path of plain names, with any
      blank and comment lines mixed in, any indentation, any line endings and an optional byte order mark,
      parses back under every valid playlist path to exactly those files: absolute paths as they are, and
      relative ones below the playlist's directory. Any other number of entries is refused. */
  lemma ParserRoundTrip(playlist: string, lines: seq<(Line, string)>, mark: bool)
    requires Directory(playlist).Ok?
    requires forall i :: 0 <= i < |lines| ==> WellFormed(Directory(playlist).value, lines[i].0)
    requires AllEnd(lines)
    requires |(if mark then MARK else "") + Print(lines)| <= FILE_LIMIT && (mark || !(MARK <= Print(lines)))
    ensures
      var entries := Entries(Directory(playlist).value, lines);
      Parse(playlist, (if mark then MARK else "") + Print(lines))
      == if |entries| == ENTRY_COUNT then Ok(entries) else Err(WrongEntryCount)
  {
    var d := Directory(playlist).value;
    DirectoryShape(playlist);
    MarkGone(Print(lines));
    assert "" + Print(lines) == Print(lines);
    PrintedLines(d, [], lines);
    assert [] + Entries(d, lines) == Entries(d, lines);
  }

  /** A NUL in a line is refused, wherever the line stands. */
  lemma NulRefused(directory: string, entries: seq<string>, text: string, rest: string)
    requires Unbroken(text)
    ensures ParseLines(directory, entries, text + [NUL] + rest) == Err(InvalidArgument)
  {
    assert text + [NUL] + rest == text + ([NUL] + rest);
    LineLengthOf(text, [NUL] + rest);
  }
}
