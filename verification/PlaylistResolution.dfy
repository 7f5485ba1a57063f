/** Which playlist paths and entries are refused and why, and what relative entries become. */
module PlaylistResolution {
  import opened Wrappers
  import opened PathNormalizer
  import opened PlaylistParser

  // ---- Foreign paths ----

  predicate SchemeCharacter(c: char) {
    'A' <= c <= 'Z' || 'a' <= c <= 'z' || '0' <= c <= '9' || c == '+' || c == '-' || c == '.'
  }

  /** A letter, then scheme characters up to a colon. */
  predicate HasScheme(path: string) {
    && path != "" && ('A' <= path[0] <= 'Z' || 'a' <= path[0] <= 'z')
    && exists k :: 0 < k < |path| && path[k] == ':' && forall i :: 0 < i < k ==> SchemeCharacter(path[i])
  }

  lemma {:induction false} SchemeTail(s: string)
    ensures SchemeFollows(s) <==>
            exists k :: 0 <= k < |s| && s[k] == ':' && forall i :: 0 <= i < k ==> SchemeCharacter(s[i])
  {
    if s != "" && s[0] != ':' {
      SchemeTail(s[1..]);
      if SchemeFollows(s) {
        var k :| 0 <= k < |s| - 1 && s[1..][k] == ':' && forall i :: 0 <= i < k ==> SchemeCharacter(s[1..][i]);
        assert s[k + 1] == ':';
        forall i | 0 <= i < k + 1 ensures SchemeCharacter(s[i]) {
          assert i > 0 ==> s[i] == s[1..][i - 1];
        }
      }
      if k :| 0 <= k < |s| && s[k] == ':' && forall i :: 0 <= i < k ==> SchemeCharacter(s[i]) {
        assert s[1..][k - 1] == ':';
        forall i | 0 <= i < k - 1 ensures SchemeCharacter(s[1..][i]) {
          assert s[1..][i] == s[i + 1];
        }
        assert SchemeCharacter(s[0]);
      }
    }
  }

  /** Refused as foreign are exactly backslash paths, network paths and paths with a scheme. */
  lemma ForeignExactly(path: string)
    requires path != ""
    ensures Foreign(path) <==> path[0] == '\\' || "//" <= path || HasScheme(path)
  {
    SchemeTail(path[1..]);
    if IsLetter(path[0]) && SchemeFollows(path[1..]) {
      var k :| 0 <= k < |path| - 1 && path[1..][k] == ':' && forall i :: 0 <= i < k ==> SchemeCharacter(path[1..][i]);
      assert path[k + 1] == ':';
      forall i | 0 < i < k + 1 ensures SchemeCharacter(path[i]) {
        assert path[i] == path[1..][i - 1];
      }
    }
    if HasScheme(path) {
      var k :| 0 < k < |path| && path[k] == ':' && forall i :: 0 < i < k ==> SchemeCharacter(path[i]);
      assert path[1..][k - 1] == ':';
      forall i | 0 <= i < k - 1 ensures SchemeCharacter(path[1..][i]) {
        assert path[1..][i] == path[i + 1];
      }
    }
  }

  // ---- Refusals ----

  /** A path the parser looks at: not empty, short enough and not foreign. */
  predicate Local(path: string) {
    0 < |path| < PATH_CAPACITY && !(path[0] == '\\' || "//" <= path || HasScheme(path))
  }

  lemma LocalExactly(path: string)
    ensures LocalError(path) ==
            if path == "" then Err(InvalidArgument) else if |path| >= PATH_CAPACITY then Err(TooLong)
            else if Local(path) then Ok(()) else Err(Unsafe)
  {
    if path != "" {
      ForeignExactly(path);
    }
  }

  lemma Fits4K(s: string)
    requires |s| < PATH_CAPACITY
    ensures Normalized4K(s) == Err(Unsafe) <==> Absolute(s) && Meaning([], s) == Nowhere
    ensures Normalized4K(s).Ok? || Normalized4K(s) == Err(Unsafe)
  {
    NeverTooLong(s, PATH_CAPACITY);
    UnsafeIffClimbs(s, PATH_CAPACITY, []);
  }

  /** The last component of a path that does not end in a slash stands behind its last slash. */
  lemma LeafIsLast(s: string)
    requires s != "" && s[|s| - 1] != '/'
    ensures Components(s) != [] && s[LeafStart(s)..] == Components(s)[|Components(s)| - 1]
  {
    var k := LeafStart(s);
    var leaf := s[k..];
    assert leaf[|leaf| - 1] == s[|s| - 1];
    if k > 0 {
      assert s == s[..k - 1] + "/" + leaf;
      ComponentsSplit(s[..k - 1], leaf);
    } else {
      assert s == leaf;
    }
    OneComponent(leaf);
  }

  /** An entry that names a file: its last component is neither empty nor a dot component. */
  predicate NamesFile(entry: string)
    requires entry != ""
  {
    entry[|entry| - 1] != '/' && Components(entry) != [] && IsName(Components(entry)[|Components(entry)| - 1])
  }

  /** The path an entry stands for, before it is normalised. */
  function Combined(directory: string, entry: string): string {
    if Absolute(entry) || directory == "." then entry
    else if directory != "" && directory[|directory| - 1] == '/' then directory + entry
    else directory + "/" + entry
  }

  /** Exactly when an entry resolves, and with which error it is refused otherwise. */
  lemma ResolveExactly(directory: string, entry: string)
    ensures
      var r := Resolve(directory, entry);
      var whole := Combined(directory, entry);
      && (entry == "" ==> r == Err(InvalidArgument))
      && (|entry| >= PATH_CAPACITY ==> r == Err(TooLong))
      && (0 < |entry| < PATH_CAPACITY && !Local(entry) ==> r == Err(Unsafe))
      && (Local(entry) && !NamesFile(entry) ==> r == Err(InvalidArgument))
      && (Local(entry) && NamesFile(entry) ==>
            if whole != entry && |directory| + |entry| + 2 > PATH_CAPACITY then r == Err(TooLong)
            else if Absolute(whole) && Meaning([], whole) == Nowhere then r == Err(Unsafe)
            else r.Ok?)
  {
    LocalExactly(entry);
    if Local(entry) && entry[|entry| - 1] != '/' {
      LeafIsLast(entry);
      CombinedDiffers(directory, entry);
      var whole := Combined(directory, entry);
      if NamesFile(entry) && !(whole != entry && |directory| + |entry| + 2 > PATH_CAPACITY) {
        Fits4K(whole);
      }
    }
  }

  lemma CombinedDiffers(directory: string, entry: string)
    ensures Combined(directory, entry) == entry <==> Absolute(entry) || directory == "."
    ensures |Combined(directory, entry)| <= |directory| + |entry| + 1
  {
    if !Absolute(entry) && directory != "." {
      assert |Combined(directory, entry)| > |entry|;
    }
  }

  /** Exactly when a playlist path has a directory, and with which error it is refused otherwise. */
  lemma DirectoryExactly(path: string)
    ensures
      var r := Directory(path);
      && (path == "" ==> r == Err(InvalidArgument))
      && (|path| >= PATH_CAPACITY ==> r == Err(TooLong))
      && (0 < |path| < PATH_CAPACITY && !Local(path) ==> r == Err(Unsafe))
      && (Local(path) && path[|path| - 1] == '/' ==> r == Err(InvalidArgument))
      && (Local(path) && path[|path| - 1] != '/' ==>
            if Absolute(path) && Meaning([], path) == Nowhere then r == Err(Unsafe)
            else Normalize(path, PATH_CAPACITY).Normalized?
                 && (r.Ok? <==> Normalize(path, PATH_CAPACITY).text !in ["/", ".", ".."])
                 && (!r.Ok? ==> r == Err(InvalidArgument)))
  {
    LocalExactly(path);
    if Local(path) {
      Fits4K(path);
      if Normalize(path, PATH_CAPACITY).Normalized? {
        NoTrailingSlash(path);
      }
    }
  }

  lemma NoTrailingSlash(path: string)
    requires Normalize(path, PATH_CAPACITY).Normalized?
    ensures
      var text := Normalize(path, PATH_CAPACITY).text;
      text != "/" ==> text != "" && text[|text| - 1] != '/'
  {
    var text := Normalize(path, PATH_CAPACITY).text;
    ResultShape(path, PATH_CAPACITY);
    if text != "." {
      var cs := Components(text);
      JoinStart(cs);
    }
  }

  // ---- Relative entries ----

  /** A relative path of plain names. */
  predicate PlainNames(cs: seq<string>) {
    cs != [] && forall i :: 0 <= i < |cs| ==> IsName(cs[i])
  }

  lemma {:induction false} JoinLast(cs: seq<string>, c: string)
    requires cs != []
    ensures Join(cs + [c]) == Join(cs) + "/" + c
  {
    assert (cs + [c])[..|cs|] == cs;
  }

  lemma Associative(x: string, y: string, z: string)
    ensures x + "/" + y + "/" + z == x + "/" + (y + "/" + z)
  {
  }

  lemma {:induction false} JoinAppend(a: seq<string>, b: seq<string>)
    requires a != [] && b != []
    ensures Join(a + b) == Join(a) + "/" + Join(b)
    decreases |b|
  {
    var front, last := b[..|b| - 1], b[|b| - 1];
    assert b == front + [last] && a + b == a + front + [last];
    JoinLast(a + front, last);
    if front == [] {
      assert a + front == a && b == [last];
    } else {
      JoinAppend(a, front);
      JoinLast(front, last);
      Associative(Join(a), Join(front), last);
    }
  }

  lemma NormalAppend(absolute: bool, front: seq<string>, names: seq<string>)
    requires Normal(absolute, front) && PlainNames(names)
    ensures Normal(absolute, front + names)
  {
  }

  /** A directory as the parser uses it. */
  predicate DirectoryForm(d: string) {
    d == "." || (d != "" && Normal(Absolute(d), Components(d)) && d == Render(Absolute(d), Components(d)))
  }

  lemma RenderForm(absolute: bool, cs: seq<string>)
    requires Normal(absolute, cs) && (absolute || cs != [])
    ensures DirectoryForm(Render(absolute, cs))
  {
    RenderStart(absolute, cs);
    ComponentsOfRender(absolute, cs);
  }

  lemma FrontNormal(absolute: bool, cs: seq<string>)
    requires cs != [] && Normal(absolute, cs)
    ensures Normal(absolute, cs[..|cs| - 1])
  {
  }

  lemma ParentForm(absolute: bool, cs: seq<string>)
    requires cs != [] && Normal(absolute, cs)
    ensures DirectoryForm(Parent(Render(absolute, cs)))
  {
    LeafOfRender(absolute, cs);
    if absolute || |cs| > 1 {
      FrontNormal(absolute, cs);
      RenderForm(absolute, cs[..|cs| - 1]);
    }
  }

  lemma DirectoryShape(path: string)
    requires Directory(path).Ok?
    ensures DirectoryForm(Directory(path).value)
  {
    var text := Normalize(path, PATH_CAPACITY).text;
    ResultShape(path, PATH_CAPACITY);
    ShapeNotRoot(Absolute(path), Components(text));
    ParentForm(Absolute(path), Components(text));
  }

  lemma ShapeNotRoot(absolute: bool, cs: seq<string>)
    requires Render(absolute, cs) != "/" && Render(absolute, cs) != ""
    ensures cs != []
  {
    assert Render(true, []) == "/" && Render(false, []) == "";
  }

  /** Where a relative path of plain names ends up: below the directory. */
  function Below(d: string, names: seq<string>): string {
    if d == "." then Join(names) else if d == "/" then "/" + Join(names) else d + "/" + Join(names)
  }

  lemma RenderAppend(absolute: bool, cs: seq<string>, names: seq<string>)
    requires cs != [] && names != []
    ensures Render(absolute, cs + names) == Render(absolute, cs) + "/" + Join(names)
  {
    JoinAppend(cs, names);
    assert "/" + (Join(cs) + "/" + Join(names)) == "/" + Join(cs) + "/" + Join(names);
  }

  lemma RenderEnd(absolute: bool, cs: seq<string>)
    requires cs != [] && forall i :: 0 <= i < |cs| ==> IsComponent(cs[i])
    ensures
      var s := Render(absolute, cs);
      s != "" && s[|s| - 1] != '/'
  {
    JoinStart(cs);
  }

  lemma BelowRendered(d: string, names: seq<string>)
    requires DirectoryForm(d) && d != "." && PlainNames(names)
    ensures
      var cs := Components(d);
      Below(d, names) == Render(Absolute(d), cs + names) && Combined(d, Join(names)) == Below(d, names)
  {
    var cs := Components(d);
    JoinStart(names);
    if cs == [] {
      RenderStart(Absolute(d), cs);
      assert Render(true, []) == "/" && cs + names == names;
    } else {
      RenderAppend(Absolute(d), cs, names);
      RenderEnd(Absolute(d), cs);
    }
  }

  lemma ResolvesCombined(directory: string, entry: string)
    requires Local(entry) && NamesFile(entry) && |directory| + |entry| + 2 <= PATH_CAPACITY
    ensures Resolve(directory, entry) == Normalized4K(Combined(directory, entry))
  {
    LocalExactly(entry);
    LeafIsLast(entry);
  }

  lemma NamesAFile(names: seq<string>)
    requires PlainNames(names)
    ensures Join(names) != "" && NamesFile(Join(names))
  {
    JoinStart(names);
    ComponentsOfJoin(names);
  }

  /** An entry of plain names, below the playlist's directory d, becomes d/entry. */
  lemma RelativeResolves(d: string, names: seq<string>)
    requires DirectoryForm(d) && PlainNames(names) && Local(Join(names)) && |d| + |Join(names)| + 2 <= PATH_CAPACITY
    ensures Resolve(d, Join(names)) == Ok(Below(d, names))
  {
    NamesAFile(names);
    ResolvesCombined(d, Join(names));
    BelowNormalizes(d, names);
  }

  lemma BelowNormalizes(d: string, names: seq<string>)
    requires DirectoryForm(d) && PlainNames(names) && |d| + |Join(names)| + 2 <= PATH_CAPACITY
    ensures Normalized4K(Combined(d, Join(names))) == Ok(Below(d, names))
  {
    JoinStart(names);
    if d == "." {
      assert Render(false, names) == Join(names);
      NormalizeNormal(false, names, PATH_CAPACITY);
    } else {
      BelowRendered(d, names);
      NormalAppend(Absolute(d), Components(d), names);
      NormalizeNormal(Absolute(d), Components(d) + names, PATH_CAPACITY);
    }
  }
}
