/** Save file names derived from a directory and the content names of the two machines. */
module SavePaths {
  import opened Wrappers

  const PATH_CAPACITY: nat := 4096

  datatype Error = InvalidArgument | PathTooLong
  type Fallible<T> = Result<T, Error>

  predicate IsSeparator(c: char) {
    c == '/' || c == '\\'
  }

  predicate Unseparated(s: string) {
    forall i :: 0 <= i < |s| ==> !IsSeparator(s[i])
  }

  predicate SafeComponent(s: string) {
    s != "" && s != "." && s != ".." && Unseparated(s)
  }

  /** Where the part after the last separator starts. */
  function BaseStart(path: string): (k: nat)
    ensures k <= |path| && Unseparated(path[k..]) && (k > 0 ==> IsSeparator(path[k - 1]))
  {
    if path == "" then 0
    else if IsSeparator(path[|path| - 1]) then |path|
    else BaseStart(path[..|path| - 1])
  }

  /** The length of a base name without its extension; a leading dot starts no extension. */
  function StemLength(base: string): (k: nat)
    ensures k <= |base| && (base != "" ==> k > 0)
    ensures k < |base| ==> base[k] == '.'
    ensures forall i :: k < i < |base| ==> base[i] != '.'
    ensures k == |base| ==> forall i :: 1 <= i < |base| ==> base[i] != '.'
    decreases |base|
  {
    StemFrom(base, |base|)
  }

  /** The last dot before `end`, not counting the first character, or the whole name. */
  function StemFrom(base: string, end: nat): (k: nat)
    requires end <= |base| && forall i :: end <= i < |base| ==> i > 0 ==> base[i] != '.'
    ensures k <= |base| && (base != "" ==> k > 0)
    ensures k < |base| ==> base[k] == '.'
    ensures forall i :: k < i < |base| ==> base[i] != '.'
    ensures k == |base| ==> forall i :: 1 <= i < |base| ==> base[i] != '.'
  {
    if end <= 1 then |base|
    else if base[end - 1] == '.' then end - 1
    else StemFrom(base, end - 1)
  }

  function Stem(path: string): Fallible<string> {
    if path == "" then Err(InvalidArgument)
    else
      var base := path[BaseStart(path)..];
      if !SafeComponent(base) then Err(InvalidArgument)
      else
        var stem := base[..StemLength(base)];
        if |stem| >= PATH_CAPACITY then Err(PathTooLong)
        else if !SafeComponent(stem) then Err(InvalidArgument)
        else Ok(stem)
  }

  /** `dualboy_content_stem`: one scan for the last separator, one for the last dot. */
  method ContentStem(path: string) returns (r: Fallible<string>)
    ensures r == Stem(path)
  {
    if path == "" {
      return Err(InvalidArgument);
    }
    var start := 0;
    for cursor := 0 to |path|
      invariant start == BaseStart(path[..cursor])
    {
      assert path[..cursor + 1][..cursor] == path[..cursor];
      if IsSeparator(path[cursor]) {
        start := cursor + 1;
      }
    }
    assert path[..|path|] == path;
    var base := path[start..];
    if !SafeComponent(base) {
      return Err(InvalidArgument);
    }
    var length := |base|;
    for cursor := 1 to |base|
      invariant 0 < length <= |base|
      invariant length == |base| ==> forall i :: 1 <= i < cursor ==> base[i] != '.'
      invariant length < |base| ==>
          length < cursor && base[length] == '.' && forall i :: length < i < cursor ==> base[i] != '.'
    {
      if base[cursor] == '.' {
        length := cursor;
      }
    }
    assert length == StemLength(base);
    var stem := base[..length];
    r := if |stem| >= PATH_CAPACITY then Err(PathTooLong)
    else if SafeComponent(stem) then Ok(stem)
    else Err(InvalidArgument);
  }

  // ---- Joining ----

  /** A directory without its trailing separators, keeping one character. */
  function Trimmed(directory: string): (r: string)
    requires directory != ""
    ensures r != ""
  {
    if |directory| > 1 && IsSeparator(directory[|directory| - 1]) then Trimmed(directory[..|directory| - 1])
    else directory
  }

  /** Everything in front of the file name. */
  function Prefix(directory: string): string
    requires directory != ""
  {
    var d := Trimmed(directory);
    if IsSeparator(d[|d| - 1]) then d else d + "/"
  }

  function Join(directory: string, stem: string, suffix: string): Fallible<string> {
    if directory == "" || !SafeComponent(stem) || !SafeComponent(suffix) || suffix[0] != '.' then Err(InvalidArgument)
    else
      var path := Prefix(directory) + stem + suffix;
      if |path| + 1 > PATH_CAPACITY then Err(PathTooLong) else Ok(path)
  }

  /** `dualboy_join_save_path`: trailing separators of the directory are stepped over. */
  method JoinSavePath(directory: string, stem: string, suffix: string) returns (r: Fallible<string>)
    ensures r == Join(directory, stem, suffix)
  {
    if directory == "" || !SafeComponent(stem) || !SafeComponent(suffix) || suffix[0] != '.' {
      return Err(InvalidArgument);
    }
    var length := |directory|;
    assert directory[..length] == directory;
    while length > 1 && IsSeparator(directory[length - 1])
      invariant 0 < length <= |directory| && Trimmed(directory[..length]) == Trimmed(directory)
    {
      assert directory[..length][..length - 1] == directory[..length - 1];
      length := length - 1;
    }
    assert directory[..length] == Trimmed(directory);
    var separate := !IsSeparator(directory[length - 1]);
    var required := length + (if separate then 1 else 0) + |stem| + |suffix| + 1;
    if required > PATH_CAPACITY {
      return Err(PathTooLong);
    }
    assert directory[..length] + "" == directory[..length];
    r := Ok(directory[..length] + (if separate then "/" else "") + stem + suffix);
  }

  datatype Set = Set(sram: string, rtc: string, firmware: string)

  datatype Paths = Paths(first: Set, second: Set, suffixed: bool)

  function OneSet(directory: string, stem: string, ending: string, firmware: bool): Fallible<Set> {
    var sram := Join(directory, stem, ".srm" + ending);
    if sram.Err? then Err(sram.error) else
    var rtc := Join(directory, stem, ".rtc" + ending);
    if rtc.Err? then Err(rtc.error) else
    if !firmware then Ok(Set(sram.value, rtc.value, "")) else
    var bin := Join(directory, stem, ".firmware.bin" + ending);
    if bin.Err? then Err(bin.error) else Ok(Set(sram.value, rtc.value, bin.value))
  }

  /** `dualboy_build_save_paths`. */
  function Build(directory: string, content0: string, content1: string, firmware: bool): Fallible<Paths> {
    var stem0 := Stem(content0);
    if stem0.Err? then Err(stem0.error) else
    var stem1 := Stem(content1);
    if stem1.Err? then Err(stem1.error) else
    var first := OneSet(directory, stem0.value, "", firmware);
    if first.Err? then Err(first.error) else
    var plain := Join(directory, stem1.value, ".srm");
    if plain.Err? then Err(plain.error) else
    var suffixed := first.value.sram == plain.value;
    var second := OneSet(directory, stem1.value, if suffixed then ".2" else "", firmware);
    if second.Err? then Err(second.error) else Ok(Paths(first.value, second.value, suffixed))
  }

  /** No two of the derived file names are the same. */
  predicate AllDistinct(p: Paths, firmware: bool) {
    var a, b := p.first, p.second;
    && a.sram != a.rtc && a.sram != b.sram && a.sram != b.rtc && a.rtc != b.sram && a.rtc != b.rtc && b.sram != b.rtc
    && (firmware ==>
          && a.firmware != b.firmware
          && a.firmware != a.sram && a.firmware != a.rtc && a.firmware != b.sram && a.firmware != b.rtc
          && b.firmware != a.sram && b.firmware != a.rtc && b.firmware != b.sram && b.firmware != b.rtc)
  }

  // ---- Distinctness ----

  lemma LastCharacter(x: string, suffix: string)
    requires suffix != ""
    ensures x + suffix != "" && (x + suffix)[|x + suffix| - 1] == suffix[|suffix| - 1]
  {
  }

  /** Different ends keep paths apart whatever stands in front of them. */
  lemma EndsApart(x: string, y: string, a: string, b: string)
    requires a != "" && b != "" && a[|a| - 1] != b[|b| - 1]
    ensures x + a != y + b
  {
    LastCharacter(x, a);
    LastCharacter(y, b);
  }

  lemma SameFrontApart(x: string, a: string, b: string)
    requires a != b
    ensures x + a != x + b
  {
    assert (x + a)[|x|..] == a && (x + b)[|x|..] == b;
  }

  lemma StemsApart(prefix: string, x: string, y: string, suffix: string)
    ensures prefix + x + suffix == prefix + y + suffix <==> x == y
  {
    var a, b := prefix + x + suffix, prefix + y + suffix;
    if a == b {
      assert a[|prefix|..|prefix| + |x|] == x && b[|prefix|..|prefix| + |y|] == y;
    }
  }

  /** A name made of a stem and a suffix below one prefix. */
  function Name(prefix: string, stem: string, suffix: string): string {
    prefix + stem + suffix
  }

  lemma NamesApart(prefix: string, x: string, y: string, a: string, b: string)
    requires a != "" && b != ""
    requires (x == y && a != b) || (x != y && a == b) || a[|a| - 1] != b[|b| - 1]
    ensures Name(prefix, x, a) != Name(prefix, y, b)
  {
    if x == y && a != b {
      SameFrontApart(prefix + x, a, b);
    } else if x != y && a == b {
      StemsApart(prefix, x, y, a);
    } else {
      EndsApart(prefix + x, prefix + y, a, b);
    }
  }

  function SetOf(prefix: string, stem: string, ending: string, firmware: bool): Set {
    Set(Name(prefix, stem, ".srm" + ending), Name(prefix, stem, ".rtc" + ending),
        if firmware then Name(prefix, stem, ".firmware.bin" + ending) else "")
  }

  lemma SetIs(directory: string, stem: string, ending: string, firmware: bool)
    requires OneSet(directory, stem, ending, firmware).Ok?
    ensures directory != ""
    ensures OneSet(directory, stem, ending, firmware).value == SetOf(Prefix(directory), stem, ending, firmware)
  {
  }

  /** Two machines with different content names. */
  lemma DifferentStems(prefix: string, x: string, y: string, firmware: bool)
    requires x != y
    ensures AllDistinct(Paths(SetOf(prefix, x, "", firmware), SetOf(prefix, y, "", firmware), false), firmware)
  {
    var s, r, f := ".srm" + "", ".rtc" + "", ".firmware.bin" + "";
    NamesApart(prefix, x, x, s, r);
    NamesApart(prefix, x, y, s, s);
    NamesApart(prefix, x, y, s, r);
    NamesApart(prefix, x, y, r, s);
    NamesApart(prefix, x, y, r, r);
    NamesApart(prefix, y, y, s, r);
    NamesApart(prefix, x, y, f, f);
    FirmwareApart(prefix, x, x);
    FirmwareApart(prefix, x, y);
    FirmwareApart(prefix, y, x);
    FirmwareApart(prefix, y, y);
  }

  lemma FirmwareApart(prefix: string, x: string, y: string)
    ensures Name(prefix, x, ".firmware.bin" + "") != Name(prefix, y, ".srm" + "")
    ensures Name(prefix, x, ".firmware.bin" + "") != Name(prefix, y, ".rtc" + "")
  {
    NamesApart(prefix, x, y, ".firmware.bin" + "", ".srm" + "");
    NamesApart(prefix, x, y, ".firmware.bin" + "", ".rtc" + "");
  }

  /** Two machines with the same content name. */
  lemma SameStem(prefix: string, x: string, firmware: bool)
    ensures AllDistinct(Paths(SetOf(prefix, x, "", firmware), SetOf(prefix, x, ".2", firmware), true), firmware)
  {
    var s, r, f := ".srm" + "", ".rtc" + "", ".firmware.bin" + "";
    var s2, r2, f2 := ".srm" + ".2", ".rtc" + ".2", ".firmware.bin" + ".2";
    assert s[1] != r[1] && s2[1] != r2[1] && f[1] != s[1] && f[1] != r[1];
    assert |s| == |r| == 4 && |s2| == |r2| == 6 && |f| == 13 && |f2| == 15;
    NamesApart(prefix, x, x, s, r);
    NamesApart(prefix, x, x, s, s2);
    NamesApart(prefix, x, x, s, r2);
    NamesApart(prefix, x, x, r, s2);
    NamesApart(prefix, x, x, r, r2);
    NamesApart(prefix, x, x, s2, r2);
    NamesApart(prefix, x, x, f, f2);
    NamesApart(prefix, x, x, f, s);
    NamesApart(prefix, x, x, f, r);
    NamesApart(prefix, x, x, f, s2);
    NamesApart(prefix, x, x, f, r2);
    NamesApart(prefix, x, x, f2, s);
    NamesApart(prefix, x, x, f2, r);
    NamesApart(prefix, x, x, f2, s2);
    NamesApart(prefix, x, x, f2, r2);
  }

  /** For every directory and every pair of content names, no two machines or kinds share a file. */
  lemma PathsDistinct(directory: string, content0: string, content1: string, firmware: bool)
    requires Build(directory, content0, content1, firmware).Ok?
    ensures AllDistinct(Build(directory, content0, content1, firmware).value, firmware)
    ensures Build(directory, content0, content1, firmware).value.suffixed <==> Stem(content0) == Stem(content1)
  {
    var p := Build(directory, content0, content1, firmware).value;
    var x, y := Stem(content0).value, Stem(content1).value;
    var prefix := Prefix(directory);
    SetIs(directory, x, "", firmware);
    SetIs(directory, y, if p.suffixed then ".2" else "", firmware);
    StemsApart(prefix, x, y, ".srm");
    assert ".srm" + "" == ".srm";
    if p.suffixed { SameStem(prefix, x, firmware); } else { DifferentStems(prefix, x, y, firmware); }
  }

  /** The six file names, machine by machine: the second machine's end in ".2" exactly when both contents have
      the same stem. */
  lemma PathsNamed(directory: string, content0: string, content1: string, firmware: bool)
    requires Build(directory, content0, content1, firmware).Ok?
    ensures Stem(content0).Ok? && Stem(content1).Ok? && directory != ""
    ensures
      var p := Build(directory, content0, content1, firmware).value;
      var x, y := Prefix(directory) + Stem(content0).value, Prefix(directory) + Stem(content1).value;
      var two := if Stem(content0) == Stem(content1) then ".2" else "";
      && p.first.sram == x + ".srm" && p.first.rtc == x + ".rtc"
      && p.second.sram == y + (".srm" + two) && p.second.rtc == y + (".rtc" + two)
      && p.first.firmware == (if firmware then x + ".firmware.bin" else "")
      && p.second.firmware == (if firmware then y + (".firmware.bin" + two) else "")
  {
    var p := Build(directory, content0, content1, firmware).value;
    PathsDistinct(directory, content0, content1, firmware);
    SetIs(directory, Stem(content0).value, "", firmware);
    SetIs(directory, Stem(content1).value, if p.suffixed then ".2" else "", firmware);
    assert ".srm" + "" == ".srm" && ".rtc" + "" == ".rtc" && ".firmware.bin" + "" == ".firmware.bin";
  }

  /** Every derived file lies directly in the save directory. */
  lemma PathsInside(directory: string, stem: string, suffix: string)
    requires Join(directory, stem, suffix).Ok?
    ensures
      var path := Join(directory, stem, suffix).value;
      path[..|Prefix(directory)|] == Prefix(directory) && path[BaseStart(path)..] == stem + suffix
  {
    var prefix, name := Prefix(directory), stem + suffix;
    assert prefix + stem + suffix == prefix + name;
    assert Unseparated(name);
    BaseOf(prefix, name);
  }

  lemma BaseOf(prefix: string, name: string)
    requires prefix != "" && IsSeparator(prefix[|prefix| - 1]) && Unseparated(name)
    ensures BaseStart(prefix + name) == |prefix|
    decreases |name|
  {
    var s := prefix + name;
    if name != "" {
      assert s[..|s| - 1] == prefix + name[..|name| - 1];
      BaseOf(prefix, name[..|name| - 1]);
    } else {
      assert s == prefix;
    }
  }

  // ---- Which contents and directories are accepted ----

  /** No slash and no backslash. */
  predicate Plain(s: string) {
    forall i :: 0 <= i < |s| ==> s[i] != '/' && s[i] != '\\'
  }

  /** What may stand in front of a base name: nothing, or anything that ends in a separator. */
  predicate Front(s: string) {
    s == "" || s[|s| - 1] == '/' || s[|s| - 1] == '\\'
  }

  lemma BaseFound(front: string, base: string)
    requires Front(front) && Plain(base)
    ensures (front + base)[BaseStart(front + base)..] == base
  {
    if front == "" {
      assert front + base == base;
      WholeBase(base);
    } else {
      BaseOf(front, base);
    }
  }

  lemma WholeBase(base: string)
    requires Unseparated(base)
    ensures BaseStart(base) == 0
    decreases |base|
  {
    if base != "" {
      WholeBase(base[..|base| - 1]);
    }
  }

  lemma LengthUnique(base: string, k: nat)
    requires 0 < k < |base| && base[k] == '.' && forall i :: k < i < |base| ==> base[i] != '.'
    ensures StemLength(base) == k
  {
  }

  /** A content name with an extension: its stem is the name in front of the last dot, unless that is a dot
      component or too long. */
  lemma StemOfExtension(front: string, name: string, extension: string)
    requires Front(front) && name != "" && Plain(name) && Plain(extension) && '.' !in extension
    requires name + "." + extension != ".."
    ensures Stem(front + (name + "." + extension))
         == if name == "." || name == ".." then Err(InvalidArgument)
            else if |name| >= PATH_CAPACITY then Err(PathTooLong) else Ok(name)
  {
    var base := name + "." + extension;
    ExtensionBase(name, extension);
    BaseFound(front, base);
    LengthUnique(base, |name|);
    StemBy(front + base, base, name);
  }

  lemma StemBy(path: string, base: string, stem: string)
    requires path != "" && path[BaseStart(path)..] == base && |base| > 1 && base != ".."  && Plain(base)
    requires stem == base[..StemLength(base)]
    ensures Stem(path) == if stem == "." || stem == ".." then
                            Err(InvalidArgument)
                          else if |stem| >= PATH_CAPACITY then Err(PathTooLong) else Ok(stem)
  {
  }

  lemma ExtensionBase(name: string, extension: string)
    requires name != "" && Plain(name) && Plain(extension) && '.' !in extension
    ensures
      var base := name + "." + extension;
      && Plain(base) && |base| == |name| + 1 + |extension| && base[|name|] == '.' && base[..|name|] == name
      && forall i :: |name| < i < |base| ==> base[i] != '.'
  {
    var base := name + "." + extension;
    forall i | |name| < i < |base| ensures base[i] != '.' {
      assert base[i] == extension[i - |name| - 1] && extension[i - |name| - 1] in extension;
    }
  }

  /** A content name without an extension is its own stem; a leading dot starts none. */
  lemma StemOfName(front: string, name: string)
    requires Front(front) && Plain(name) && name != "" && name != "." && forall i :: 1 <= i < |name| ==> name[i] != '.'
    ensures Stem(front + name) == if |name| >= PATH_CAPACITY then Err(PathTooLong) else Ok(name)
  {
    BaseFound(front, name);
    assert name[..|name|] == name;
  }

  /** A path that ends in a separator or in a dot component has no stem. */
  lemma StemRefused(front: string, base: string)
    requires Front(front) && (base == "" || base == "." || base == "..")
    ensures Stem(front + base) == Err(InvalidArgument)
  {
    BaseFound(front, base);
  }

  lemma {:induction false} TrimsSeparators(directory: string, separators: string)
    requires directory != "" && forall i :: 0 <= i < |separators| ==> separators[i] == '/' || separators[i] == '\\'
    requires |directory| == 1 || (directory[|directory| - 1] != '/' && directory[|directory| - 1] != '\\')
    ensures Trimmed(directory + separators) == directory
    decreases |separators|
  {
    var all := directory + separators;
    if separators == "" {
      assert all == directory;
    } else {
      assert all[..|all| - 1] == directory + separators[..|separators| - 1];
      TrimsSeparators(directory, separators[..|separators| - 1]);
    }
  }

  /** What stands in front of a file name: the directory without its trailing separators, and one slash; or the one
      separator that is the directory. */
  lemma PrefixMeaning(directory: string, separators: string)
    requires directory != "" && forall i :: 0 <= i < |separators| ==> separators[i] == '/' || separators[i] == '\\'
    requires |directory| == 1 || (directory[|directory| - 1] != '/' && directory[|directory| - 1] != '\\')
    ensures Prefix(directory + separators)
         == if directory == "/" || directory == "\\" then directory else directory + "/"
  {
    TrimsSeparators(directory, separators);
  }

  /** How many characters the longest file name of a machine adds to its stem. */
  function Longest(firmware: bool, suffixed: bool): nat {
    (if firmware then |".firmware.bin"| else |".srm"|) + if suffixed then |".2"| else 0
  }

  /** Exactly when all names can be built: both contents have stems, there is a directory, and the longest names
      fit. */
  lemma BuildExactly(directory: string, content0: string, content1: string, firmware: bool)
    ensures Build(directory, content0, content1, firmware).Ok? <==>
            && Stem(content0).Ok? && Stem(content1).Ok? && directory != ""
            && |Prefix(directory)| + |Stem(content0).value| + Longest(firmware, false) < PATH_CAPACITY
            && |Prefix(directory)| + |Stem(content1).value| + Longest(firmware, Stem(content0) == Stem(content1))
             < PATH_CAPACITY
  {
    if Stem(content0).Ok? && Stem(content1).Ok? && directory != "" {
      var x, y := Stem(content0).value, Stem(content1).value;
      StemsApart(Prefix(directory), x, y, ".srm");
      assert ".srm" + "" == ".srm" && ".rtc" + "" == ".rtc" && ".firmware.bin" + "" == ".firmware.bin";
      SetExactly(directory, x, "", firmware);
      SetExactly(directory, y, "", firmware);
      SetExactly(directory, y, ".2", firmware);
    }
  }

  lemma SetExactly(directory: string, stem: string, ending: string, firmware: bool)
    requires directory != "" && SafeComponent(stem) && (ending == "" || ending == ".2")
    ensures OneSet(directory, stem, ending, firmware).Ok? <==>
            |Prefix(directory)| + |stem| + Longest(firmware, ending != "") < PATH_CAPACITY
    ensures Join(directory, stem, ".srm").Ok? <==> |Prefix(directory)| + |stem| + |".srm"| < PATH_CAPACITY
  {
    assert Unseparated(".srm" + ending) && Unseparated(".rtc" + ending) && Unseparated(".firmware.bin" + ending);
  }
}
