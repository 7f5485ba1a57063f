/** Lexical normalisation of slash-separated paths. */
module PathNormalizer {

  /** A component is a non-empty run of characters other than the slash. */
  predicate IsComponent(c: string) {
    c != "" && '/' !in c
  }

  predicate IsName(c: string) {
    IsComponent(c) && c != "." && c != ".."
  }

  /** How many characters precede the first slash. */
  function SegmentLength(s: string): (k: nat)
    ensures k <= |s| && '/' !in s[..k] && (k < |s| ==> s[k] == '/')
  {
    if s == "" || s[0] == '/' then 0
    else
      var k := 1 + SegmentLength(s[1..]);
      assert s[..k] == [s[0]] + s[1..][..k - 1];
      k
  }

  /** The non-empty components of a path, in order. */
  function Components(s: string): (r: seq<string>)
    ensures forall c :: c in r ==> IsComponent(c)
    decreases |s|
  {
    if s == "" then []
    else if s[0] == '/' then Components(s[1..])
    else
      var k := SegmentLength(s);
      [s[..k]] + Components(s[k..])
  }

  predicate Absolute(s: string) {
    s != "" && s[0] == '/'
  }

  // ---- What a path means ----

  datatype Place = Nowhere | Inside(stack: seq<string>)

  /** Entering one component from a directory, given as the stack of names below the root. */
  function Enter(p: Place, c: string): Place {
    if p.Nowhere? || c == "." then p
    else if c == ".." then if p.stack == [] then Nowhere else Inside(p.stack[..|p.stack| - 1])
    else Inside(p.stack + [c])
  }

  function Walk(p: Place, cs: seq<string>): Place
    decreases |cs|
  {
    if cs == [] then p else Walk(Enter(p, cs[0]), cs[1..])
  }

  /** Where a path leads from a working directory. */
  function Meaning(cwd: seq<string>, s: string): Place {
    Walk(Inside(if Absolute(s) then [] else cwd), Components(s))
  }

  lemma WalkAppend(p: Place, a: seq<string>, b: seq<string>)
    ensures Walk(p, a + b) == Walk(Walk(p, a), b)
    decreases |a|
  {
    if a == [] {
      assert a + b == b;
    } else {
      assert (a + b)[1..] == a[1..] + b;
      WalkAppend(Enter(p, a[0]), a[1..], b);
    }
  }

  lemma WalkNowhere(cs: seq<string>)
    ensures Walk(Nowhere, cs) == Nowhere
    decreases |cs|
  {
  }

  // ---- Normal form ----

  function Join(cs: seq<string>): string {
    if |cs| == 0 then ""
    else if |cs| == 1 then cs[0]
    else Join(cs[..|cs| - 1]) + "/" + cs[|cs| - 1]
  }

  function Render(absolute: bool, cs: seq<string>): string {
    (if absolute then "/" else "") + Join(cs)
  }

  /** No empty or "." component, and ".." only as a prefix of a relative path. */
  predicate Normal(absolute: bool, cs: seq<string>) {
    && (forall i :: 0 <= i < |cs| ==> IsComponent(cs[i]) && cs[i] != ".")
    && (forall i :: 0 <= i < |cs| && cs[i] == ".." ==> !absolute && forall j :: 0 <= j < i ==> cs[j] == "..")
  }

  datatype Outcome = Normalized(text: string) | UnsafePath | PathTooLong

  datatype Fold = Folded(out: seq<string>) | Climbs | Overflows

  /** One component added to the normal form built so far. */
  function Push(absolute: bool, capacity: nat, out: seq<string>, c: string): Fold {
    if c == "." then Folded(out)
    else if c == ".." && out != [] && out[|out| - 1] != ".." then Folded(out[..|out| - 1])
    else if c == ".." && absolute then Climbs
    else if |Render(absolute, out + [c])| + 1 > capacity then Overflows
    else Folded(out + [c])
  }

  function PushAll(absolute: bool, capacity: nat, out: seq<string>, cs: seq<string>): Fold
    decreases |cs|
  {
    if cs == [] then Folded(out)
    else
      var next := Push(absolute, capacity, out, cs[0]);
      if next.Folded? then PushAll(absolute, capacity, next.out, cs[1..]) else next
  }

  function Finish(absolute: bool, capacity: nat, f: Fold): Outcome {
    match f
    case Climbs => UnsafePath
    case Overflows => PathTooLong
    case Folded(out) =>
      if Render(absolute, out) != "" then Normalized(Render(absolute, out))
      else if capacity < 2 then PathTooLong
      else Normalized(".")
  }

  /** The component-list form of `normalize_path`. */
  function Normalize(s: string, capacity: nat): Outcome {
    if Absolute(s) && capacity < 2 then PathTooLong
    else Finish(Absolute(s), capacity, PushAll(Absolute(s), capacity, [], Components(s)))
  }

  // ---- Components of a rendered path ----

  lemma SegmentOf(x: string, y: string)
    requires '/' !in x && (y == "" || y[0] == '/')
    ensures SegmentLength(x + y) == |x|
  {
    if x == "" {
      assert x + y == y;
    } else {
      assert (x + y)[1..] == x[1..] + y;
      SegmentOf(x[1..], y);
    }
  }

  lemma OneComponent(c: string)
    requires IsComponent(c)
    ensures Components(c) == [c]
  {
    SegmentOf(c, "");
    assert c + "" == c;
    assert c[..|c|] == c && c[|c|..] == "";
    assert c[0] in c;
  }

  /** A slash separates components, whatever stands on its sides. */
  lemma {:induction false} ComponentsSplit(x: string, y: string)
    ensures Components(x + "/" + y) == Components(x) + Components(y)
    decreases |x|
  {
    var s := x + "/" + y;
    if x == "" {
      assert s == "/" + y && s[1..] == y;
    } else if x[0] == '/' {
      assert s[1..] == x[1..] + "/" + y;
      ComponentsSplit(x[1..], y);
    } else {
      var k := SegmentLength(x);
      var tail := x[k..] + "/" + y;
      assert s == x[..k] + tail;
      SegmentOf(x[..k], tail);
      assert s[..k] == x[..k] && s[k..] == tail;
      ComponentsSplit(x[k..], y);
    }
  }

  lemma {:induction false} ComponentsOfJoin(cs: seq<string>)
    requires forall i :: 0 <= i < |cs| ==> IsComponent(cs[i])
    ensures Components(Join(cs)) == cs
    decreases |cs|
  {
    if |cs| == 1 {
      OneComponent(cs[0]);
    } else if |cs| > 1 {
      var front, last := cs[..|cs| - 1], cs[|cs| - 1];
      ComponentsOfJoin(front);
      ComponentsSplit(Join(front), last);
      OneComponent(last);
      assert front + [last] == cs;
    }
  }

  lemma ComponentsOfRender(absolute: bool, cs: seq<string>)
    requires forall i :: 0 <= i < |cs| ==> IsComponent(cs[i])
    ensures Components(Render(absolute, cs)) == cs
  {
    ComponentsOfJoin(cs);
    var s := Render(absolute, cs);
    assert absolute ==> s[1..] == Join(cs);
    assert !absolute ==> s == Join(cs);
  }

  lemma JoinStart(cs: seq<string>)
    requires forall i :: 0 <= i < |cs| ==> IsComponent(cs[i])
    ensures cs == [] <==> Join(cs) == ""
    ensures !Absolute(Join(cs))
    ensures cs != [] ==> Join(cs)[|Join(cs)| - 1] != '/'
    decreases |cs|
  {
    if |cs| == 1 {
      assert cs[0][0] in cs[0] && cs[0][|cs[0]| - 1] in cs[0];
    } else if |cs| > 1 {
      var front, last := cs[..|cs| - 1], cs[|cs| - 1];
      JoinStart(front);
      assert last[|last| - 1] in last;
    }
  }

  lemma RenderStart(absolute: bool, cs: seq<string>)
    requires forall i :: 0 <= i < |cs| ==> IsComponent(cs[i])
    ensures Absolute(Render(absolute, cs)) == absolute
    ensures Render(absolute, cs) == "" <==> !absolute && cs == []
  {
    JoinStart(cs);
    assert !absolute ==> Render(absolute, cs) == Join(cs);
  }

  // ---- The fold keeps normal form and meaning ----

  lemma PushNormal(absolute: bool, capacity: nat, out: seq<string>, c: string)
    requires Normal(absolute, out) && IsComponent(c) && Push(absolute, capacity, out, c).Folded?
    ensures Normal(absolute, Push(absolute, capacity, out, c).out)
  {
  }

  /** What a place is after a walk: a prefix that ends in a name can be undone. */
  lemma NameThenParent(p: Place, cs: seq<string>)
    requires cs != [] && IsName(cs[|cs| - 1])
    ensures Enter(Walk(p, cs), "..") == Walk(p, cs[..|cs| - 1])
  {
    var front, last := cs[..|cs| - 1], cs[|cs| - 1];
    assert cs == front + [last];
    WalkAppend(p, front, [last]);
    var q := Walk(p, front);
    assert Walk(q, [last]) == Enter(q, last);
    if q.Inside? {
      assert (q.stack + [last])[..|q.stack|] == q.stack;
    }
  }

  lemma WalkOneMore(p: Place, cs: seq<string>, c: string)
    ensures Walk(p, cs + [c]) == Enter(Walk(p, cs), c)
  {
    WalkAppend(p, cs, [c]);
    assert Walk(Walk(p, cs), [c]) == Enter(Walk(p, cs), c);
  }

  lemma PushMeaning(absolute: bool, capacity: nat, out: seq<string>, c: string, p: Place)
    requires Normal(absolute, out) && IsComponent(c) && Push(absolute, capacity, out, c).Folded?
    ensures Walk(p, Push(absolute, capacity, out, c).out) == Enter(Walk(p, out), c)
  {
    if c == ".." && out != [] && out[|out| - 1] != ".." {
      NameThenParent(p, out);
    } else if c != "." {
      WalkOneMore(p, out, c);
    }
  }

  lemma {:induction false} PushAllKeeps(absolute: bool, capacity: nat, out: seq<string>, cs: seq<string>, p: Place)
    requires Normal(absolute, out) && forall c :: c in cs ==> IsComponent(c)
    requires PushAll(absolute, capacity, out, cs).Folded?
    ensures
      var r := PushAll(absolute, capacity, out, cs).out;
      Normal(absolute, r) && Walk(p, r) == Walk(Walk(p, out), cs)
    decreases |cs|
  {
    if cs != [] {
      assert cs[0] in cs;
      PushNormal(absolute, capacity, out, cs[0]);
      PushMeaning(absolute, capacity, out, cs[0], p);
      var next := Push(absolute, capacity, out, cs[0]).out;
      PushAllKeeps(absolute, capacity, next, cs[1..], p);
    }
  }

  /** Names only: walking them from the root always succeeds and leaves exactly them. */
  lemma {:induction false} WalkNames(cs: seq<string>)
    requires forall i :: 0 <= i < |cs| ==> IsName(cs[i])
    ensures Walk(Inside([]), cs) == Inside(cs)
    decreases |cs|
  {
    if cs != [] {
      var front, last := cs[..|cs| - 1], cs[|cs| - 1];
      WalkNames(front);
      WalkOneMore(Inside([]), front, last);
      assert front + [last] == cs;
    }
  }

  /** Rejection as unsafe is climbing above the root. */
  lemma {:induction false} ClimbsMeaning(capacity: nat, absolute: bool, out: seq<string>, cs: seq<string>)
    requires Normal(absolute, out) && forall c :: c in cs ==> IsComponent(c)
    requires !PushAll(absolute, capacity, out, cs).Overflows?
    ensures PushAll(absolute, capacity, out, cs).Climbs? <==> absolute && Walk(Walk(Inside([]), out), cs) == Nowhere
    decreases |cs|
  {
    if absolute {
      WalkNames(out);
    }
    if cs != [] {
      assert cs[0] in cs;
      var next := Push(absolute, capacity, out, cs[0]);
      if next.Folded? {
        PushNormal(absolute, capacity, out, cs[0]);
        PushMeaning(absolute, capacity, out, cs[0], Inside([]));
        ClimbsMeaning(capacity, absolute, next.out, cs[1..]);
      } else {
        WalkNowhere(cs[1..]);
      }
    }
  }

  // ---- Lengths ----

  lemma JoinLength(cs: seq<string>, c: string)
    ensures |Join(cs + [c])| == |Join(cs)| + |c| + if cs == [] then 0 else 1
  {
    assert (cs + [c])[..|cs|] == cs;
  }

  lemma JoinPrefix(cs: seq<string>, rest: seq<string>)
    ensures |Join(cs)| <= |Join(cs + rest)|
    decreases |rest|
  {
    if rest == [] {
      assert cs + rest == cs;
    } else {
      JoinLength(cs, rest[0]);
      JoinPrefix(cs + [rest[0]], rest[1..]);
      assert cs + [rest[0]] + rest[1..] == cs + rest;
    }
  }

  /** The room a suffix may still need behind the components built so far. */
  function Room(absolute: bool, out: seq<string>, s: string): nat {
    |Render(absolute, out)| + |s| + if out != [] && s != "" && s[0] != '/' then 1 else 0
  }

  lemma PushRoom(absolute: bool, capacity: nat, out: seq<string>, c: string, rest: string)
    requires IsComponent(c) && (rest == "" || rest[0] == '/')
    requires Room(absolute, out, c + rest) < capacity
    ensures
      var next := Push(absolute, capacity, out, c);
      !next.Overflows? && (next.Folded? ==> Room(absolute, next.out, rest) < capacity)
  {
    assert c[0] in c && (c + rest)[0] == c[0];
    JoinLength(out, c);
    if c == ".." && out != [] {
      JoinPrefix(out[..|out| - 1], [out[|out| - 1]]);
      assert out[..|out| - 1] + [out[|out| - 1]] == out;
    }
  }

  lemma {:induction false} RoomSuffices(absolute: bool, capacity: nat, out: seq<string>, s: string)
    requires Room(absolute, out, s) < capacity
    ensures !PushAll(absolute, capacity, out, Components(s)).Overflows?
    decreases |s|
  {
    if s != "" && s[0] == '/' {
      RoomSuffices(absolute, capacity, out, s[1..]);
    } else if s != "" {
      var k := SegmentLength(s);
      var c, rest := s[..k], s[k..];
      assert s == c + rest && Components(s) == [c] + Components(rest);
      PushRoom(absolute, capacity, out, c, rest);
      var next := Push(absolute, capacity, out, c);
      assert Components(s)[0] == c && Components(s)[1..] == Components(rest);
      if next.Folded? {
        RoomSuffices(absolute, capacity, next.out, rest);
      }
    }
  }

  lemma {:induction false} FoldedFits(absolute: bool, capacity: nat, out: seq<string>, cs: seq<string>)
    requires |Render(absolute, out)| < capacity && PushAll(absolute, capacity, out, cs).Folded?
    ensures |Render(absolute, PushAll(absolute, capacity, out, cs).out)| < capacity
    decreases |cs|
  {
    if cs != [] {
      var next := Push(absolute, capacity, out, cs[0]).out;
      if |next| < |out| {
        JoinPrefix(next, [out[|out| - 1]]);
        assert next + [out[|out| - 1]] == out;
      }
      FoldedFits(absolute, capacity, next, cs[1..]);
    }
  }

  /** A normal form is its own fold. */
  lemma {:induction false} NormalFolds(absolute: bool, capacity: nat, out: seq<string>, cs: seq<string>)
    requires Normal(absolute, out + cs) && |Render(absolute, out + cs)| < capacity
    ensures PushAll(absolute, capacity, out, cs) == Folded(out + cs)
    decreases |cs|
  {
    if cs == [] {
      assert out + cs == out;
    } else {
      var c := cs[0];
      assert (out + cs)[|out|] == c;
      assert c == ".." && out != [] ==> (out + cs)[|out| - 1] == "..";
      assert out + [c] + cs[1..] == out + cs;
      JoinPrefix(out + [c], cs[1..]);
      NormalFolds(absolute, capacity, out + [c], cs[1..]);
    }
  }

  // ---- The main results ----

  /** From every working directory the normalised path leads where the input does, and nowhere
      exactly when the input leads nowhere. */
  lemma MeaningPreserved(s: string, capacity: nat, cwd: seq<string>)
    requires Normalize(s, capacity).Normalized?
    ensures Meaning(cwd, Normalize(s, capacity).text) == Meaning(cwd, s)
  {
    var absolute := Absolute(s);
    var p := Inside(if absolute then [] else cwd);
    var out := PushAll(absolute, capacity, [], Components(s)).out;
    PushAllKeeps(absolute, capacity, [], Components(s), p);
    RenderStart(absolute, out);
    ComponentsOfRender(absolute, out);
    if Render(absolute, out) == "" {
      OneComponent(".");
      assert Walk(p, ["."]) == p;
    }
  }

  /** Absolute paths are refused as unsafe exactly when they climb above the root; relative ones never. */
  lemma UnsafeIffClimbs(s: string, capacity: nat, cwd: seq<string>)
    requires Normalize(s, capacity) != PathTooLong
    ensures Normalize(s, capacity) == UnsafePath <==> Absolute(s) && Meaning(cwd, s) == Nowhere
  {
    ClimbsMeaning(capacity, Absolute(s), [], Components(s));
  }

  /** The result is the bare "." or a normal form printed with single slashes. */
  lemma ResultShape(s: string, capacity: nat)
    requires Normalize(s, capacity).Normalized?
    ensures
      var text := Normalize(s, capacity).text;
      && 0 < |text| < capacity
      && Absolute(text) == Absolute(s)
      && (text == "." || (Normal(Absolute(s), Components(text)) && text == Render(Absolute(s), Components(text))))
  {
    var absolute := Absolute(s);
    var out := PushAll(absolute, capacity, [], Components(s)).out;
    PushAllKeeps(absolute, capacity, [], Components(s), Nowhere);
    RenderStart(absolute, out);
    ComponentsOfRender(absolute, out);
    if capacity > 0 && (absolute ==> capacity > 1) {
      FoldedFits(absolute, capacity, [], Components(s));
    } else {
      EmptyBuffer(Components(s));
    }
  }

  /** A buffer with no room at all accepts no component. */
  lemma {:induction false} EmptyBuffer(cs: seq<string>)
    ensures PushAll(false, 0, [], cs).Folded? ==> PushAll(false, 0, [], cs).out == []
    decreases |cs|
  {
    if cs != [] && cs[0] == "." {
      EmptyBuffer(cs[1..]);
    }
  }

  lemma NormalizeNormal(absolute: bool, cs: seq<string>, capacity: nat)
    requires Normal(absolute, cs) && Render(absolute, cs) != "" && |Render(absolute, cs)| < capacity
    ensures Normalize(Render(absolute, cs), capacity) == Normalized(Render(absolute, cs))
  {
    RenderStart(absolute, cs);
    ComponentsOfRender(absolute, cs);
    assert [] + cs == cs;
    NormalFolds(absolute, capacity, [], cs);
  }

  /** Normalising a result again, in any buffer that holds it, changes nothing. */
  lemma Idempotent(s: string, capacity: nat, other: nat)
    requires Normalize(s, capacity).Normalized? && |Normalize(s, capacity).text| < other
    ensures Normalize(Normalize(s, capacity).text, other) == Normalize(s, capacity)
  {
    var text := Normalize(s, capacity).text;
    ResultShape(s, capacity);
    if text == "." {
      OneComponent(".");
      assert PushAll(false, other, [], ["."]) == Folded([]);
    } else {
      NormalizeNormal(Absolute(s), Components(text), other);
    }
  }

  /** A buffer longer than the input always suffices; two characters are needed in any case. */
  lemma NeverTooLong(s: string, capacity: nat)
    requires |s| < capacity
    ensures Normalize(s, capacity) == PathTooLong <==> s == "" && capacity == 1
  {
    if Absolute(s) {
      var tail := s[1..];
      assert Components(s) == Components(tail);
      RoomSuffices(true, capacity, [], tail);
    } else {
      RoomSuffices(false, capacity, [], s);
    }
  }
}
