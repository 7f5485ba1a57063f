/** Path normalisation in a caller's buffer with an undo stack of lengths. */
module PathBuffer {
  import opened PathNormalizer

  datatype Status = PathOk | PathUnsafe | PathLong

  function StatusOf(o: Outcome): Status {
    match o
    case Normalized(_) => PathOk
    case UnsafePath => PathUnsafe
    case PathTooLong => PathLong
  }

  method SkipSlashes(input: string, cursor: nat) returns (start: nat)
    requires cursor <= |input|
    ensures cursor <= start <= |input| && (start < |input| ==> input[start] != '/')
    ensures Components(input[start..]) == Components(input[cursor..])
  {
    start := cursor;
    while start < |input| && input[start] == '/'
      invariant cursor <= start <= |input|
      invariant Components(input[start..]) == Components(input[cursor..])
    {
      assert input[start..][1..] == input[start + 1..];
      start := start + 1;
    }
  }

  method FindSlash(input: string, start: nat) returns (stop: nat)
    requires start <= |input|
    ensures start <= stop <= |input| && '/' !in input[start..stop] && (stop < |input| ==> input[stop] == '/')
  {
    stop := start;
    while stop < |input| && input[stop] != '/'
      invariant start <= stop <= |input|
      invariant '/' !in input[start..stop]
    {
      stop := stop + 1;
    }
  }

  lemma SegmentFound(input: string, start: nat, stop: nat)
    requires start < stop <= |input| && '/' !in input[start..stop] && (stop < |input| ==> input[stop] == '/')
    ensures Components(input[start..]) == [input[start..stop]] + Components(input[stop..])
  {
    var s, c, rest := input[start..], input[start..stop], input[stop..];
    assert s == c + rest;
    SegmentOf(c, rest);
    assert c[0] in c;
    assert s[..|c|] == c && s[|c|..] == rest;
  }

  /** Finds the next component: slashes are skipped, then everything up to the next slash. */
  method NextSegment(input: string, cursor: nat) returns (start: nat, stop: nat)
    requires cursor <= |input|
    ensures cursor <= start <= stop <= |input|
    ensures start == stop ==> stop == |input| && Components(input[cursor..]) == []
    ensures start < stop ==> Components(input[cursor..]) == [input[start..stop]] + Components(input[stop..])
  {
    start := SkipSlashes(input, cursor);
    stop := FindSlash(input, start);
    if start < stop {
      SegmentFound(input, start, stop);
    }
  }

  method CopyInto(output: array<char>, at: nat, text: string)
    requires at + |text| <= output.Length
    modifies output
    ensures output[..at + |text|] == old(output[..at]) + text
  {
    for i := 0 to |text|
      invariant output[..at + i] == old(output[..at]) + text[..i]
    {
      output[at + i] := text[i];
    }
  }

  /** `append_component`: a separator where one is needed, the component and the terminator. */
  method AppendComponent(output: array<char>, length: nat, component: string) returns (ok: bool, newLength: nat)
    requires length <= output.Length
    modifies output
    ensures
      var separator := if length != 0 && old(output[length - 1]) != '/' then "/" else "";
      var text := old(output[..length]) + separator + component;
      && ok == (|text| + 1 <= output.Length)
      && newLength == (if ok then |text| else length)
      && (ok ==> output[..newLength] == text && output[newLength] == '\0')
      && (!ok ==> output[..] == old(output[..]))
  {
    var separate := length != 0 && output[length - 1] != '/';
    newLength := length;
    ok := length + |component| + 1 + (if separate then 1 else 0) <= output.Length;
    if ok {
      if separate {
        output[newLength] := '/';
        newLength := newLength + 1;
      }
      CopyInto(output, newLength, component);
      newLength := newLength + |component|;
      output[newLength] := '\0';
    }
  }

  /** The text in the buffer and the undo stack describe the component list `out`. */
  ghost predicate Describes(absolute: bool, out: seq<string>, text: string, restore: seq<nat>, parents: seq<bool>) {
    && Normal(absolute, out) && text == Render(absolute, out)
    && |out| <= |restore| && |out| <= |parents|
    && (forall i :: 0 <= i < |out| ==> restore[i] == |Render(absolute, out[..i])|)
    && (forall i :: 0 <= i < |out| ==> parents[i] == (out[i] == ".."))
  }

  /** The separator rule produces exactly the rendering with one more component. */
  lemma AppendRenders(absolute: bool, out: seq<string>, c: string)
    requires Normal(absolute, out)
    ensures
      var text := Render(absolute, out);
      var separator := if text != "" && text[|text| - 1] != '/' then "/" else "";
      text + separator + c == Render(absolute, out + [c])
  {
    JoinStart(out);
    assert (out + [c])[..|out|] == out;
  }

  lemma RenderPrefix(absolute: bool, out: seq<string>)
    requires out != []
    ensures
      var shorter := Render(absolute, out[..|out| - 1]);
      |shorter| <= |Render(absolute, out)| && Render(absolute, out)[..|shorter|] == shorter
  {
    var front := out[..|out| - 1];
    assert out == front + [out[|out| - 1]];
  }

  lemma PushDescribes(absolute: bool, out: seq<string>, c: string, text: string, restore: seq<nat>, parents: seq<bool>)
    requires Describes(absolute, out, text, restore, parents)
    requires |out| < |restore| && |out| < |parents| && Normal(absolute, out + [c])
    ensures Describes(absolute, out + [c], Render(absolute, out + [c]), restore[|out| := |text|],
                      parents[|out| := c == ".."])
  {
    var longer := out + [c];
    forall i | 0 <= i < |longer|
      ensures restore[|out| := |text|][i] == |Render(absolute, longer[..i])|
    {
      assert longer[..i] == if i < |out| then out[..i] else out;
    }
  }

  lemma PopDescribes(absolute: bool, out: seq<string>, text: string, restore: seq<nat>, parents: seq<bool>)
    requires Describes(absolute, out, text, restore, parents) && out != []
    ensures
      var front := out[..|out| - 1];
      && restore[|out| - 1] <= |text|
      && Describes(absolute, front, text[..restore[|out| - 1]], restore, parents)
  {
    var front := out[..|out| - 1];
    RenderPrefix(absolute, out);
    forall i | 0 <= i < |front|
      ensures restore[i] == |Render(absolute, front[..i])|
    {
      assert front[..i] == out[..i];
    }
  }

  lemma FoldStep(absolute: bool, capacity: nat, out: seq<string>, c: string, rest: seq<string>)
    ensures
      var next := Push(absolute, capacity, out, c);
      PushAll(absolute, capacity, out, [c] + rest)
      == if next.Folded? then PushAll(absolute, capacity, next.out, rest) else next
  {
    assert ([c] + rest)[1..] == rest;
  }

  /** The variables of one normalisation: the output, the undo stack and the current lengths. */
  class Builder {
    const absolute: bool
    const output: array<char>
    const restore: array<nat>
    const parents: array<bool>
    var count: nat
    var length: nat
    ghost var out: seq<string>

    ghost predicate Valid()
      reads this, output, restore, parents
    {
      && |out| == count && length <= output.Length
      && Describes(absolute, out, output[..length], restore[..], parents[..])
      && (length > 0 ==> length < output.Length && output[length] == '\0')
    }

    /** An empty path, or the root, which takes two characters. */
    constructor (input: string, buffer: array<char>)
      requires Absolute(input) ==> buffer.Length >= 2
      modifies buffer
      ensures Valid() && out == [] && output == buffer && absolute == Absolute(input)
      ensures restore.Length == parents.Length == |input| + 1 && fresh(restore) && fresh(parents)
    {
      absolute, output := Absolute(input), buffer;
      restore := new nat[|input| + 1];
      parents := new bool[|input| + 1];
      count, out := 0, [];
      length := if Absolute(input) then 1 else 0;
      new;
      if absolute {
        output[0], output[1] := '/', '\0';
      }
    }

    method Pop()
      requires Valid() && out != []
      modifies this, output
      ensures Valid() && out == old(out)[..|old(out)| - 1]
    {
      JoinStart(out);
      PopDescribes(absolute, out, output[..length], restore[..], parents[..]);
      ghost var text := output[..length];
      count := count - 1;
      length := restore[count];
      out := out[..count];
      assert output[..length] == text[..length];
      output[length] := '\0';
    }

    method Append(c: string) returns (ok: bool)
      requires Valid() && count < restore.Length && count < parents.Length && Normal(absolute, out + [c])
      modifies this, output, restore, parents
      ensures ok == (|Render(absolute, old(out) + [c])| + 1 <= output.Length)
      ensures ok ==> Valid() && out == old(out) + [c]
    {
      AppendRenders(absolute, out, c);
      ghost var text := output[..length];
      PushDescribes(absolute, out, c, text, restore[..], parents[..]);
      var newLength;
      ok, newLength := AppendComponent(output, length, c);
      if ok {
        restore[count] := length;
        parents[count] := c == "..";
        count, length, out := count + 1, newLength, out + [c];
      }
    }
  }

  /** `normalize_path`: the buffer ends up holding the component-list normal form and a terminator,
      or the status says why not. */
  method NormalizePath(input: string, output: array<char>) returns (status: Status, length: nat)
    modifies output
    ensures status == StatusOf(Normalize(input, output.Length))
    ensures status == PathOk ==>
              && length < output.Length && output[length] == '\0'
              && output[..length] == Normalize(input, output.Length).text
  {
    length := 0;
    if Absolute(input) && output.Length < 2 {
      status := PathLong;
      return;
    }
    var b := new Builder(input, output);
    var cursor: nat := 0;
    ghost var total := PushAll(b.absolute, output.Length, [], Components(input));
    assert input[0..] == input;
    while cursor < |input|
      invariant b.Valid() && b.count <= cursor <= |input|
      invariant PushAll(b.absolute, output.Length, b.out, Components(input[cursor..])) == total
    {
      var start, stop := NextSegment(input, cursor);
      cursor := stop;
      if start < stop {
        FoldStep(b.absolute, output.Length, b.out, input[start..stop], Components(input[stop..]));
        status := AddComponent(b, input[start..stop]);
        if status != PathOk {
          return;
        }
      }
    }
    status, length := Close(b);
  }

  /** One component of the input. */
  method AddComponent(b: Builder, c: string) returns (status: Status)
    requires b.Valid() && IsComponent(c) && b.count < b.restore.Length && b.count < b.parents.Length
    modifies b, b.output, b.restore, b.parents
    ensures
      var next := Push(b.absolute, b.output.Length, old(b.out), c);
      && (status == PathOk <==> next.Folded?) && (status == PathUnsafe <==> next.Climbs?)
      && (status == PathOk ==> b.Valid() && b.out == next.out && |b.out| <= |old(b.out)| + 1)
  {
    status := PathOk;
    if c == "." {
      return;
    }
    if c == ".." && b.count != 0 && !b.parents[b.count - 1] {
      b.Pop();
    } else if c == ".." && b.absolute {
      status := PathUnsafe;
    } else {
      var ok := b.Append(c);
      status := if ok then PathOk else PathLong;
    }
  }

  /** An empty result becomes ".". */
  method Close(b: Builder) returns (status: Status, length: nat)
    requires b.Valid()
    modifies b.output
    ensures
      var o := Finish(b.absolute, b.output.Length, Folded(b.out));
      && status == StatusOf(o)
      && (status == PathOk ==> length < b.output.Length && b.output[length] == '\0' && b.output[..length] == o.text)
  {
    status, length := PathOk, b.length;
    if b.length == 0 {
      if b.output.Length < 2 {
        status := PathLong;
      } else {
        b.output[0], b.output[1], length := '.', '\0', 1;
      }
    }
  }
}
