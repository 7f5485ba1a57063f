/** The mirror of a cartridge save, fed by circular ranges of committed bytes. */
module SaveShadow {
  import opened Bytes

  /** How many bytes a callback commits; zero stands for the whole device. */
  function Committed(length: nat, size: nat): nat {
    if length == 0 then size else length
  }

  /** Byte `i` lies in the range that starts at `offset` and wraps at the end of the device. */
  predicate InRange(i: nat, offset: nat, length: nat, size: nat)
    requires i < size && offset < size
  {
    length == 0 || (if i >= offset then i - offset else i + size - offset) < length
  }

  /** A callback reports every byte that changed since the last one. */
  predicate ChangesWithin(before: seq<byte>, after: seq<byte>, offset: nat, length: nat) {
    && |before| == |after|
    && (offset < |before| ==>
          forall i :: 0 <= i < |before| && !InRange(i, offset, length, |before|) ==> after[i] == before[i])
    && (offset >= |before| ==> before == after)
  }

  datatype Commit = Commit(data: seq<byte>, offset: nat, length: nat)

  class Shadow {
    const bytes: array<byte>
    var dirty: bool

    constructor (image: seq<byte>)
      ensures fresh(bytes) && bytes[..] == image && !dirty
    {
      bytes := new byte[|image|] (i requires 0 <= i < |image| => image[i]);
      dirty := false;
    }

    method CopyRange(data: seq<byte>, from: nat, count: nat)
      requires from + count <= bytes.Length == |data|
      modifies bytes
      ensures forall i :: 0 <= i < bytes.Length ==>
                            bytes[i] == if from <= i < from + count then data[i] else old(bytes[i])
    {
      for k := from to from + count
        invariant forall i :: 0 <= i < bytes.Length ==> bytes[i] == if from <= i < k then data[i] else old(bytes[i])
      {
        bytes[k] := data[k];
      }
    }

    /** `WriteNDSSave`: exactly the bytes of the circular range are taken over. */
    method Write(data: seq<byte>, offset: nat, length: nat)
      modifies this`dirty, bytes
      ensures
        var size := bytes.Length;
        if |data| != size || offset >= size then bytes[..] == old(bytes[..]) && dirty == old(dirty)
        else dirty && forall i :: 0 <= i < size ==>
                                    bytes[i] == if InRange(i, offset, length, size) then data[i] else old(bytes[i])
    {
      var size := bytes.Length;
      if |data| != size || size == 0 || offset >= size {
        return;
      }
      var committed := Committed(length, size);
      var tail := if committed < size - offset then committed else size - offset;
      CopyRange(data, offset, tail);
      var wrapped := if committed - tail < size then committed - tail else size;
      CopyRange(data, 0, wrapped);
      dirty := true;
    }
  }

  predicate Chain(image: seq<byte>, commits: seq<Commit>)
    decreases |commits|
  {
    commits == [] ||
    (ChangesWithin(image, commits[0].data, commits[0].offset, commits[0].length)
     && Chain(commits[0].data, commits[1..]))
  }

  function Last(image: seq<byte>, commits: seq<Commit>): seq<byte>
    decreases |commits|
  {
    if commits == [] then image else Last(commits[0].data, commits[1..])
  }

  /** While every change of the live save is reported by a range around it, the mirror equals the
      live save after every series of callbacks. */
  method Follow(image: seq<byte>, commits: seq<Commit>) returns (s: Shadow)
    requires Chain(image, commits)
    ensures s.bytes[..] == Last(image, commits)
  {
    s := new Shadow(image);
    ghost var live := image;
    for n := 0 to |commits|
      invariant fresh(s) && fresh(s.bytes) && s.bytes[..] == live
      invariant Chain(live, commits[n..]) && Last(live, commits[n..]) == Last(image, commits)
    {
      var c := commits[n];
      assert commits[n..][0] == c && commits[n..][1..] == commits[n + 1..];
      s.Write(c.data, c.offset, c.length);
      assert s.bytes[..] == c.data;
      live := c.data;
    }
  }
}
