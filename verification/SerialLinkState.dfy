/** The saved link state of a Game Boy pair. */
module SerialLinkState {
  import opened Wrappers
  import opened Bytes
  import opened LittleEndian

  const SIZE: nat := 32
  const VERSION: nat := 1
  const HALF: nat := 2
  const WORD: nat := 0x1_0000_0000_0000_0000
  const MAX_SKEW: nat := 1_048_576
  const MAGIC: seq<byte> := [0x44, 0x42, 0x53, 0x4C]

  /** The flags that are written as single bytes. */
  datatype Lines = Lines(enabled: bool, serial0: bool, serial1: bool, infrared0: bool, infrared1: bool)

  datatype LinkState = LinkState(lines: Lines, skew: int)

  function Bit(b: bool): byte {
    if b then 1 else 0
  }

  function PutLines(l: Lines): (r: seq<byte>)
    ensures |r| == 8
  {
    [Bit(l.enabled), Bit(l.serial0), Bit(l.serial1), Bit(l.infrared0), Bit(l.infrared1), 0, 0, 0]
  }

  /** Two's complement of a signed 64-bit skew. */
  function PutSkew(skew: int): nat {
    skew % WORD
  }

  function Head(): (r: seq<byte>)
    ensures |r| == 8
  {
    MAGIC + Put(VERSION, HALF) + Put(SIZE, HALF)
  }

  /** `sameboy_serialize_link`. */
  function Encode(s: LinkState): (r: seq<byte>)
    ensures |r| == SIZE
  {
    Head() + PutLines(s.lines) + PutU64(PutSkew(s.skew)) + [0, 0, 0, 0, 0, 0, 0, 0]
  }

  /** `decode_serialized_skew`. */
  function DecodeSkew(encoded: nat): Option<int>
    requires encoded < WORD
  {
    if encoded <= MAX_SKEW then Some(encoded)
    else if encoded >= WORD - MAX_SKEW then Some(-((WORD - 1 - encoded + 1) % WORD))
    else None
  }

  predicate LinesValid(b: seq<byte>)
    requires |b| == 8
  {
    b[0] <= 1 && b[1] <= 1 && b[2] <= 1 && b[3] <= 1 && b[4] <= 1 && b[5] == 0 && b[6] == 0 && b[7] == 0
  }

  function GetLines(b: seq<byte>): Lines
    requires |b| == 8
  {
    Lines(b[0] != 0, b[1] != 0, b[2] != 0, b[3] != 0, b[4] != 0)
  }

  predicate HeadValid(b: seq<byte>)
    requires |b| == 8
  {
    b[..4] == MAGIC && Get(b[4..6]) == VERSION && Get(b[6..8]) == SIZE
  }

  predicate AllZero(b: seq<byte>) {
    forall i :: 0 <= i < |b| ==> b[i] == 0
  }

  function DecodeFields(head: seq<byte>, flags: seq<byte>, skewBytes: seq<byte>, rest: seq<byte>,
                        ready: bool): Option<LinkState>
    requires |head| == |flags| == |skewBytes| == 8
  {
    if !HeadValid(head) || !LinesValid(flags) || !AllZero(rest) then None
    else
      Sizes();
      var skew := DecodeSkew(Get(skewBytes));
      var lines := GetLines(flags);
      if skew.None? || (lines.enabled && !ready) then None else Some(LinkState(lines, skew.value))
  }

  /** `sameboy_unserialize_link` for a pair that is fully loaded or not. */
  function Decode(b: seq<byte>, ready: bool): Option<LinkState> {
    if |b| != SIZE then None else DecodeFields(b[..8], b[8..16], b[16..24], b[24..], ready)
  }

  // ---- Skew ----

  predicate Representable(skew: int) {
    -(WORD as int / 2) <= skew < WORD / 2
  }

  /** Decoding inverts encoding for exactly the skews up to 2^20 in magnitude. */
  lemma SkewRoundTrip(skew: int)
    requires Representable(skew)
    ensures DecodeSkew(PutSkew(skew)) == if -(MAX_SKEW as int) <= skew <= MAX_SKEW then Some(skew) else None
  {
    if skew < 0 {
      assert skew % WORD == skew + WORD;
    } else {
      assert skew % WORD == skew;
    }
  }

  lemma SkewCanonical(encoded: nat)
    requires encoded < WORD && DecodeSkew(encoded).Some?
    ensures PutSkew(DecodeSkew(encoded).value) == encoded && -(MAX_SKEW as int) <= DecodeSkew(encoded).value <= MAX_SKEW
  {
    if encoded > MAX_SKEW {
      assert DecodeSkew(encoded).value == encoded - WORD;
      assert (encoded - WORD) % WORD == encoded;
    }
  }

  // ---- The whole record ----

  lemma Parts(a: seq<byte>, b: seq<byte>, c: seq<byte>, d: seq<byte>)
    requires |a| == |b| == |c| == 8
    ensures
      var s := a + b + c + d;
      s[..8] == a && s[8..16] == b && s[16..24] == c && s[24..] == d
  {
  }

  lemma HeadReads()
    ensures HeadValid(Head())
  {
    var v, z := Put(VERSION, HALF), Put(SIZE, HALF);
    assert Head()[..4] == MAGIC && Head()[4..6] == v && Head()[6..8] == z;
    assert Pow256(HALF) == 0x1_0000;
    GetPut(VERSION, HALF);
    GetPut(SIZE, HALF);
  }

  lemma LinesRead(l: Lines)
    ensures LinesValid(PutLines(l)) && GetLines(PutLines(l)) == l
  {
  }

  /** A saved state comes back exactly when its skew is at most 2^20 in magnitude and a linked state
      meets a fully loaded pair. */
  lemma RoundTrip(s: LinkState, ready: bool)
    requires Representable(s.skew)
    ensures Decode(Encode(s), ready)
         == if -(MAX_SKEW as int) <= s.skew <= MAX_SKEW && (s.lines.enabled ==> ready) then Some(s) else None
  {
    Parts(Head(), PutLines(s.lines), PutU64(PutSkew(s.skew)), [0, 0, 0, 0, 0, 0, 0, 0]);
    FieldsRead(s, Head(), PutLines(s.lines), PutU64(PutSkew(s.skew)), [0, 0, 0, 0, 0, 0, 0, 0], ready);
  }

  lemma FieldsRead(s: LinkState, head: seq<byte>, flags: seq<byte>, skewBytes: seq<byte>, rest: seq<byte>, ready: bool)
    requires Representable(s.skew) && AllZero(rest)
    requires head == Head() && flags == PutLines(s.lines) && skewBytes == PutU64(PutSkew(s.skew))
    ensures DecodeFields(head, flags, skewBytes, rest, ready)
         == if -(MAX_SKEW as int) <= s.skew <= MAX_SKEW && (s.lines.enabled ==> ready) then Some(s) else None
  {
    HeadReads();
    LinesRead(s.lines);
    GetPutU64(PutSkew(s.skew));
    SkewRoundTrip(s.skew);
  }

  lemma HeadCanonical(b: seq<byte>)
    requires |b| == 8 && HeadValid(b)
    ensures b == Head()
  {
    PutGet(b[4..6]);
    PutGet(b[6..8]);
    assert b == b[..4] + b[4..6] + b[6..8];
  }

  lemma BitBack(b: byte)
    requires b <= 1
    ensures Bit(b != 0) == b
  {
  }

  lemma LinesCanonical(b: seq<byte>)
    requires |b| == 8 && LinesValid(b)
    ensures PutLines(GetLines(b)) == b
  {
    BitBack(b[0]);
    BitBack(b[1]);
    BitBack(b[2]);
    BitBack(b[3]);
    BitBack(b[4]);
  }

  lemma Rejoin(b: seq<byte>)
    requires |b| == SIZE
    ensures b == b[..8] + b[8..16] + b[16..24] + b[24..]
  {
  }

  /** Only the encoding of a state is ever accepted as that state. */
  lemma Canonical(b: seq<byte>, ready: bool)
    requires Decode(b, ready).Some?
    ensures Encode(Decode(b, ready).value) == b
  {
    HeadCanonical(b[..8]);
    LinesCanonical(b[8..16]);
    Sizes();
    SkewCanonical(Get(b[16..24]));
    PutGet(b[16..24]);
    assert b[24..] == [0, 0, 0, 0, 0, 0, 0, 0];
    Rejoin(b);
  }
}
