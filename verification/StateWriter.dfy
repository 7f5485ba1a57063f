/** Writing a paired savestate into the caller's buffer. */
module StateWriter {
  import opened Bytes
  import opened Checksum
  import opened LittleEndian
  import opened StateContainer

  function Zeros(n: nat): (r: seq<byte>)
    ensures |r| == n
  {
    seq(n, _ => 0)
  }

  lemma PutZero(k: nat)
    ensures Put(0, k) == Zeros(k)
  {
    if k > 0 {
      PutZero(k - 1);
      assert Zeros(k) == [0] + Zeros(k - 1);
    }
  }

  /** Bytes from `from` on are as they were in `was`. */
  ghost predicate Kept(now: seq<byte>, was: seq<byte>, from: nat) {
    |now| == |was| && forall k :: from <= k < |now| ==> now[k] == was[k]
  }

  /** Stores a field behind a finished prefix. */
  method Store(buffer: array<byte>, ghost prefix: seq<byte>, at: nat, field: seq<byte>)
    requires at == |prefix| && at + |field| <= buffer.Length && buffer[..at] == prefix
    modifies buffer
    ensures buffer[..at + |field|] == prefix + field
    ensures Kept(buffer[..], old(buffer[..]), at + |field|)
  {
    for i := 0 to |field|
      invariant buffer[..at + i] == prefix + field[..i]
      invariant Kept(buffer[..], old(buffer[..]), at + i)
    {
      buffer[at + i] := field[i];
      assert field[..i + 1] == field[..i] + [field[i]];
    }
    assert field[..|field|] == field;
  }

  /** Stores four fields in a row. */
  method StoreFour(buffer: array<byte>, ghost prefix: seq<byte>, at: nat,
                   a: seq<byte>, b: seq<byte>, c: seq<byte>, d: seq<byte>)
    requires at + |a| + |b| + |c| + |d| <= buffer.Length && at == |prefix| && buffer[..at] == prefix
    modifies buffer
    ensures buffer[..at + |a| + |b| + |c| + |d|] == prefix + (a + b + c + d)
    ensures Kept(buffer[..], old(buffer[..]), at + |a| + |b| + |c| + |d|)
  {
    Store(buffer, prefix, at, a);
    Store(buffer, prefix + a, at + |a|, b);
    Store(buffer, prefix + a + b, at + |a| + |b|, c);
    Store(buffer, prefix + a + b + c, at + |a| + |b| + |c|, d);
    assert prefix + a + b + c + d == prefix + (a + b + c + d);
  }

  method StoreStart(buffer: array<byte>, total: nat)
    requires buffer.Length >= HEADER
    modifies buffer
    ensures buffer[..24] == StartGroup(total) && Kept(buffer[..], old(buffer[..]), 24)
  {
    StoreFour(buffer, [], 0, MAGIC, PutU32(VERSION), PutU32(HEADER), PutU64(total));
  }

  method StorePlatforms(buffer: array<byte>, ghost prefix: seq<byte>, id: Identity, linkEnabled: bool)
    requires buffer.Length >= HEADER && |prefix| == 24 && buffer[..24] == prefix
    modifies buffer
    ensures buffer[..40] == prefix + PlatformGroup(id, linkEnabled) && Kept(buffer[..], old(buffer[..]), 40)
  {
    StoreFour(buffer, prefix, 24, PutU32(id.family), PutU32(id.platform0), PutU32(id.platform1),
              PutU32(if linkEnabled then 1 else 0));
  }

  method StoreRoms(buffer: array<byte>, ghost prefix: seq<byte>, id: Identity)
    requires buffer.Length >= HEADER && |prefix| == 40 && buffer[..40] == prefix
    modifies buffer
    ensures buffer[..64] == prefix + RomGroup(id) && Kept(buffer[..], old(buffer[..]), 64)
  {
    StoreFour(buffer, prefix, 40, PutU64(|id.rom0|), PutU64(|id.rom1|),
              CheckBytes(id.rom0), CheckBytes(id.rom1));
  }

  method StoreLengths(buffer: array<byte>, ghost prefix: seq<byte>, p: Payload)
    requires buffer.Length >= HEADER && |prefix| == 64 && buffer[..64] == prefix
    modifies buffer
    ensures buffer[..88] == prefix + LengthGroup(|p.machine0|, |p.machine1|, |p.link|)
    ensures Kept(buffer[..], old(buffer[..]), 88)
  {
    StoreFour(buffer, prefix, 64, PutU64(|p.machine0|), PutU64(|p.machine1|), PutU64(|p.link|), []);
    assert LengthGroup(|p.machine0|, |p.machine1|, |p.link|) + [] == LengthGroup(|p.machine0|, |p.machine1|, |p.link|);
  }

  method StoreChecks(buffer: array<byte>, ghost prefix: seq<byte>, p: Payload)
    requires buffer.Length >= HEADER && |prefix| == 88 && buffer[..88] == prefix
    requires forall k :: 100 <= k < CHECKED_HEADER ==> buffer[k] == 0
    modifies buffer
    ensures buffer[..CHECKED_HEADER] == prefix + CheckGroup(p, PutU64(0))
    ensures Kept(buffer[..], old(buffer[..]), CHECKED_HEADER)
  {
    var x, y, z := CheckBytes(p.machine0), CheckBytes(p.machine1), CheckBytes(p.link);
    StoreFour(buffer, prefix, 88, x, y, z, []);
    PutZero(U64_BYTES);
    assert buffer[..CHECKED_HEADER] == buffer[..100] + Zeros(8);
    assert prefix + (x + y + z + []) + Zeros(8) == prefix + (x + y + z + Zeros(8));
  }

  method StoreFirst(buffer: array<byte>, id: Identity, p: Payload)
    requires buffer.Length >= HEADER
    modifies buffer
    ensures buffer[..64] == FirstGroups(id, p) && Kept(buffer[..], old(buffer[..]), 64)
  {
    StoreStart(buffer, Total(p));
    StorePlatforms(buffer, StartGroup(Total(p)), id, p.linkEnabled);
    StoreRoms(buffer, StartGroup(Total(p)) + PlatformGroup(id, p.linkEnabled), id);
  }

  lemma Associative(a: seq<byte>, b: seq<byte>, c: seq<byte>)
    ensures a + b + c == a + (b + c)
  {
  }

  lemma TailKept(now: seq<byte>, was: seq<byte>, from: nat, at: nat)
    requires Kept(now, was, from) && from <= at <= |now|
    ensures now[at..] == was[at..]
  {
  }

  method StoreLast(buffer: array<byte>, ghost prefix: seq<byte>, p: Payload)
    requires buffer.Length >= HEADER && |prefix| == 64 && buffer[..64] == prefix
    requires forall k :: 100 <= k < CHECKED_HEADER ==> buffer[k] == 0
    modifies buffer
    ensures buffer[..CHECKED_HEADER] == prefix + LastGroups(p, PutU64(0))
    ensures Kept(buffer[..], old(buffer[..]), CHECKED_HEADER)
  {
    ghost var lengths := LengthGroup(|p.machine0|, |p.machine1|, |p.link|);
    StoreLengths(buffer, prefix, p);
    StoreChecks(buffer, prefix + lengths, p);
    Associative(prefix, lengths, CheckGroup(p, PutU64(0)));
  }

  /** The header fields in the order they are written; the reserved bytes are still zero. */
  method StoreHeader(buffer: array<byte>, id: Identity, p: Payload)
    requires buffer.Length >= HEADER
    requires forall k :: 100 <= k < CHECKED_HEADER ==> buffer[k] == 0
    modifies buffer
    ensures buffer[..CHECKED_HEADER] == CheckedHeader(id, p, PutU64(0))
    ensures Kept(buffer[..], old(buffer[..]), CHECKED_HEADER)
  {
    StoreFirst(buffer, id, p);
    StoreLast(buffer, FirstGroups(id, p), p);
  }

  method Clear(buffer: array<byte>)
    modifies buffer
    ensures buffer[..] == Zeros(buffer.Length)
  {
    for i := 0 to buffer.Length
      invariant buffer[..i] == Zeros(i)
    {
      buffer[i] := 0;
    }
    assert buffer[..] == buffer[..buffer.Length];
  }

  /** What follows the header. */
  function Body(p: Payload, length: nat): (r: seq<byte>)
    requires Total(p) <= length
  {
    p.machine0 + p.machine1 + p.link + Zeros(length - Total(p))
  }

  method StorePayloads(buffer: array<byte>, p: Payload)
    requires Total(p) <= buffer.Length && buffer[..] == Zeros(buffer.Length)
    modifies buffer
    ensures (forall k :: 0 <= k < HEADER ==> buffer[k] == 0) && buffer[HEADER..] == Body(p, buffer.Length)
  {
    ghost var zeros := Zeros(HEADER);
    StoreFour(buffer, zeros, HEADER, p.machine0, p.machine1, p.link, []);
    ghost var rest := p.machine0 + p.machine1 + p.link;
    assert rest + [] == rest;
    SplitAfter(buffer[..], zeros, rest, Zeros(buffer.Length - Total(p)));
    assert forall k :: 0 <= k < HEADER ==> buffer[k] == zeros[k];
  }

  lemma SplitAfter(s: seq<byte>, head: seq<byte>, rest: seq<byte>, tail: seq<byte>)
    requires |s| == |head| + |rest| + |tail| && s[..|head| + |rest|] == head + rest && s[|head| + |rest|..] == tail
    ensures s[..|head|] == head && s[|head|..] == rest + tail
  {
    assert s == s[..|head| + |rest|] + s[|head| + |rest|..];
    assert s == head + (rest + tail);
  }

  lemma Assembled(head: seq<byte>, p: Payload, s: seq<byte>)
    requires |head| == CHECKED_HEADER && Total(p) <= |s|
    requires s[..HEADER] == head + CheckBytes(head) && s[HEADER..] == Body(p, |s|)
    ensures s == Assemble(head, p) + Zeros(|s| - Total(p))
  {
    assert s == s[..HEADER] + Body(p, |s|);
    Regroup(s[..HEADER], p.machine0, p.machine1, p.link, Zeros(|s| - Total(p)));
  }

  lemma Regroup(a: seq<byte>, b: seq<byte>, c: seq<byte>, d: seq<byte>, e: seq<byte>)
    ensures a + (b + c + d + e) == a + b + c + d + e
  {
  }

  /** The checksum over the header bytes as they stand in the buffer. */
  method StoreHeaderCheck(buffer: array<byte>, ghost head: seq<byte>, ghost p: Payload)
    requires Total(p) <= buffer.Length && |head| == CHECKED_HEADER
    requires buffer[..CHECKED_HEADER] == head && buffer[HEADER..] == Body(p, buffer.Length)
    modifies buffer
    ensures buffer[..] == Assemble(head, p) + Zeros(buffer.Length - Total(p))
  {
    ghost var body := buffer[HEADER..];
    var crc := ComputeCrc32(buffer[..CHECKED_HEADER]);
    var check := WordBytes(crc);
    Store(buffer, head, CHECKED_HEADER, check);
    assert buffer[HEADER..] == body;
    Assembled(head, p, buffer[..]);
  }

  /** `dualboy_state_serialize`, for an engine that fills `p`: the buffer is cleared, the payloads
      are written back to back, then the header, then the header checksum over its own bytes. */
  method Serialize(buffer: array<byte>, id: Identity, p: Payload)
    requires Total(p) <= buffer.Length
    modifies buffer
    ensures buffer[..] == Encode(id, p) + Zeros(buffer.Length - Total(p))
  {
    Clear(buffer);
    StorePayloads(buffer, p);
    ghost var before := buffer[..];
    StoreHeader(buffer, id, p);
    TailKept(buffer[..], before, CHECKED_HEADER, HEADER);
    StoreHeaderCheck(buffer, CheckedHeader(id, p, PutU64(0)), p);
  }
}
