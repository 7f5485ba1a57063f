/** The container format of paired savestates. */
module StateContainer {
  import opened Bytes
  import opened Checksum
  import opened LittleEndian

  const HEADER: nat := 112
  const CHECKED_HEADER: nat := 108
  const SIZE_LIMIT: nat := 0x1_0000_0000_0000_0000
  const U32_LIMIT: nat := 0x1_0000_0000
  const VERSION: nat := 1
  const MAGIC: seq<byte> := [0x44, 0x55, 0x41, 0x4C, 0x42, 0x53, 0x54, 0x00]

  /** What a session is: its engine family and its two cartridges. */
  datatype Identity = Identity(family: nat, platform0: nat, platform1: nat, rom0: seq<byte>, rom1: seq<byte>)

  /** The state capacities the engine reported when the session was loaded. */
  datatype Capacities = Capacities(machine0: nat, machine1: nat, link: nat)

  /** What a savestate carries. */
  datatype Payload = Payload(machine0: seq<byte>, machine1: seq<byte>, link: seq<byte>, linkEnabled: bool)

  datatype Parsed = Rejected | Accepted(payload: Payload)

  /** The enumeration values and sizes of a session fit the C types. */
  predicate Sized(id: Identity) {
    && id.family < U32_LIMIT && id.platform0 < U32_LIMIT && id.platform1 < U32_LIMIT
    && |id.rom0| < SIZE_LIMIT && |id.rom1| < SIZE_LIMIT
  }

  function Total(p: Payload): nat {
    HEADER + |p.machine0| + |p.machine1| + |p.link|
  }

  predicate Fits(p: Payload, caps: Capacities) {
    && 0 < |p.machine0| <= caps.machine0
    && 0 < |p.machine1| <= caps.machine1
    && |p.link| <= caps.link
  }

  // ---- Writing ----

  function StartGroup(total: nat): (r: seq<byte>)
    ensures |r| == 24
  {
    MAGIC + PutU32(VERSION) + PutU32(HEADER) + PutU64(total)
  }

  function PlatformGroup(id: Identity, linkEnabled: bool): (r: seq<byte>)
    ensures |r| == 16
  {
    PutU32(id.family) + PutU32(id.platform0) + PutU32(id.platform1) + PutU32(if linkEnabled then 1 else 0)
  }

  function RomGroup(id: Identity): (r: seq<byte>)
    ensures |r| == 24
  {
    PutU64(|id.rom0|) + PutU64(|id.rom1|) + CheckBytes(id.rom0) + CheckBytes(id.rom1)
  }

  function LengthGroup(a: nat, b: nat, c: nat): (r: seq<byte>)
    ensures |r| == 24
  {
    PutU64(a) + PutU64(b) + PutU64(c)
  }

  /** Header bytes that are written as zero and never read. */
  type Reserved = s: seq<byte> | |s| == 8 witness [0, 0, 0, 0, 0, 0, 0, 0]

  function CheckGroup(p: Payload, reserved: Reserved): (r: seq<byte>)
    ensures |r| == 20
  {
    CheckBytes(p.machine0) + CheckBytes(p.machine1) + CheckBytes(p.link) + reserved
  }

  function FirstGroups(id: Identity, p: Payload): (r: seq<byte>)
    ensures |r| == 64
  {
    StartGroup(Total(p)) + PlatformGroup(id, p.linkEnabled) + RomGroup(id)
  }

  function LastGroups(p: Payload, reserved: Reserved): (r: seq<byte>)
    ensures |r| == 44
  {
    LengthGroup(|p.machine0|, |p.machine1|, |p.link|) + CheckGroup(p, reserved)
  }

  /** The header up to its own checksum. */
  function CheckedHeader(id: Identity, p: Payload, reserved: Reserved): (r: seq<byte>)
    ensures |r| == CHECKED_HEADER
  {
    FirstGroups(id, p) + LastGroups(p, reserved)
  }

  /** A header, its checksum, and the three payloads back to back. */
  function Assemble(head: seq<byte>, p: Payload): seq<byte> {
    head + CheckBytes(head) + p.machine0 + p.machine1 + p.link
  }

  /** A savestate. */
  function Encode(id: Identity, p: Payload): seq<byte> {
    EncodeWith(id, p, PutU64(0))
  }

  /** A savestate with anything in the reserved bytes. */
  function EncodeWith(id: Identity, p: Payload, reserved: Reserved): seq<byte> {
    Assemble(CheckedHeader(id, p, reserved), p)
  }

  // ---- Reading ----

  function ReadAt(bytes: seq<byte>, from: nat, size: nat): nat
    requires from + size <= |bytes|
  {
    Get(bytes[from..from + size])
  }

  /** The four bytes at `at`, as a stored checksum. */
  function Word(bytes: seq<byte>, at: nat): seq<byte>
    requires at + 4 <= |bytes|
  {
    bytes[at..at + 4]
  }

  predicate HeaderAccepted(bytes: seq<byte>)
    requires |bytes| >= HEADER
  {
    && bytes[0..8] == MAGIC
    && ReadAt(bytes, 8, 4) == VERSION
    && ReadAt(bytes, 12, 4) == HEADER
    && Word(bytes, 108) == CheckBytes(bytes[..CHECKED_HEADER])
  }

  predicate IdentityAccepted(bytes: seq<byte>, id: Identity)
    requires |bytes| >= HEADER
  {
    && ReadAt(bytes, 24, 4) == id.family
    && ReadAt(bytes, 28, 4) == id.platform0
    && ReadAt(bytes, 32, 4) == id.platform1
    && ReadAt(bytes, 40, 8) == |id.rom0|
    && ReadAt(bytes, 48, 8) == |id.rom1|
    && Word(bytes, 56) == CheckBytes(id.rom0)
    && Word(bytes, 60) == CheckBytes(id.rom1)
  }

  /** The overflow-checked sum of the header and the three lengths, within the input. */
  predicate LengthsValid(a: nat, b: nat, c: nat, inputSize: nat) {
    && a < SIZE_LIMIT && b < SIZE_LIMIT && c < SIZE_LIMIT
    && HEADER + a < SIZE_LIMIT && HEADER + a + b < SIZE_LIMIT && HEADER + a + b + c < SIZE_LIMIT
    && HEADER + a + b + c <= inputSize
  }

  /** The checksum stored at `at` is that of one slice. */
  predicate SliceAccepted(bytes: seq<byte>, at: nat, from: nat, to: nat)
    requires at + 4 <= HEADER <= from <= to <= |bytes|
  {
    Word(bytes, at) == CheckBytes(bytes[from..to])
  }

  /** The stored checksums are those of the three payloads, which end at `p`, `q` and `r`. */
  predicate SlicesAccepted(bytes: seq<byte>, p: nat, q: nat, r: nat)
    requires HEADER <= p <= q <= r <= |bytes|
  {
    SliceAccepted(bytes, 88, HEADER, p) && SliceAccepted(bytes, 92, p, q) && SliceAccepted(bytes, 96, q, r)
  }

  /** The three payloads behind the header, which end at `p`, `q` and `r`. */
  function Slices(bytes: seq<byte>, p: nat, q: nat, r: nat, linkEnabled: bool): Payload
    requires HEADER <= p <= q <= r <= |bytes|
  {
    Payload(bytes[HEADER..p], bytes[p..q], bytes[q..r], linkEnabled)
  }

  /** The checks on the payloads themselves. */
  function Admit(caps: Capacities, bytes: seq<byte>, linkEnabled: bool, p: nat, q: nat, r: nat): Parsed
    requires HEADER <= p <= q <= r <= |bytes|
  {
    if p == HEADER || p - HEADER > caps.machine0 || q == p || q - p > caps.machine1 || r - q > caps.link then Rejected
    else if !SlicesAccepted(bytes, p, q, r) then Rejected
    else Accepted(Slices(bytes, p, q, r, linkEnabled))
  }

  /** The checks on flags and lengths. */
  predicate Framed(bytes: seq<byte>, total: nat, flags: nat, a: nat, b: nat, c: nat) {
    flags / 2 == 0 && LengthsValid(a, b, c, |bytes|) && total == HEADER + a + b + c
  }

  function Bounds(a: nat, b: nat, c: nat): (nat, nat, nat) {
    (HEADER + a, HEADER + a + b, HEADER + a + b + c)
  }

  /** The checks on flags, lengths and payloads, in order. */
  function ParsePayload(caps: Capacities, bytes: seq<byte>, total: nat, flags: nat, a: nat, b: nat, c: nat): Parsed
    requires |bytes| >= HEADER
  {
    if !Framed(bytes, total, flags, a, b, c) then Rejected
    else
      var ends := Bounds(a, b, c);
      Admit(caps, bytes, flags % 2 != 0, ends.0, ends.1, ends.2)
  }

  /** The checks on what the header says about the rest. */
  function ParseRest(caps: Capacities, bytes: seq<byte>): Parsed
    requires |bytes| >= HEADER
  {
    ParsePayload(caps, bytes, ReadAt(bytes, 16, 8), ReadAt(bytes, 36, 4),
                 ReadAt(bytes, 64, 8), ReadAt(bytes, 72, 8), ReadAt(bytes, 80, 8))
  }

  /** Every check that precedes the first engine call of a restore, in order. */
  function Parse(id: Identity, caps: Capacities, bytes: seq<byte>): Parsed {
    if |bytes| < HEADER || !HeaderAccepted(bytes) || !IdentityAccepted(bytes, id) then Rejected
    else ParseRest(caps, bytes)
  }

  // ---- Round trip ----

  /** `field` lies at offset `at`. */
  predicate Holds(bytes: seq<byte>, at: nat, field: seq<byte>) {
    at + |field| <= |bytes| && bytes[at..at + |field|] == field
  }

  lemma Split(bytes: seq<byte>, at: nat, x: seq<byte>, y: seq<byte>)
    requires Holds(bytes, at, x + y)
    ensures Holds(bytes, at, x) && Holds(bytes, at + |x|, y)
  {
    var both := bytes[at..at + |x + y|];
    assert both[..|x|] == x && both[|x|..] == y;
    assert bytes[at..at + |x|] == both[..|x|];
    assert bytes[at + |x|..at + |x| + |y|] == both[|x|..];
  }

  lemma Split3(bytes: seq<byte>, at: nat, x: seq<byte>, y: seq<byte>, z: seq<byte>)
    requires Holds(bytes, at, x + y + z)
    ensures Holds(bytes, at, x) && Holds(bytes, at + |x|, y) && Holds(bytes, at + |x| + |y|, z)
  {
    Split(bytes, at, x + y, z);
    Split(bytes, at, x, y);
  }

  lemma Split4(bytes: seq<byte>, at: nat, x: seq<byte>, y: seq<byte>, z: seq<byte>, w: seq<byte>)
    requires Holds(bytes, at, x + y + z + w)
    ensures Holds(bytes, at, x) && Holds(bytes, at + |x|, y)
    ensures Holds(bytes, at + |x| + |y|, z) && Holds(bytes, at + |x| + |y| + |z|, w)
  {
    Split(bytes, at, x + y + z, w);
    Split3(bytes, at, x, y, z);
  }

  lemma ReadsU32(bytes: seq<byte>, at: nat, n: nat)
    requires Holds(bytes, at, PutU32(n)) && n < U32_LIMIT
    ensures ReadAt(bytes, at, 4) == n
  {
    GetPutU32(n);
  }

  lemma ReadsU64(bytes: seq<byte>, at: nat, n: nat)
    requires Holds(bytes, at, PutU64(n)) && n < SIZE_LIMIT
    ensures ReadAt(bytes, at, 8) == n
  {
    GetPutU64(n);
  }

  lemma StartHeld(bytes: seq<byte>, total: nat)
    requires Holds(bytes, 0, StartGroup(total))
    ensures Holds(bytes, 0, MAGIC) && Holds(bytes, 8, PutU32(VERSION))
    ensures Holds(bytes, 12, PutU32(HEADER)) && Holds(bytes, 16, PutU64(total))
  {
    Split4(bytes, 0, MAGIC, PutU32(VERSION), PutU32(HEADER), PutU64(total));
  }

  lemma StartReads(bytes: seq<byte>, total: nat)
    requires Holds(bytes, 0, StartGroup(total)) && total < SIZE_LIMIT
    ensures bytes[0..8] == MAGIC && ReadAt(bytes, 8, 4) == VERSION && ReadAt(bytes, 12, 4) == HEADER
    ensures ReadAt(bytes, 16, 8) == total
  {
    StartHeld(bytes, total);
    ReadsU32(bytes, 8, VERSION);
    ReadsU32(bytes, 12, HEADER);
    ReadsU64(bytes, 16, total);
  }

  lemma PlatformReads(bytes: seq<byte>, id: Identity, linkEnabled: bool)
    requires Holds(bytes, 24, PlatformGroup(id, linkEnabled)) && Sized(id)
    ensures ReadAt(bytes, 24, 4) == id.family && ReadAt(bytes, 28, 4) == id.platform0
    ensures ReadAt(bytes, 32, 4) == id.platform1 && ReadAt(bytes, 36, 4) == if linkEnabled then 1 else 0
  {
    var flag := if linkEnabled then 1 else 0;
    Split4(bytes, 24, PutU32(id.family), PutU32(id.platform0), PutU32(id.platform1), PutU32(flag));
    ReadsU32(bytes, 24, id.family);
    ReadsU32(bytes, 28, id.platform0);
    ReadsU32(bytes, 32, id.platform1);
    ReadsU32(bytes, 36, flag);
  }

  lemma RomReads(bytes: seq<byte>, id: Identity)
    requires Holds(bytes, 40, RomGroup(id)) && Sized(id)
    ensures ReadAt(bytes, 40, 8) == |id.rom0| && ReadAt(bytes, 48, 8) == |id.rom1|
    ensures Word(bytes, 56) == CheckBytes(id.rom0) && Word(bytes, 60) == CheckBytes(id.rom1)
  {
    Split4(bytes, 40, PutU64(|id.rom0|), PutU64(|id.rom1|), CheckBytes(id.rom0), CheckBytes(id.rom1));
    ReadsU64(bytes, 40, |id.rom0|);
    ReadsU64(bytes, 48, |id.rom1|);
  }

  lemma LengthReads(bytes: seq<byte>, a: nat, b: nat, c: nat)
    requires Holds(bytes, 64, LengthGroup(a, b, c))
    requires a < SIZE_LIMIT && b < SIZE_LIMIT && c < SIZE_LIMIT
    ensures ReadAt(bytes, 64, 8) == a && ReadAt(bytes, 72, 8) == b && ReadAt(bytes, 80, 8) == c
  {
    Split3(bytes, 64, PutU64(a), PutU64(b), PutU64(c));
    ReadsU64(bytes, 64, a);
    ReadsU64(bytes, 72, b);
    ReadsU64(bytes, 80, c);
  }

  lemma CheckReads(bytes: seq<byte>, p: Payload, reserved: Reserved)
    requires Holds(bytes, 88, CheckGroup(p, reserved))
    ensures Word(bytes, 88) == CheckBytes(p.machine0) && Word(bytes, 92) == CheckBytes(p.machine1)
    ensures Word(bytes, 96) == CheckBytes(p.link)
  {
    var x, y, z := CheckBytes(p.machine0), CheckBytes(p.machine1), CheckBytes(p.link);
    Split4(bytes, 88, x, y, z, reserved);
  }

  lemma FirstHeld(bytes: seq<byte>, id: Identity, p: Payload)
    requires Holds(bytes, 0, FirstGroups(id, p))
    ensures Holds(bytes, 0, StartGroup(Total(p))) && Holds(bytes, 24, PlatformGroup(id, p.linkEnabled))
    ensures Holds(bytes, 40, RomGroup(id))
  {
    Split3(bytes, 0, StartGroup(Total(p)), PlatformGroup(id, p.linkEnabled), RomGroup(id));
  }

  lemma LastHeld(bytes: seq<byte>, p: Payload, reserved: Reserved)
    requires Holds(bytes, 64, LastGroups(p, reserved))
    ensures Holds(bytes, 64, LengthGroup(|p.machine0|, |p.machine1|, |p.link|))
    ensures Holds(bytes, 88, CheckGroup(p, reserved))
  {
    Split(bytes, 64, LengthGroup(|p.machine0|, |p.machine1|, |p.link|), CheckGroup(p, reserved));
  }

  /** The header and payloads of an encoded savestate, with any padding behind it. */
  lemma EncodedHeld(head: seq<byte>, p: Payload, padding: seq<byte>)
    requires |head| == CHECKED_HEADER
    ensures
      var bytes := Assemble(head, p) + padding;
      var rest := HEADER + |p.machine0|;
      && Holds(bytes, 0, head) && Holds(bytes, CHECKED_HEADER, CheckBytes(head))
      && Holds(bytes, HEADER, p.machine0) && Holds(bytes, rest, p.machine1)
      && Holds(bytes, rest + |p.machine1|, p.link)
  {
    var bytes := Assemble(head, p) + padding;
    var check := CheckBytes(head);
    assert Holds(bytes, 0, Assemble(head, p));
    Split3(bytes, 0, head + check + p.machine0, p.machine1, p.link);
    Split3(bytes, 0, head, check, p.machine0);
  }

  /** The flag and the lengths in the header are those of `p`. */
  predicate Describes(bytes: seq<byte>, p: Payload)
    requires |bytes| >= HEADER
  {
    && ReadAt(bytes, 36, 4) == (if p.linkEnabled then 1 else 0)
    && ReadAt(bytes, 64, 8) == |p.machine0| && ReadAt(bytes, 72, 8) == |p.machine1| && ReadAt(bytes, 80, 8) == |p.link|
  }

  lemma ParsedPayload(caps: Capacities, bytes: seq<byte>, p: Payload, flags: nat, e1: nat, e2: nat, e3: nat)
    requires e1 == HEADER + |p.machine0| && e2 == e1 + |p.machine1| && e3 == e2 + |p.link| <= |bytes| && e3 < SIZE_LIMIT
    requires SlicesAccepted(bytes, e1, e2, e3) && flags == (if p.linkEnabled then 1 else 0)
    requires Slices(bytes, e1, e2, e3, p.linkEnabled) == p
    ensures ParsePayload(caps, bytes, e3, flags, |p.machine0|, |p.machine1|, |p.link|)
         == if Fits(p, caps) then Accepted(p) else Rejected
  {
    assert Admit(caps, bytes, p.linkEnabled, e1, e2, e3) == if Fits(p, caps) then Accepted(p) else Rejected;
    assert Framed(bytes, e3, flags, |p.machine0|, |p.machine1|, |p.link|);
    assert Bounds(|p.machine0|, |p.machine1|, |p.link|) == (e1, e2, e3);
  }

  lemma HeadReads(bytes: seq<byte>, id: Identity, p: Payload, reserved: Reserved)
    requires Holds(bytes, 0, CheckedHeader(id, p, reserved)) && Sized(id) && Total(p) < SIZE_LIMIT && |bytes| >= HEADER
    requires Holds(bytes, CHECKED_HEADER, CheckBytes(CheckedHeader(id, p, reserved)))
    ensures HeaderAccepted(bytes) && ReadAt(bytes, 16, 8) == Total(p)
  {
    Split(bytes, 0, FirstGroups(id, p), LastGroups(p, reserved));
    FirstHeld(bytes, id, p);
    StartReads(bytes, Total(p));
    assert bytes[..CHECKED_HEADER] == bytes[0..CHECKED_HEADER];
  }

  lemma BodyReads(bytes: seq<byte>, id: Identity, p: Payload, reserved: Reserved)
    requires Holds(bytes, 0, CheckedHeader(id, p, reserved)) && Sized(id) && Total(p) < SIZE_LIMIT && |bytes| >= HEADER
    ensures IdentityAccepted(bytes, id) && Describes(bytes, p)
    ensures Word(bytes, 88) == CheckBytes(p.machine0) && Word(bytes, 92) == CheckBytes(p.machine1)
    ensures Word(bytes, 96) == CheckBytes(p.link)
  {
    Split(bytes, 0, FirstGroups(id, p), LastGroups(p, reserved));
    FirstHeld(bytes, id, p);
    LastHeld(bytes, p, reserved);
    PlatformReads(bytes, id, p.linkEnabled);
    RomReads(bytes, id);
    LengthReads(bytes, |p.machine0|, |p.machine1|, |p.link|);
    CheckReads(bytes, p, reserved);
  }

  lemma SliceHeld(bytes: seq<byte>, at: nat, from: nat, to: nat, part: seq<byte>)
    requires at + 4 <= HEADER <= from && Holds(bytes, from, part) && to == from + |part|
             && Word(bytes, at) == CheckBytes(part)
    ensures SliceAccepted(bytes, at, from, to)
  {
  }

  /** The payloads of a savestate where its header says they are. */
  lemma PayloadHeld(bytes: seq<byte>, p: Payload, e1: nat, e2: nat, e3: nat)
    requires HEADER + |p.machine0| == e1 && e1 + |p.machine1| == e2 && e2 + |p.link| == e3 <= |bytes|
    requires Holds(bytes, HEADER, p.machine0) && Holds(bytes, e1, p.machine1) && Holds(bytes, e2, p.link)
    requires Word(bytes, 88) == CheckBytes(p.machine0) && Word(bytes, 92) == CheckBytes(p.machine1)
    requires Word(bytes, 96) == CheckBytes(p.link)
    ensures SlicesAccepted(bytes, e1, e2, e3) && Slices(bytes, e1, e2, e3, p.linkEnabled) == p
  {
    SliceHeld(bytes, 88, HEADER, e1, p.machine0);
    SliceHeld(bytes, 92, e1, e2, p.machine1);
    SliceHeld(bytes, 96, e2, e3, p.link);
  }

  /** Two sessions with the same engine, platforms, cartridge sizes and cartridge checksums. */
  predicate SameCartridges(id: Identity, other: Identity) {
    && id.family == other.family && id.platform0 == other.platform0 && id.platform1 == other.platform1
    && |id.rom0| == |other.rom0| && |id.rom1| == |other.rom1|
    && Crc32(id.rom0) == Crc32(other.rom0) && Crc32(id.rom1) == Crc32(other.rom1)
  }

  lemma SameCheck(x: seq<byte>, y: seq<byte>)
    ensures CheckBytes(x) == CheckBytes(y) <==> Crc32(x) == Crc32(y)
  {
    if Crc32(x) != Crc32(y) {
      WordBytesInjective(Crc32(x), Crc32(y));
    }
  }

  lemma IdentityRead(bytes: seq<byte>, id: Identity, other: Identity)
    requires |bytes| >= HEADER && IdentityAccepted(bytes, id)
    ensures IdentityAccepted(bytes, other) <==> SameCartridges(id, other)
  {
    SameCheck(id.rom0, other.rom0);
    SameCheck(id.rom1, other.rom1);
  }

  /** What a session makes of a state that another one wrote, with anything in the reserved bytes and
      behind the used part. */
  lemma ReadElsewhere(id: Identity, other: Identity, caps: Capacities, p: Payload, reserved: Reserved,
                      padding: seq<byte>)
    requires Sized(id) && Total(p) < SIZE_LIMIT
    ensures Parse(other, caps, EncodeWith(id, p, reserved) + padding)
         == if SameCartridges(id, other) && Fits(p, caps) then Accepted(p) else Rejected
  {
    var bytes := EncodeWith(id, p, reserved) + padding;
    EncodedHeld(CheckedHeader(id, p, reserved), p, padding);
    HeadReads(bytes, id, p, reserved);
    BodyReads(bytes, id, p, reserved);
    IdentityRead(bytes, id, other);
    var e1 := HEADER + |p.machine0|;
    var e2 := e1 + |p.machine1|;
    PayloadHeld(bytes, p, e1, e2, Total(p));
    ParsedPayload(caps, bytes, p, ReadAt(bytes, 36, 4), e1, e2, Total(p));
  }

  /** A serialised state is accepted by a session exactly when its engine, platforms, cartridge sizes and
      cartridge checksums are those of the session that wrote it, both machine payloads are non-empty and
      all fit the reported capacities; then every payload comes back byte for byte with the link flag,
      whatever follows the used part. */
  lemma RoundTrip(id: Identity, other: Identity, caps: Capacities, p: Payload, padding: seq<byte>)
    requires Sized(id) && Total(p) < SIZE_LIMIT
    ensures Parse(other, caps, Encode(id, p) + padding)
         == if SameCartridges(id, other) && Fits(p, caps) then Accepted(p) else Rejected
  {
    ReadElsewhere(id, other, caps, p, PutU64(0), padding);
  }

  /** A state is refused by a session with another cartridge: one of another size, or one that differs in
      exactly one byte. */
  lemma OtherCartridgeRejected(id: Identity, other: Identity, caps: Capacities, p: Payload, padding: seq<byte>,
                               i: nat, v: byte)
    requires Sized(id) && Total(p) < SIZE_LIMIT
    requires
      || |other.rom0| != |id.rom0| || |other.rom1| != |id.rom1|
      || (i < |id.rom0| && id.rom0[i] != v && other.rom0 == id.rom0[i := v])
      || (i < |id.rom1| && id.rom1[i] != v && other.rom1 == id.rom1[i := v])
    ensures Parse(other, caps, Encode(id, p) + padding) == Rejected
  {
    if i < |id.rom0| && id.rom0[i] != v {
      CheckBytesDetectOneByte(id.rom0, i, v);
    }
    if i < |id.rom1| && id.rom1[i] != v {
      CheckBytesDetectOneByte(id.rom1, i, v);
    }
    RoundTrip(id, other, caps, p, padding);
  }

  // ---- Nothing but encodings is accepted ----

  lemma Join(bytes: seq<byte>, at: nat, x: seq<byte>, y: seq<byte>)
    requires Holds(bytes, at, x) && Holds(bytes, at + |x|, y)
    ensures Holds(bytes, at, x + y)
  {
    assert bytes[at..at + |x + y|] == bytes[at..at + |x|] + bytes[at + |x|..at + |x| + |y|];
  }

  lemma Join3(bytes: seq<byte>, at: nat, x: seq<byte>, y: seq<byte>, z: seq<byte>)
    requires Holds(bytes, at, x) && Holds(bytes, at + |x|, y) && Holds(bytes, at + |x| + |y|, z)
    ensures Holds(bytes, at, x + y + z)
  {
    Join(bytes, at, x, y);
    Join(bytes, at, x + y, z);
  }

  lemma Join4(bytes: seq<byte>, at: nat, x: seq<byte>, y: seq<byte>, z: seq<byte>, w: seq<byte>)
    requires Holds(bytes, at, x) && Holds(bytes, at + |x|, y)
    requires Holds(bytes, at + |x| + |y|, z) && Holds(bytes, at + |x| + |y| + |z|, w)
    ensures Holds(bytes, at, x + y + z + w)
  {
    Join3(bytes, at, x, y, z);
    Join(bytes, at, x + y + z, w);
  }

  lemma HoldsU32(bytes: seq<byte>, at: nat, n: nat)
    requires at + 4 <= |bytes| && ReadAt(bytes, at, 4) == n
    ensures Holds(bytes, at, PutU32(n))
  {
    PutGet(bytes[at..at + 4]);
  }

  lemma HoldsU64(bytes: seq<byte>, at: nat, n: nat)
    requires at + 8 <= |bytes| && ReadAt(bytes, at, 8) == n
    ensures Holds(bytes, at, PutU64(n))
  {
    PutGet(bytes[at..at + 8]);
  }

  lemma HoldsFirst(bytes: seq<byte>, id: Identity, p: Payload)
    requires |bytes| >= HEADER && HeaderAccepted(bytes) && IdentityAccepted(bytes, id) && Describes(bytes, p)
    requires ReadAt(bytes, 16, 8) == Total(p)
    ensures Holds(bytes, 0, FirstGroups(id, p))
  {
    HoldsStart(bytes, Total(p));
    HoldsPlatforms(bytes, id, p.linkEnabled);
    HoldsRoms(bytes, id);
    Join3(bytes, 0, StartGroup(Total(p)), PlatformGroup(id, p.linkEnabled), RomGroup(id));
  }

  lemma HoldsStart(bytes: seq<byte>, total: nat)
    requires |bytes| >= HEADER && HeaderAccepted(bytes) && ReadAt(bytes, 16, 8) == total
    ensures Holds(bytes, 0, StartGroup(total))
  {
    HoldsU32(bytes, 8, VERSION);
    HoldsU32(bytes, 12, HEADER);
    HoldsU64(bytes, 16, total);
    Join4(bytes, 0, MAGIC, PutU32(VERSION), PutU32(HEADER), PutU64(total));
  }

  lemma HoldsPlatforms(bytes: seq<byte>, id: Identity, linkEnabled: bool)
    requires |bytes| >= HEADER && IdentityAccepted(bytes, id) && ReadAt(bytes, 36, 4) == if linkEnabled then 1 else 0
    ensures Holds(bytes, 24, PlatformGroup(id, linkEnabled))
  {
    var flag := if linkEnabled then 1 else 0;
    HoldsU32(bytes, 24, id.family);
    HoldsU32(bytes, 28, id.platform0);
    HoldsU32(bytes, 32, id.platform1);
    HoldsU32(bytes, 36, flag);
    Join4(bytes, 24, PutU32(id.family), PutU32(id.platform0), PutU32(id.platform1), PutU32(flag));
  }

  lemma HoldsRoms(bytes: seq<byte>, id: Identity)
    requires |bytes| >= HEADER && IdentityAccepted(bytes, id)
    ensures Holds(bytes, 40, RomGroup(id))
  {
    HoldsU64(bytes, 40, |id.rom0|);
    HoldsU64(bytes, 48, |id.rom1|);
    Join4(bytes, 40, PutU64(|id.rom0|), PutU64(|id.rom1|), CheckBytes(id.rom0), CheckBytes(id.rom1));
  }

  lemma HoldsLengths(bytes: seq<byte>, p: Payload)
    requires |bytes| >= HEADER && Describes(bytes, p)
    ensures Holds(bytes, 64, LengthGroup(|p.machine0|, |p.machine1|, |p.link|))
  {
    HoldsU64(bytes, 64, |p.machine0|);
    HoldsU64(bytes, 72, |p.machine1|);
    HoldsU64(bytes, 80, |p.link|);
    Join3(bytes, 64, PutU64(|p.machine0|), PutU64(|p.machine1|), PutU64(|p.link|));
  }

  /** The stored checksums are those of the payload. */
  predicate Checks(bytes: seq<byte>, p: Payload)
    requires |bytes| >= HEADER
  {
    && Word(bytes, 88) == CheckBytes(p.machine0) && Word(bytes, 92) == CheckBytes(p.machine1)
    && Word(bytes, 96) == CheckBytes(p.link)
  }

  lemma HoldsLast(bytes: seq<byte>, p: Payload, reserved: Reserved)
    requires |bytes| >= HEADER && Describes(bytes, p) && Checks(bytes, p) && reserved == bytes[100..108]
    ensures Holds(bytes, 64, LastGroups(p, reserved))
  {
    HoldsLengths(bytes, p);
    Join4(bytes, 88, CheckBytes(p.machine0), CheckBytes(p.machine1), CheckBytes(p.link), reserved);
    Join(bytes, 64, LengthGroup(|p.machine0|, |p.machine1|, |p.link|), CheckGroup(p, reserved));
  }

  lemma HoldsHeader(bytes: seq<byte>, id: Identity, p: Payload, reserved: Reserved)
    requires |bytes| >= HEADER && HeaderAccepted(bytes) && IdentityAccepted(bytes, id) && Describes(bytes, p)
    requires ReadAt(bytes, 16, 8) == Total(p) && Checks(bytes, p) && reserved == bytes[100..108]
    ensures Holds(bytes, 0, CheckedHeader(id, p, reserved))
  {
    HoldsFirst(bytes, id, p);
    HoldsLast(bytes, p, reserved);
    JoinParts(bytes, FirstGroups(id, p), LastGroups(p, reserved), CheckedHeader(id, p, reserved));
  }

  lemma JoinParts(bytes: seq<byte>, x: seq<byte>, y: seq<byte>, both: seq<byte>)
    requires Holds(bytes, 0, x) && Holds(bytes, |x|, y) && both == x + y
    ensures Holds(bytes, 0, both)
  {
    Join(bytes, 0, x, y);
  }

  lemma HoldsHeaderCheck(bytes: seq<byte>, head: seq<byte>)
    requires |bytes| >= HEADER && HeaderAccepted(bytes) && |head| == CHECKED_HEADER && Holds(bytes, 0, head)
    ensures Holds(bytes, CHECKED_HEADER, CheckBytes(head))
  {
    assert bytes[..CHECKED_HEADER] == bytes[0..CHECKED_HEADER] == head;
  }

  lemma HoldsPayloads(bytes: seq<byte>, head: seq<byte>, p: Payload)
    requires |bytes| >= HEADER && HeaderAccepted(bytes)
    requires |head| == CHECKED_HEADER && Holds(bytes, 0, head) && Carries(bytes, p)
    ensures Holds(bytes, 0, Assemble(head, p))
  {
    HoldsHeaderCheck(bytes, head);
    Join3(bytes, 0, head, CheckBytes(head), p.machine0);
    Join3(bytes, 0, head + CheckBytes(head) + p.machine0, p.machine1, p.link);
  }

  /** The payloads lie behind the header. */
  predicate Carries(bytes: seq<byte>, p: Payload) {
    && Holds(bytes, HEADER, p.machine0) && Holds(bytes, HEADER + |p.machine0|, p.machine1)
    && Holds(bytes, HEADER + |p.machine0| + |p.machine1|, p.link)
  }

  /** What an accepted savestate says about its payload. */
  lemma AcceptedReads(caps: Capacities, bytes: seq<byte>, p: Payload)
    requires |bytes| >= HEADER && ParseRest(caps, bytes) == Accepted(p)
    ensures Fits(p, caps) && Describes(bytes, p) && ReadAt(bytes, 16, 8) == Total(p) < SIZE_LIMIT && Total(p) <= |bytes|
    ensures Checks(bytes, p) && Carries(bytes, p)
  {
    var a, b, c := ReadAt(bytes, 64, 8), ReadAt(bytes, 72, 8), ReadAt(bytes, 80, 8);
    var ends := Bounds(a, b, c);
    var on := ReadAt(bytes, 36, 4) % 2 != 0;
    assert Admit(caps, bytes, on, ends.0, ends.1, ends.2) == Accepted(p);
  }

  lemma AcceptedParts(id: Identity, caps: Capacities, bytes: seq<byte>, p: Payload)
    requires Parse(id, caps, bytes) == Accepted(p)
    ensures |bytes| >= HEADER && HeaderAccepted(bytes) && IdentityAccepted(bytes, id)
    ensures ParseRest(caps, bytes) == Accepted(p)
  {
  }

  /** The used part of `bytes` is a savestate of this session with payload `p`. */
  predicate Encodes(bytes: seq<byte>, id: Identity, caps: Capacities, p: Payload, reserved: Reserved) {
    Fits(p, caps) && Total(p) < SIZE_LIMIT && Holds(bytes, 0, EncodeWith(id, p, reserved))
  }

  function ReservedOf(bytes: seq<byte>): Reserved {
    if |bytes| < HEADER then PutU64(0) else bytes[100..108]
  }

  /** Exactly the savestates of this session's cartridges, with any reserved bytes and any padding, are
      accepted, each as the payload it encodes. */
  lemma AcceptedExactly(id: Identity, caps: Capacities, bytes: seq<byte>, p: Payload)
    requires Sized(id)
    ensures Parse(id, caps, bytes) == Accepted(p) <==> Encodes(bytes, id, caps, p, ReservedOf(bytes))
  {
    if Parse(id, caps, bytes) == Accepted(p) {
      AcceptedEncodes(id, caps, bytes, p);
    }
    if Encodes(bytes, id, caps, p, ReservedOf(bytes)) {
      EncodedAccepted(id, caps, bytes, p, ReservedOf(bytes));
    }
  }

  lemma EncodedAccepted(id: Identity, caps: Capacities, bytes: seq<byte>, p: Payload, reserved: Reserved)
    requires Sized(id) && Encodes(bytes, id, caps, p, reserved)
    ensures Parse(id, caps, bytes) == Accepted(p)
  {
    var padding := Padding(bytes, EncodeWith(id, p, reserved));
    ReadElsewhere(id, id, caps, p, reserved, padding);
  }

  lemma Padding(bytes: seq<byte>, state: seq<byte>) returns (padding: seq<byte>)
    requires Holds(bytes, 0, state)
    ensures bytes == state + padding
  {
    padding := bytes[|state|..];
    assert bytes[0..|state|] == bytes[..|state|];
  }

  lemma AcceptedEncodes(id: Identity, caps: Capacities, bytes: seq<byte>, p: Payload)
    requires Parse(id, caps, bytes) == Accepted(p)
    ensures Encodes(bytes, id, caps, p, ReservedOf(bytes))
  {
    AcceptedParts(id, caps, bytes, p);
    AcceptedReads(caps, bytes, p);
    PartsEncode(id, bytes, p, ReservedOf(bytes));
  }

  lemma PartsEncode(id: Identity, bytes: seq<byte>, p: Payload, reserved: Reserved)
    requires |bytes| >= HEADER && HeaderAccepted(bytes) && IdentityAccepted(bytes, id) && Describes(bytes, p)
    requires ReadAt(bytes, 16, 8) == Total(p) && Checks(bytes, p) && Carries(bytes, p) && reserved == bytes[100..108]
    ensures Holds(bytes, 0, EncodeWith(id, p, reserved))
  {
    HoldsHeader(bytes, id, p, reserved);
    HoldsPayloads(bytes, CheckedHeader(id, p, reserved), p);
  }

  // ---- Corruption ----

  lemma HeaderCorruption(bytes: seq<byte>, i: nat, b: byte)
    requires |bytes| >= HEADER && HeaderAccepted(bytes) && i < HEADER && bytes[i] != b
    ensures !HeaderAccepted(bytes[i := b])
  {
    var changed := bytes[i := b];
    if i < CHECKED_HEADER {
      assert changed[..CHECKED_HEADER] == bytes[..CHECKED_HEADER][i := b];
      CheckBytesDetectOneByte(bytes[..CHECKED_HEADER], i, b);
      assert changed[108..112] == bytes[108..112];
    } else {
      assert changed[..CHECKED_HEADER] == bytes[..CHECKED_HEADER];
      assert changed[108..112][i - 108] != bytes[108..112][i - 108];
    }
  }

  /** Bytes past the header do not change how the header reads. */
  lemma HeaderKept(bytes: seq<byte>, i: nat, b: byte, from: nat, size: nat)
    requires |bytes| >= HEADER && HEADER <= i < |bytes| && from + size <= HEADER
    ensures ReadAt(bytes[i := b], from, size) == ReadAt(bytes, from, size)
  {
    assert bytes[i := b][from..from + size] == bytes[from..from + size];
  }

  lemma SliceCheckDiffers(bytes: seq<byte>, from: nat, to: nat, i: nat, v: byte)
    requires from <= i < to <= |bytes| && bytes[i] != v
    ensures CheckBytes(bytes[i := v][from..to]) != CheckBytes(bytes[from..to])
  {
    assert bytes[i := v][from..to] == bytes[from..to][i - from := v];
    CheckBytesDetectOneByte(bytes[from..to], i - from, v);
  }

  /** A changed payload byte fails the checksum of the payload it lies in. */
  lemma SliceCorruption(bytes: seq<byte>, at: nat, from: nat, to: nat, i: nat, v: byte)
    requires at + 4 <= HEADER <= from <= i < to <= |bytes| && bytes[i] != v && SliceAccepted(bytes, at, from, to)
    ensures !SliceAccepted(bytes[i := v], at, from, to)
  {
    assert Word(bytes[i := v], at) == Word(bytes, at);
    SliceCheckDiffers(bytes, from, to, i, v);
  }

  lemma PayloadCorruption(bytes: seq<byte>, p: nat, q: nat, r: nat, i: nat, v: byte)
    requires HEADER <= p <= q <= r <= |bytes| && HEADER <= i < r
    requires bytes[i] != v && SlicesAccepted(bytes, p, q, r)
    ensures !SlicesAccepted(bytes[i := v], p, q, r)
  {
    if i < p {
      SliceCorruption(bytes, 88, HEADER, p, i, v);
    } else if i < q {
      SliceCorruption(bytes, 92, p, q, i, v);
    } else {
      SliceCorruption(bytes, 96, q, r, i, v);
    }
  }

  lemma AdmissionByteRejected(caps: Capacities, bytes: seq<byte>, on: bool, p: nat, q: nat, r: nat, i: nat, v: byte)
    requires HEADER <= p <= q <= r <= |bytes| && HEADER <= i < r && bytes[i] != v
    requires Admit(caps, bytes, on, p, q, r).Accepted?
    ensures Admit(caps, bytes[i := v], on, p, q, r) == Rejected
  {
    PayloadCorruption(bytes, p, q, r, i, v);
  }

  lemma PayloadByteRejected(caps: Capacities, bytes: seq<byte>, total: nat, flags: nat, a: nat, b: nat, c: nat, i: nat,
                            v: byte)
    requires |bytes| >= HEADER && ParsePayload(caps, bytes, total, flags, a, b, c).Accepted?
    requires HEADER <= i < HEADER + a + b + c && bytes[i] != v
    ensures ParsePayload(caps, bytes[i := v], total, flags, a, b, c) == Rejected
  {
    var ends := Bounds(a, b, c);
    var changed := bytes[i := v];
    assert Framed(changed, total, flags, a, b, c);
    assert ParsePayload(caps, bytes, total, flags, a, b, c)
        == Admit(caps, bytes, flags % 2 != 0, ends.0, ends.1, ends.2);
    AdmissionByteRejected(caps, bytes, flags % 2 != 0, ends.0, ends.1, ends.2, i, v);
  }

  /** Changing exactly one byte anywhere in the used part of an accepted savestate makes the
      restore reject it before any engine call. */
  lemma OneByteCorruptionRejected(id: Identity, caps: Capacities, bytes: seq<byte>, i: nat, v: byte)
    requires Parse(id, caps, bytes).Accepted?
    requires i < Total(Parse(id, caps, bytes).payload) && i < |bytes| && bytes[i] != v
    ensures Parse(id, caps, bytes[i := v]) == Rejected
  {
    if i < HEADER {
      HeaderCorruption(bytes, i, v);
    } else {
      PayloadOfState(caps, bytes, i, v);
    }
  }

  lemma PayloadOfState(caps: Capacities, bytes: seq<byte>, i: nat, v: byte)
    requires |bytes| >= HEADER && ParseRest(caps, bytes).Accepted?
    requires HEADER <= i < Total(ParseRest(caps, bytes).payload) && i < |bytes| && bytes[i] != v
    ensures ParseRest(caps, bytes[i := v]) == Rejected
  {
    HeaderKept(bytes, i, v, 16, 8);
    HeaderKept(bytes, i, v, 36, 4);
    HeaderKept(bytes, i, v, 64, 8);
    HeaderKept(bytes, i, v, 72, 8);
    HeaderKept(bytes, i, v, 80, 8);
    PayloadByteRejected(caps, bytes, ReadAt(bytes, 16, 8), ReadAt(bytes, 36, 4),
                        ReadAt(bytes, 64, 8), ReadAt(bytes, 72, 8), ReadAt(bytes, 80, 8), i, v);
  }
}
