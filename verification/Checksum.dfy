/** Reflected cyclic redundancy checks: CRC-32 of section 8 of RFC 1952, and the CRC-16 of
    Nintendo DS cartridge headers. */
module Checksum {
  import opened Bytes

  const BITS: nat := 8

  // ---- CRC-32 ----

  function Crc32Bit(crc: bv32): bv32 {
    if crc & 1 == 1 then (crc >> 1) ^ 0xEDB88320 else crc >> 1
  }

  function Crc32Bits(crc: bv32, n: nat): bv32
    decreases n
  {
    if n == 0 then crc else Crc32Bits(Crc32Bit(crc), n - 1)
  }

  function Crc32Byte(crc: bv32, b: byte): bv32 {
    Crc32Bits(crc ^ (b as bv32), BITS)
  }

  /** The register after feeding the first `n` bytes to a register that holds `crc`. */
  function Crc32From(crc: bv32, data: seq<byte>, n: nat): bv32
    requires n <= |data|
  {
    if n == 0 then crc else Crc32Byte(Crc32From(crc, data, n - 1), data[n - 1])
  }

  function Crc32(data: seq<byte>): bv32 {
    !Crc32From(0xFFFF_FFFF, data, |data|)
  }

  /** The polynomial's top bit is set, so a shift can be undone. */
  lemma Crc32BitInjective(a: bv32, b: bv32)
    requires Crc32Bit(a) == Crc32Bit(b)
    ensures a == b
  {
  }

  lemma {:induction false} Crc32BitsInjective(a: bv32, b: bv32, n: nat)
    requires Crc32Bits(a, n) == Crc32Bits(b, n)
    ensures a == b
    decreases n
  {
    if n > 0 {
      Crc32BitsInjective(Crc32Bit(a), Crc32Bit(b), n - 1);
      Crc32BitInjective(a, b);
    }
  }

  lemma Xor32Cancels(a: bv32, b: bv32, x: byte, y: byte)
    requires a ^ (x as bv32) == b ^ (y as bv32)
    ensures a == b ==> x == y
    ensures x == y ==> a == b
  {
  }

  /** One step of the check is injective in the register and in the data byte. */
  lemma Crc32ByteInjective(a: bv32, b: bv32, x: byte, y: byte)
    requires Crc32Byte(a, x) == Crc32Byte(b, y)
    ensures a == b ==> x == y
    ensures x == y ==> a == b
  {
    Crc32BitsInjective(a ^ (x as bv32), b ^ (y as bv32), BITS);
    Xor32Cancels(a, b, x, y);
  }

  lemma {:induction false} Crc32PrefixOnly(crc: bv32, data: seq<byte>, i: nat, b: byte, n: nat)
    requires n <= i < |data|
    ensures Crc32From(crc, data[i := b], n) == Crc32From(crc, data, n)
    decreases n
  {
    if n > 0 {
      Crc32PrefixOnly(crc, data, i, b, n - 1);
      Crc32Next(crc, data[i := b], n);
      Crc32Next(crc, data, n);
    }
  }

  lemma Crc32Next(crc: bv32, data: seq<byte>, n: nat)
    requires 0 < n <= |data|
    ensures Crc32From(crc, data, n) == Crc32Byte(Crc32From(crc, data, n - 1), data[n - 1])
  {
  }

  /** Changing exactly one byte of a message of any length changes its CRC-32. */
  lemma {:induction false} Crc32DetectsOneByte(crc: bv32, data: seq<byte>, i: nat, b: byte, n: nat)
    requires i < n <= |data| && data[i] != b
    ensures Crc32From(crc, data[i := b], n) != Crc32From(crc, data, n)
    decreases n
  {
    var changed := data[i := b];
    var x, y := Crc32From(crc, changed, n - 1), Crc32From(crc, data, n - 1);
    if i == n - 1 {
      Crc32PrefixOnly(crc, data, i, b, n - 1);
    } else {
      Crc32DetectsOneByte(crc, data, i, b, n - 1);
    }
    if Crc32From(crc, changed, n) == Crc32From(crc, data, n) {
      Crc32ByteInjective(x, y, changed[n - 1], data[n - 1]);
    }
  }

  /** Eight bits of one byte, with the branch written as a mask. */
  method FeedByte32(start: bv32, b: byte) returns (crc: bv32)
    ensures crc == Crc32Byte(start, b)
  {
    crc := start ^ (b as bv32);
    for bit := 0 to BITS
      invariant Crc32Bits(crc, BITS - bit) == Crc32Byte(start, b)
    {
      var mask: bv32 := 0 - (crc & 1);
      MaskIsBranch(crc);
      crc := (crc >> 1) ^ (0xEDB88320 & mask);
    }
  }

  /** The checksum loop. */
  method ComputeCrc32(data: seq<byte>) returns (crc: bv32)
    ensures crc == Crc32(data)
  {
    crc := 0xFFFF_FFFF;
    for index := 0 to |data|
      invariant crc == Crc32From(0xFFFF_FFFF, data, index)
    {
      crc := FeedByte32(crc, data[index]);
    }
    crc := !crc;
  }

  /** A word as its four bytes, least significant first. */
  function WordBytes(x: bv32): (r: seq<byte>)
    ensures |r| == 4
  {
    [(x & 0xFF) as byte, ((x >> 8) & 0xFF) as byte, ((x >> 16) & 0xFF) as byte, (x >> 24) as byte]
  }

  lemma WordBytesInjective(x: bv32, y: bv32)
    requires x != y
    ensures WordBytes(x) != WordBytes(y)
  {
    if WordBytes(x) == WordBytes(y) {
      assert WordBytes(x)[0] == WordBytes(y)[0] && WordBytes(x)[1] == WordBytes(y)[1];
      assert WordBytes(x)[2] == WordBytes(y)[2] && WordBytes(x)[3] == WordBytes(y)[3];
      FourBytes(x, y);
    }
  }

  lemma FourBytes(x: bv32, y: bv32)
    requires (x & 0xFF) as byte == (y & 0xFF) as byte && ((x >> 8) & 0xFF) as byte == ((y >> 8) & 0xFF) as byte
    requires ((x >> 16) & 0xFF) as byte == ((y >> 16) & 0xFF) as byte && (x >> 24) as byte == (y >> 24) as byte
    ensures x == y
  {
  }

  /** The checksum as it is stored. */
  function CheckBytes(data: seq<byte>): (r: seq<byte>)
    ensures |r| == 4
  {
    WordBytes(Crc32(data))
  }

  /** Changing exactly one byte of a message of any length changes its stored checksum. */
  lemma CheckBytesDetectOneByte(data: seq<byte>, i: nat, b: byte)
    requires i < |data| && data[i] != b
    ensures CheckBytes(data[i := b]) != CheckBytes(data)
  {
    var x, y := Crc32From(0xFFFF_FFFF, data[i := b], |data|), Crc32From(0xFFFF_FFFF, data, |data|);
    Crc32DetectsOneByte(0xFFFF_FFFF, data, i, b, |data|);
    ComplementDiffers(x, y);
    WordBytesInjective(!x, !y);
  }

  lemma ComplementDiffers(a: bv32, b: bv32)
    requires a != b
    ensures !a != !b
  {
  }

  lemma LowBit(crc: bv32)
    ensures crc & 1 == 0 || crc & 1 == 1
  {
  }

  lemma MaskOf(bit: bv32)
    requires bit == 0 || bit == 1
    ensures 0 - bit == if bit == 1 then 0xFFFF_FFFF else 0
  {
  }

  lemma Masked(polynomial: bv32)
    ensures polynomial & 0xFFFF_FFFF == polynomial && polynomial & 0 == 0
  {
  }

  lemma XorZero(x: bv32)
    ensures x ^ 0 == x
  {
  }

  lemma MaskIsBranch(crc: bv32)
    ensures (crc >> 1) ^ (0xEDB88320 & (0 - (crc & 1))) == Crc32Bit(crc)
  {
    LowBit(crc);
    MaskOf(crc & 1);
    Masked(0xEDB88320);
    XorZero(crc >> 1);
  }

  // ---- CRC-16 ----

  function Crc16Bit(crc: bv16): bv16 {
    if crc & 1 == 1 then (crc >> 1) ^ 0xA001 else crc >> 1
  }

  function Crc16Bits(crc: bv16, n: nat): bv16
    decreases n
  {
    if n == 0 then crc else Crc16Bits(Crc16Bit(crc), n - 1)
  }

  function Crc16Byte(crc: bv16, b: byte): bv16 {
    Crc16Bits(crc ^ (b as bv16), BITS)
  }

  /** The register after feeding the first `n` bytes to a register that holds `crc`. */
  function Crc16From(crc: bv16, data: seq<byte>, n: nat): bv16
    requires n <= |data|
  {
    if n == 0 then crc else Crc16Byte(Crc16From(crc, data, n - 1), data[n - 1])
  }

  function Crc16(data: seq<byte>): bv16 {
    Crc16From(0xFFFF, data, |data|)
  }

  /** The polynomial's top bit is set, so a shift can be undone. */
  lemma Crc16BitInjective(a: bv16, b: bv16)
    requires Crc16Bit(a) == Crc16Bit(b)
    ensures a == b
  {
  }

  lemma {:induction false} Crc16BitsInjective(a: bv16, b: bv16, n: nat)
    requires Crc16Bits(a, n) == Crc16Bits(b, n)
    ensures a == b
    decreases n
  {
    if n > 0 {
      Crc16BitsInjective(Crc16Bit(a), Crc16Bit(b), n - 1);
      Crc16BitInjective(a, b);
    }
  }

  lemma Xor16Cancels(a: bv16, b: bv16, x: byte, y: byte)
    requires a ^ (x as bv16) == b ^ (y as bv16)
    ensures a == b ==> x == y
    ensures x == y ==> a == b
  {
  }

  /** One step of the check is injective in the register and in the data byte. */
  lemma Crc16ByteInjective(a: bv16, b: bv16, x: byte, y: byte)
    requires Crc16Byte(a, x) == Crc16Byte(b, y)
    ensures a == b ==> x == y
    ensures x == y ==> a == b
  {
    Crc16BitsInjective(a ^ (x as bv16), b ^ (y as bv16), BITS);
    Xor16Cancels(a, b, x, y);
  }

  lemma {:induction false} Crc16PrefixOnly(crc: bv16, data: seq<byte>, i: nat, b: byte, n: nat)
    requires n <= i < |data|
    ensures Crc16From(crc, data[i := b], n) == Crc16From(crc, data, n)
    decreases n
  {
    if n > 0 {
      Crc16PrefixOnly(crc, data, i, b, n - 1);
      Crc16Next(crc, data[i := b], n);
      Crc16Next(crc, data, n);
    }
  }

  lemma Crc16Next(crc: bv16, data: seq<byte>, n: nat)
    requires 0 < n <= |data|
    ensures Crc16From(crc, data, n) == Crc16Byte(Crc16From(crc, data, n - 1), data[n - 1])
  {
  }

  /** Changing exactly one byte of a message of any length changes its CRC-16. */
  lemma {:induction false} Crc16DetectsOneByte(crc: bv16, data: seq<byte>, i: nat, b: byte, n: nat)
    requires i < n <= |data| && data[i] != b
    ensures Crc16From(crc, data[i := b], n) != Crc16From(crc, data, n)
    decreases n
  {
    var changed := data[i := b];
    var x, y := Crc16From(crc, changed, n - 1), Crc16From(crc, data, n - 1);
    if i == n - 1 {
      Crc16PrefixOnly(crc, data, i, b, n - 1);
    } else {
      Crc16DetectsOneByte(crc, data, i, b, n - 1);
    }
    if Crc16From(crc, changed, n) == Crc16From(crc, data, n) {
      Crc16ByteInjective(x, y, changed[n - 1], data[n - 1]);
    }
  }

  method FeedByte16(start: bv16, b: byte) returns (crc: bv16)
    ensures crc == Crc16Byte(start, b)
  {
    crc := start ^ (b as bv16);
    for bit := 0 to BITS
      invariant Crc16Bits(crc, BITS - bit) == Crc16Byte(start, b)
    {
      crc := if crc & 1 != 0 then (crc >> 1) ^ 0xA001 else crc >> 1;
    }
  }

  /** The checksum loop. */
  method ComputeCrc16(data: seq<byte>) returns (crc: bv16)
    ensures crc == Crc16(data)
  {
    crc := 0xFFFF;
    for index := 0 to |data|
      invariant crc == Crc16From(0xFFFF, data, index)
    {
      crc := FeedByte16(crc, data[index]);
    }
  }
}
