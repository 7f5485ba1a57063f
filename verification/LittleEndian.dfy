/** Little-endian integers in byte strings. */
module LittleEndian {
  import opened Bytes

  function Pow256(k: nat): (r: nat)
    ensures r > 0
  {
    if k == 0 then 1 else 256 * Pow256(k - 1)
  }

  /** The low `k` bytes of a number, least significant first. */
  function Put(n: nat, k: nat): (r: seq<byte>)
    ensures |r| == k
    decreases k
  {
    if k == 0 then [] else [(n % 256) as byte] + Put(n / 256, k - 1)
  }

  function Get(s: seq<byte>): (n: nat)
    ensures n < Pow256(|s|)
  {
    if s == [] then 0 else s[0] as int + 256 * Get(s[1..])
  }

  lemma LowPart(low: nat, rest: nat)
    requires low < 256
    ensures (low + 256 * rest) % 256 == low && (low + 256 * rest) / 256 == rest
  {
  }

  lemma LowByte(b: byte, rest: nat)
    ensures
      var n := b as int + 256 * rest;
      (n % 256) as byte == b && n / 256 == rest
  {
    LowPart(b as int, rest);
    ByteOf(b as int, b);
  }

  lemma {:induction false} GetPut(n: nat, k: nat)
    requires n < Pow256(k)
    ensures Get(Put(n, k)) == n
    decreases k
  {
    if k > 0 {
      ByteBits(n % 256);
      assert Put(n, k)[1..] == Put(n / 256, k - 1);
      GetPut(n / 256, k - 1);
    }
  }

  lemma {:induction false} PutGet(s: seq<byte>)
    ensures Put(Get(s), |s|) == s
  {
    if s != [] {
      PutGet(s[1..]);
      LowByte(s[0], Get(s[1..]));
      assert s == [s[0]] + s[1..];
    }
  }

  lemma GetInjective(x: seq<byte>, y: seq<byte>)
    requires |x| == |y| && x != y
    ensures Get(x) != Get(y)
  {
    PutGet(x);
    PutGet(y);
  }

  const U64_BYTES: nat := 8
  const U32_BYTES: nat := 4

  lemma Sizes()
    ensures Pow256(U64_BYTES) == 0x1_0000_0000_0000_0000 && Pow256(U32_BYTES) == 0x1_0000_0000
  {
    assert Pow256(2) == 0x1_0000;
    assert Pow256(4) == 0x1_0000_0000;
    assert Pow256(6) == 0x1_0000_0000_0000;
  }

  function PutU64(n: nat): (r: seq<byte>)
    ensures |r| == 8
  {
    Put(n, U64_BYTES)
  }

  function PutU32(n: nat): (r: seq<byte>)
    ensures |r| == 4
  {
    Put(n, U32_BYTES)
  }

  lemma GetPutU64(n: nat)
    requires n < 0x1_0000_0000_0000_0000
    ensures Get(PutU64(n)) == n
  {
    Sizes();
    GetPut(n, U64_BYTES);
  }

  lemma GetPutU32(n: nat)
    requires n < 0x1_0000_0000
    ensures Get(PutU32(n)) == n
  {
    Sizes();
    GetPut(n, U32_BYTES);
  }
}
