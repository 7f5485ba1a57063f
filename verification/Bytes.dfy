/** Bytes and the few facts about single bytes that the codecs and hashes need. */
module Bytes {

  type byte = bv8

  lemma ByteOf(n: int, b: byte)
    requires 0 <= n < 256 && b as int == n
    ensures n as byte == b
  {
  }

  lemma NextByte(b: byte)
    requires b as int < 255
    ensures (b + 1) as int == b as int + 1
  {
  }

  /** Every number below 256 is the value of a byte. */
  lemma {:induction false} ByteNamed(n: nat) returns (b: byte)
    requires n < 256
    ensures b as int == n
  {
    if n == 0 {
      b := 0;
    } else {
      var previous := ByteNamed(n - 1);
      NextByte(previous);
      b := previous + 1;
    }
  }

  lemma ByteBits(n: int)
    requires 0 <= n < 256
    ensures (n as byte) as int == n
  {
    var b := ByteNamed(n);
    ByteOf(n, b);
  }

  lemma ByteValue(a: byte, b: byte)
    requires a as int == b as int
    ensures a == b
  {
    ByteOf(a as int, a);
    ByteOf(a as int, b);
  }

  lemma XorInjective(a: byte, b: byte, c: byte)
    ensures a ^ c == b ^ c ==> a == b
    ensures c ^ a == c ^ b ==> a == b
  {
    assert (a ^ c) ^ c == a && (b ^ c) ^ c == b;
    assert c ^ (c ^ a) == a && c ^ (c ^ b) == b;
  }
}
