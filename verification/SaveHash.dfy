/** The 64-bit FNV-1a hash that decides whether a save region changed. */
module SaveHash {
  import opened Bytes

  const RANGE: nat := 0x1_0000_0000_0000_0000
  const OFFSET: nat := 14695981039346656037
  const PRIME: nat := 1099511628211
  /** The inverse of the prime modulo 2^64. */
  const INVERSE: nat := 14886173955864302971

  function XorByte(n: nat, b: byte): (r: nat)
    requires n < 256
    ensures r < 256
  {
    ((n as byte) ^ b) as int
  }

  lemma Recompose(high: nat, low: nat)
    requires low < 256
    ensures (high * 256 + low) / 256 == high && (high * 256 + low) % 256 == low
  {
  }

  lemma WordBound(hash: nat, low: nat)
    requires hash < RANGE && low < 256
    ensures hash / 256 * 256 + low < RANGE
  {
  }

  /** Exclusive or of a byte into the low byte of a word. */
  function Mix(hash: nat, b: byte): (r: nat)
    requires hash < RANGE
    ensures r < RANGE
  {
    WordBound(hash, XorByte(hash % 256, b));
    hash / 256 * 256 + XorByte(hash % 256, b)
  }

  function Feed(hash: nat, b: byte): (r: nat)
    requires hash < RANGE
    ensures r < RANGE
  {
    Mix(hash, b) * PRIME % RANGE
  }

  /** The hash of a message continued from an earlier value. */
  function HashFrom(hash: nat, data: seq<byte>): (r: nat)
    requires hash < RANGE
    ensures r < RANGE
  {
    if data == [] then hash else Feed(HashFrom(hash, data[..|data| - 1]), data[|data| - 1])
  }

  function Hash(data: seq<byte>): (r: nat)
    ensures r < RANGE
  {
    HashFrom(OFFSET, data)
  }

  /** `memory_hash`. */
  method MemoryHash(data: seq<byte>) returns (hash: nat)
    ensures hash == Hash(data)
  {
    hash := OFFSET;
    for index := 0 to |data|
      invariant hash < RANGE && hash == HashFrom(OFFSET, data[..index])
    {
      assert data[..index + 1][..index] == data[..index];
      hash := Mix(hash, data[index]);
      hash := hash * PRIME % RANGE;
    }
    assert data[..|data|] == data;
  }

  /** The quotient that shows `INVERSE` to be one. */
  const QUOTIENT: nat := 887285111055

  lemma InverseIsOne()
    ensures PRIME * INVERSE == QUOTIENT * RANGE + 1
  {
  }

  lemma SmallMultiple(d: int, m: int)
    requires d == RANGE * m && -(RANGE as int) < d < RANGE
    ensures d == 0
  {
  }

  lemma TimesInverse(d: int, k: int)
    requires d * PRIME == k * RANGE
    ensures d == RANGE * (k * INVERSE - d * QUOTIENT)
  {
    InverseIsOne();
    assert d * PRIME * INVERSE == d * (QUOTIENT * RANGE + 1);
    assert d * PRIME * INVERSE == k * RANGE * INVERSE;
  }

  lemma ProductDifference(x: nat, y: nat) returns (k: int)
    requires x % RANGE == y % RANGE
    ensures x - y == k * RANGE
  {
    k := x / RANGE - y / RANGE;
  }

  /** Multiplying by the odd prime loses nothing. */
  lemma TimesPrimeInjective(x: nat, y: nat)
    requires x < RANGE && y < RANGE && x * PRIME % RANGE == y * PRIME % RANGE
    ensures x == y
  {
    var k := ProductDifference(x * PRIME, y * PRIME);
    TimesInverse(x - y, k);
    SmallMultiple(x - y, k * INVERSE - (x - y) * QUOTIENT);
  }

  lemma XorByteInjective(m: nat, n: nat, b: byte, c: byte)
    requires m < 256 && n < 256 && XorByte(m, b) == XorByte(n, c)
    ensures b == c ==> m == n
    ensures m == n ==> b == c
  {
    ByteValue((m as byte) ^ b, (n as byte) ^ c);
    XorInjective(m as byte, n as byte, c);
    XorInjective(b, c, m as byte);
    ByteBits(m);
    ByteBits(n);
  }

  lemma WordsEqual(x: nat, y: nat, u: nat, v: nat)
    requires u < 256 && v < 256 && x / 256 * 256 + u == y / 256 * 256 + v
    ensures x / 256 == y / 256 && u == v
  {
    Recompose(x / 256, u);
    Recompose(y / 256, v);
  }

  lemma MixInjective(x: nat, y: nat, b: byte, c: byte)
    requires x < RANGE && y < RANGE && Mix(x, b) == Mix(y, c)
    ensures b == c ==> x == y
    ensures x == y ==> b == c
  {
    WordsEqual(x, y, XorByte(x % 256, b), XorByte(y % 256, c));
    XorByteInjective(x % 256, y % 256, b, c);
  }

  /** Equal suffixes keep different hashes apart. */
  lemma {:induction false} SuffixKeepsApart(x: nat, y: nat, data: seq<byte>)
    requires x < RANGE && y < RANGE && x != y
    ensures HashFrom(x, data) != HashFrom(y, data)
  {
    if data != [] {
      var front, last := data[..|data| - 1], data[|data| - 1];
      SuffixKeepsApart(x, y, front);
      var u, v := HashFrom(x, front), HashFrom(y, front);
      if Feed(u, last) == Feed(v, last) {
        TimesPrimeInjective(Mix(u, last), Mix(v, last));
        MixInjective(u, v, last, last);
      }
    }
  }

  lemma {:induction false} HashAppend(hash: nat, a: seq<byte>, b: seq<byte>)
    requires hash < RANGE
    ensures HashFrom(hash, a + b) == HashFrom(HashFrom(hash, a), b)
    decreases |b|
  {
    if b == [] {
      assert a + b == a;
    } else {
      assert (a + b)[..|a + b| - 1] == a + b[..|b| - 1];
      HashAppend(hash, a, b[..|b| - 1]);
    }
  }

  lemma FeedDiffers(x: nat, b: byte, c: byte)
    requires x < RANGE && b != c
    ensures Feed(x, b) != Feed(x, c)
  {
    if Feed(x, b) == Feed(x, c) {
      TimesPrimeInjective(Mix(x, b), Mix(x, c));
      MixInjective(x, x, b, c);
    }
  }

  /** Images of any length that differ in exactly one byte never collide. */
  lemma OneByteNeverCollides(data: seq<byte>, i: nat, b: byte)
    requires i < |data| && data[i] != b
    ensures Hash(data[i := b]) != Hash(data)
  {
    var x := HashFrom(OFFSET, data[..i]);
    OneMore(data[..i], data[i], data[i + 1..]);
    OneMore(data[..i], b, data[i + 1..]);
    Around(data, i, b);
    FeedDiffers(x, data[i], b);
    SuffixKeepsApart(Feed(x, data[i]), Feed(x, b), data[i + 1..]);
  }

  lemma Around(data: seq<byte>, i: nat, b: byte)
    requires i < |data|
    ensures data == data[..i] + [data[i]] + data[i + 1..]
    ensures data[i := b] == data[..i] + [b] + data[i + 1..]
  {
  }

  lemma OneMore(before: seq<byte>, b: byte, after: seq<byte>)
    ensures Hash(before + [b] + after) == HashFrom(Feed(HashFrom(OFFSET, before), b), after)
  {
    HashAppend(OFFSET, before + [b], after);
    assert (before + [b])[..|before|] == before;
  }
}
