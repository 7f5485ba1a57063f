/** Wrapping 32-bit cycle arithmetic of the GBA link, as signed values compared by half-range. */
module Cycles {

  const TWO31: int := 0x8000_0000
  const TWO32: int := 0x1_0000_0000
  const INT32_MAX: int := TWO31 - 1
  const INT32_MIN: int := -TWO31

  /** A C `int32_t`. */
  type Cycle = x: int | INT32_MIN <= x <= INT32_MAX witness 0

  /** A C `uint32_t`. */
  type Word = x: int | 0 <= x < TWO32 witness 0

  /** A C `uint16_t`. */
  type Half = x: int | 0 <= x < 0x1_0000 witness 0

  /** Reinterprets the bits of an unsigned word as a signed one. */
  function FromBits(value: Word): (r: Cycle)
  {
    if value <= INT32_MAX then value else -1 - (TWO32 - 1 - value)
  }

  /** The bits of a signed word. */
  function ToBits(value: Cycle): (r: Word)
  {
    value % TWO32
  }

  function Delta(later: Cycle, earlier: Cycle): (r: Cycle)
  {
    FromBits((later - earlier) % TWO32)
  }

  function Add(cycle: Cycle, offset: Cycle): (r: Cycle)
  {
    FromBits((cycle + offset) % TWO32)
  }

  function AddSaturated(delay: Cycle, adjustment: Cycle): (r: Cycle)
  {
    var sum := delay + adjustment;
    if sum > INT32_MAX then INT32_MAX
    else if sum < INT32_MIN then INT32_MIN
    else sum
  }

  function AfterLateness(delay: Cycle, cyclesLate: Word): (r: Cycle)
    ensures 0 <= r
  {
    if delay <= 0 || cyclesLate >= delay then 0 else delay - cyclesLate
  }

  /** Every delay handed to the timing queue is at least one cycle. */
  function Sanitize(delay: Cycle): (r: Cycle)
    ensures 1 <= r
  {
    if delay > 0 then delay else 1
  }

  /** How far `t` lies after `base` on the 32-bit circle. */
  function Offset(base: Cycle, t: Cycle): (r: Word)
  {
    (t - base) % TWO32
  }

  /** `t` lies in the half circle that starts at `base`. */
  predicate InWindow(base: Cycle, t: Cycle)
  {
    Offset(base, t) < TWO31
  }

  lemma SameRemainder(x: int, y: int, k: int)
    requires x == TWO32 * k + y
    ensures x % TWO32 == y % TWO32
  {
  }

  /** The wrapping difference is the difference up to full turns. */
  lemma DeltaTurns(a: Cycle, b: Cycle) returns (turns: int)
    ensures Delta(a, b) == a - b + TWO32 * turns
  {
    var d: int := a - b;
    turns := -(d / TWO32) - if d % TWO32 < TWO31 then 0 else 1;
  }

  /** Two points that differ by full turns are the same. */
  lemma SamePoint(x: Cycle, y: Cycle, turns: int)
    requires x - y == TWO32 * turns
    ensures x == y
  {
  }

  /** Inside one half circle the wrapping comparison is the ordinary order. */
  lemma WindowOrder(base: Cycle, a: Cycle, b: Cycle)
    requires InWindow(base, a) && InWindow(base, b)
    ensures Delta(a, b) == Offset(base, a) - Offset(base, b)
  {
    var oa: int, ob: int := Offset(base, a), Offset(base, b);
    var k: int := (a - base) / TWO32 - (b - base) / TWO32;
    SameRemainder(a - b, oa - ob, k);
  }

  /** Signed and unsigned views of one 32-bit word are inverse. */
  lemma BitsRoundTrip(c: Cycle)
    ensures FromBits(ToBits(c)) == c
  {
  }

  /** Scheduling a delay and reading it back gives the delay. */
  lemma AddThenDelta(clock: Cycle, delay: Cycle)
    ensures Delta(Add(clock, delay), clock) == delay
  {
    var s := (clock + delay) % TWO32;
    assert FromBits(s) == s || FromBits(s) == s - TWO32;
    assert (FromBits(s) - clock) % TWO32 == delay % TWO32;
  }

  /** Moving a clock's offset so that it shows `cycle` does show `cycle`. */
  lemma DeltaOfDelta(clock: Cycle, cycle: Cycle)
    ensures Delta(clock, Delta(clock, cycle)) == cycle
  {
    var d := (clock - cycle) % TWO32;
    assert FromBits(d) == d || FromBits(d) == d - TWO32;
    assert (clock - FromBits(d)) % TWO32 == cycle % TWO32;
  }
}
