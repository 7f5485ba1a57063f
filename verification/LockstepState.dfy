/** The bit-packed driver state of the link: saving, validating and loading it.

    A record stands for the C structure of 32-bit little-endian words, field by field. */
module LockstepState {
  import opened Wrappers
  import opened Cycles
  import opened Lockstep
  import opened LockstepSafety

  const VERSION: Word := 2
  const WIRE_EVENTS: nat := 64

  datatype WireEvent = WireEvent(timestamp: Word, playerId: Word, flags: Word, reserved: seq<Word>, padding: seq<Word>)

  datatype WireCoordinator = WireCoordinator(
    cycle: Word, waiting: Word, nextHardSync: Word, reserved: seq<Word>, multiData: Four<Half>, normalData: Four<Word>)

  datatype Wire = Wire(
    version: Word, flags: Word, reserved: seq<Word>,
    nextEvent: Word, reservedDriver: seq<Word>,
    playerId: Word, cycleOffset: Word, reservedPlayer: seq<Word>,
    events: seq<WireEvent>,
    coordinator: WireCoordinator)

  /** The lengths fixed by the C declarations. */
  predicate WellSized(w: Wire) {
    && |w.reserved| == 2 && |w.reservedDriver| == 7 && |w.reservedPlayer| == 2 && |w.coordinator.reserved| == 3
    && |w.events| == WIRE_EVENTS
    && (forall i :: 0 <= i < WIRE_EVENTS ==> |w.events[i].reserved| == 5 && |w.events[i].padding| == 4)
  }

  function Zeros(n: nat): (r: seq<Word>)
    ensures |r| == n && AllZero(r)
  {
    seq(n, i => 0)
  }

  predicate AllZero(words: seq<Word>) {
    forall i :: 0 <= i < |words| ==> words[i] == 0
  }

  // ---- Modes ----

  /** Three-bit code of a mode in the packed flags. */
  function ModeToInt(mode: Mode): (r: nat)
    ensures r <= 6 && IntToMode(r) == mode
  {
    match mode
    case NoMode => 0
    case Multi => 1
    case Normal8 => 2
    case Normal32 => 3
    case Gpio => 4
    case Uart => 5
    case Joybus => 6
  }

  function IntToMode(code: nat): Mode {
    if code == 1 then Multi else if code == 2 then Normal8 else if code == 3 then Normal32
    else if code == 4 then Gpio else if code == 5 then Uart else if code == 6 then Joybus else NoMode
  }

  /** The enumeration value of a mode, as events carry it. */
  function ModeCode(mode: Mode): (r: Cycle)
    ensures EventModeValid(r) && CodeMode(r) == mode
  {
    match mode
    case NoMode => -1
    case Normal8 => 0
    case Normal32 => 1
    case Multi => 2
    case Uart => 3
    case Gpio => 8
    case Joybus => 12
  }

  predicate EventModeValid(code: Cycle) {
    code == -1 || code == 0 || code == 1 || code == 2 || code == 3 || code == 8 || code == 12
  }

  function CodeMode(code: Cycle): Mode {
    if code == 0 then Normal8 else if code == 1 then Normal32 else if code == 2 then Multi
    else if code == 3 then Uart else if code == 8 then Gpio else if code == 12 then Joybus else NoMode
  }

  // ---- Packed flags ----

  datatype Flags = Flags(
    driverMode: nat, numEvents: nat, asleep: bool, dataReceived: bool, eventScheduled: bool,
    mode0: nat, mode1: nat, mode2: nat, mode3: nat,
    syncArmed: bool, reservedBits: nat, transferMode: nat, transferActive: bool)

  function Bit(b: bool): nat { if b then 1 else 0 }

  predicate FlagsFit(f: Flags) {
    && f.driverMode < 8 && f.numEvents < 128 && f.mode0 < 8 && f.mode1 < 8 && f.mode2 < 8 && f.mode3 < 8
    && f.reservedBits < 4 && f.transferMode < 8
  }

  /** Bits 0-2, 3-9, 10, 11 and 12. */
  function LowFlags(f: Flags): (r: nat)
    requires FlagsFit(f)
    ensures r < 0x2000
  {
    f.driverMode + 8 * f.numEvents
    + 0x400 * Bit(f.asleep) + 0x800 * Bit(f.dataReceived) + 0x1000 * Bit(f.eventScheduled)
  }

  /** Bits 13-24: the four player modes. */
  function ModeFlags(f: Flags): (r: nat)
    requires FlagsFit(f)
    ensures r < 0x1000
  {
    f.mode0 + 8 * f.mode1 + 0x40 * f.mode2 + 0x200 * f.mode3
  }

  /** Bits 25, 26-27, 28-30 and 31. */
  function HighFlags(f: Flags): (r: nat)
    requires FlagsFit(f)
    ensures r < 0x80
  {
    Bit(f.syncArmed) + 2 * f.reservedBits + 8 * f.transferMode + 0x40 * Bit(f.transferActive)
  }

  function Pack(f: Flags): Word
    requires FlagsFit(f)
  {
    LowFlags(f) + 0x2000 * ModeFlags(f) + 0x200_0000 * HighFlags(f)
  }

  function Unpack(w: Word): (f: Flags)
    ensures FlagsFit(f)
  {
    var low := w % 0x2000;
    var modes := w / 0x2000 % 0x1000;
    var high := w / 0x200_0000;
    Flags(low % 8, low / 8 % 128, low / 0x400 % 2 == 1, low / 0x800 % 2 == 1, low / 0x1000 == 1,
          modes % 8, modes / 8 % 8, modes / 0x40 % 8, modes / 0x200 % 8,
          high % 2 == 1, high / 2 % 4, high / 8 % 8, high / 0x40 == 1)
  }

  lemma SplitWord(low: nat, modes: nat, high: nat)
    requires low < 0x2000 && modes < 0x1000
    ensures
      var w := low + 0x2000 * modes + 0x200_0000 * high;
      w % 0x2000 == low && w / 0x2000 % 0x1000 == modes && w / 0x200_0000 == high
  {
    var w := low + 0x2000 * modes + 0x200_0000 * high;
    assert w == low + 0x2000 * (modes + 0x1000 * high);
    assert w / 0x2000 == modes + 0x1000 * high;
    assert w == (low + 0x2000 * modes) + 0x200_0000 * high;
  }

  lemma SplitLow(f: Flags)
    requires FlagsFit(f)
    ensures
      var low := LowFlags(f);
      && low % 8 == f.driverMode && low / 8 % 128 == f.numEvents && low / 0x400 % 2 == Bit(f.asleep)
      && low / 0x800 % 2 == Bit(f.dataReceived) && low / 0x1000 == Bit(f.eventScheduled)
  {
    var c, d, e := Bit(f.asleep), Bit(f.dataReceived), Bit(f.eventScheduled);
    DigitsAt8(f.driverMode, f.numEvents, c + 2 * d + 4 * e);
    var low := f.driverMode + 8 * f.numEvents;
    DigitAt400(low, c, d + 2 * e);
    DigitAt800(low + 0x400 * c, d, e);
    DigitAt1000(low + 0x400 * c + 0x800 * d, e);
  }

  lemma DigitsAt8(low: nat, digit: nat, rest: nat)
    requires low < 8 && digit < 128
    ensures (low + 8 * digit + 0x400 * rest) % 8 == low && (low + 8 * digit + 0x400 * rest) / 8 % 128 == digit
  {
    assert (low + 8 * digit + 0x400 * rest) / 8 == digit + 128 * rest;
  }

  lemma DigitAt400(low: nat, digit: nat, rest: nat)
    requires low < 0x400 && digit < 2
    ensures (low + 0x400 * digit + 0x800 * rest) / 0x400 % 2 == digit
  {
    assert (low + 0x400 * digit + 0x800 * rest) / 0x400 == digit + 2 * rest;
  }

  lemma DigitAt800(low: nat, digit: nat, rest: nat)
    requires low < 0x800 && digit < 2
    ensures (low + 0x800 * digit + 0x1000 * rest) / 0x800 % 2 == digit
  {
    assert (low + 0x800 * digit + 0x1000 * rest) / 0x800 == digit + 2 * rest;
  }

  lemma DigitAt1000(low: nat, digit: nat)
    requires low < 0x1000
    ensures (low + 0x1000 * digit) / 0x1000 == digit
  {
  }

  lemma SplitModes(f: Flags)
    requires FlagsFit(f)
    ensures
      var modes := ModeFlags(f);
      && modes % 8 == f.mode0 && modes / 8 % 8 == f.mode1 && modes / 0x40 % 8 == f.mode2 && modes / 0x200 % 8 == f.mode3
  {
    SplitDigits(f.mode0, f.mode1, f.mode2, f.mode3);
  }

  lemma SplitDigits(a: nat, b: nat, c: nat, d: nat)
    requires a < 8 && b < 8 && c < 8 && d < 8
    ensures
      var n := a + 8 * b + 0x40 * c + 0x200 * d;
      n % 8 == a && n / 8 % 8 == b && n / 0x40 % 8 == c && n / 0x200 % 8 == d
  {
    var n := a + 8 * b + 0x40 * c + 0x200 * d;
    assert n / 8 == b + 8 * c + 0x40 * d;
    assert n / 0x40 == c + 8 * d;
    assert n / 0x200 == d;
  }

  lemma SplitHigh(f: Flags)
    requires FlagsFit(f)
    ensures
      var high := HighFlags(f);
      && high % 2 == Bit(f.syncArmed) && high / 2 % 4 == f.reservedBits && high / 8 % 8 == f.transferMode
      && high / 0x40 == Bit(f.transferActive)
  {
    SplitHighNumbers(Bit(f.syncArmed), f.reservedBits, f.transferMode, Bit(f.transferActive));
  }

  lemma SplitHighNumbers(a: nat, b: nat, c: nat, d: nat)
    requires a < 2 && b < 4 && c < 8
    ensures
      var n := a + 2 * b + 8 * c + 0x40 * d;
      n % 2 == a && n / 2 % 4 == b && n / 8 % 8 == c && n / 0x40 == d
  {
    var n := a + 2 * b + 8 * c + 0x40 * d;
    assert n / 2 == b + 4 * (c + 8 * d);
    assert n / 8 == c + 8 * d;
    assert n / 0x40 == d;
  }

  /** Unpacking the flag word gives back every field. */
  lemma UnpackPack(f: Flags)
    requires FlagsFit(f)
    ensures Unpack(Pack(f)) == f
  {
    SplitWord(LowFlags(f), ModeFlags(f), HighFlags(f));
    SplitLow(f);
    SplitModes(f);
    SplitHigh(f);
  }

  // ---- Events ----

  function KindCode(kind: EventKind): Word {
    match kind
    case Attach => 0
    case Detach => 1
    case HardSync => 2
    case ModeSet(_) => 3
    case TransferStart(_) => 4
  }

  function SaveEvent(e: Event): WireEvent {
    var payload: Word := match e.kind
      case ModeSet(mode) => ToBits(ModeCode(mode))
      case TransferStart(finishCycle) => ToBits(finishCycle)
      case _ => 0;
    WireEvent(ToBits(e.timestamp), ToBits(e.source), KindCode(e.kind), Zeros(5), [payload, 0, 0, 0])
  }

  predicate EventValid(w: WireEvent)
    requires |w.padding| == 4
  {
    && w.flags < 8
    && AllZero(w.reserved) && AllZero(w.padding[1..])
    && w.flags <= 4
    && (if w.flags == 2 || w.flags == 4 then w.playerId == 0 else 0 <= FromBits(w.playerId) < 2)
    && (if w.flags == 3 then EventModeValid(FromBits(w.padding[0])) else w.flags == 4 || w.padding[0] == 0)
  }

  function LoadEvent(w: WireEvent): Event
    requires |w.padding| == 4 && EventValid(w)
  {
    var kind :=
      if w.flags == 0 then Attach
      else if w.flags == 1 then Detach
      else if w.flags == 2 then HardSync
      else if w.flags == 3 then ModeSet(CodeMode(FromBits(w.padding[0])))
      else TransferStart(FromBits(w.padding[0]));
    Event(kind, FromBits(w.timestamp), FromBits(w.playerId))
  }

  lemma EventRoundTrip(e: Event)
    requires e.source < 2 && (e.kind.HardSync? || e.kind.TransferStart? ==> e.source == 0)
    ensures |SaveEvent(e).padding| == 4 && EventValid(SaveEvent(e)) && LoadEvent(SaveEvent(e)) == e
  {
  }

  // ---- Driver states ----

  function MaskOf(s: set<int>): Word {
    Bit(0 in s) + 2 * Bit(1 in s) + 4 * Bit(2 in s) + 8 * Bit(3 in s)
  }

  function SetOf(mask: Word): set<int> {
    (if mask % 2 == 1 then {0} else {}) + (if mask / 2 % 2 == 1 then {1} else {})
    + (if mask / 4 % 2 == 1 then {2} else {}) + (if mask / 8 % 2 == 1 then {3} else {})
  }

  function SaveEvents(q: seq<Event>): (r: seq<WireEvent>)
    requires |q| <= WIRE_EVENTS
    ensures |r| == WIRE_EVENTS
    ensures forall i :: 0 <= i < |q| ==> r[i] == SaveEvent(q[i])
    ensures forall i :: |q| <= i < WIRE_EVENTS ==> r[i] == WireEvent(0, 0, 0, [0, 0, 0, 0, 0], [0, 0, 0, 0])
    ensures forall i :: 0 <= i < WIRE_EVENTS ==> |r[i].reserved| == 5 && |r[i].padding| == 4
  {
    seq(|q|, i requires 0 <= i < |q| => SaveEvent(q[i]))
    + seq(WIRE_EVENTS - |q|, i => WireEvent(0, 0, 0, Zeros(5), Zeros(4)))
  }

  function SavedFlags(l: Link, id: Side): (f: Flags)
    requires |Get(l, id).queue| < 128
    ensures FlagsFit(f)
  {
    var p := Get(l, id);
    var m := p.otherModes;
    Flags(ModeToInt(p.mode), |p.queue|, p.asleep, p.dataReceived, p.timer.scheduled,
          ModeToInt(m.at0), ModeToInt(m.at1), ModeToInt(m.at2), ModeToInt(m.at3),
          id == 0 && l.syncArmed, 0, if id == 0 then ModeToInt(l.transferMode) else 0, id == 0 && l.transferActive)
  }

  function Save(l: Link, id: Side): (w: Wire)
    requires |Get(l, id).queue| <= CAPACITY
    ensures WellSized(w)
  {
    var p := Get(l, id);
    var coordinator :=
      if id == 0
      then WireCoordinator(ToBits(l.cycle), MaskOf(l.waiting), ToBits(l.nextHardSync), Zeros(3),
                           l.multiData, l.normalData)
      else WireCoordinator(0, 0, 0, Zeros(3), Four(0, 0, 0, 0), Four(0, 0, 0, 0));
    Wire(VERSION, Pack(SavedFlags(l, id)), Zeros(2), ToBits(Delta(p.timer.when, p.clock)), Zeros(7),
         id, ToBits(p.cycleOffset), Zeros(2), SaveEvents(p.queue), coordinator)
  }

  /** Acceptance of a state by the driver of player `id`, with both players attached. */
  predicate Validate(id: Side, w: Wire)
    requires WellSized(w)
  {
    var f := Unpack(w.flags);
    && w.version == VERSION && AllZero(w.reserved) && AllZero(w.reservedDriver) && AllZero(w.reservedPlayer)
    && w.playerId == id
    && f.reservedBits == 0
    && f.driverMode <= 6 && f.mode0 <= 6 && f.mode1 <= 6 && f.mode2 <= 6 && f.mode3 <= 6
    && EventsValid(w)
    && (if id == 0
        then f.transferMode <= 6 && AllZero(w.coordinator.reserved)
             && (w.coordinator.waiting == 0 || w.coordinator.waiting == 2)
        else !f.syncArmed && f.transferMode == 0 && !f.transferActive
             && w.coordinator == WireCoordinator(0, 0, 0, Zeros(3), Four(0, 0, 0, 0), Four(0, 0, 0, 0)))
  }

  predicate EventsValid(w: Wire)
    requires WellSized(w)
  {
    var n := Unpack(w.flags).numEvents;
    n <= CAPACITY && forall i :: 0 <= i < n ==> EventValid(w.events[i])
  }

  function LoadEvents(w: Wire): (q: seq<Event>)
    requires WellSized(w) && EventsValid(w)
    ensures |q| == Unpack(w.flags).numEvents <= CAPACITY
    ensures forall i :: 0 <= i < |q| ==> q[i] == LoadEvent(w.events[i])
  {
    var n := Unpack(w.flags).numEvents;
    seq(n, i requires 0 <= i < n => LoadEvent(w.events[i]))
  }

  /** Modes, sleep flag, offset and receive flag. */
  function LoadFields(p: Player, f: Flags, offset: Cycle): Player {
    p.(mode := IntToMode(f.driverMode),
    otherModes := Four(IntToMode(f.mode0), IntToMode(f.mode1), IntToMode(f.mode2), IntToMode(f.mode3)),
    asleep := f.asleep, cycleOffset := offset, dataReceived := f.dataReceived)
  }

  function LoadTimer(p: Player, scheduled: bool, delay: Cycle): Player {
    p.(timer := if scheduled then Schedule(p.clock, Sanitize(delay)) else p.timer.(scheduled := false))
  }

  function LoadQueue(p: Player, queue: seq<Event>): Player
    requires |queue| <= CAPACITY
  {
    p.(queue := queue, free := CAPACITY - |queue|, depth := |queue|, maxDepth := |queue|,
    timer := TimerForQueueHead(p.timer, queue, p.clock, Time(p)))
  }

  function LoadPlayer(p: Player, w: Wire): Player
    requires WellSized(w) && EventsValid(w)
  {
    var f := Unpack(w.flags);
    var fields := LoadFields(p, f, FromBits(w.cycleOffset));
    LoadQueue(LoadTimer(fields, f.eventScheduled, FromBits(w.nextEvent)), LoadEvents(w))
  }

  /** The coordinator's part of the primary's state. */
  function LoadShared(l: Link, f: Flags, c: WireCoordinator): Link {
    l.(cycle := FromBits(c.cycle), waiting := SetOf(c.waiting), nextHardSync := FromBits(c.nextHardSync),
    multiData := c.multiData, normalData := c.normalData,
    transferMode := IntToMode(f.transferMode), transferActive := f.transferActive, syncArmed := f.syncArmed)
  }

  /** Loading leaves the link alone when the state is refused. */
  function Load(l: Link, id: Side, w: Wire): (Link, bool)
    requires WellSized(w)
  {
    if !Validate(id, w) then (l, false) else
    var f := Unpack(w.flags);
    var l1 := Put(l, id, LoadPlayer(Get(l, id), w)).(maxQueueDepth := Max(l.maxQueueDepth, f.numEvents));
    (if id == 0 then LoadShared(l1, f, w.coordinator) else l1, true)
  }

  /** Secondary first, then the primary, which owns the coordinator part. */
  function LoadPair(l: Link, w0: Wire, w1: Wire): (Link, bool)
    requires WellSized(w0) && WellSized(w1)
  {
    if !Validate(0, w0) || !Validate(1, w1) then (l, false)
    else (Load(Load(l, 1, w1).0, 0, w0).0, true)
  }

  // ---- Refusals ----

  /** States that the driver of player `id` must not take: another version or another player's, more events than
      there are slots, a reserved word or bit in use, an unknown mode or event, a barrier event that does not
      come from the primary, or a barrier that waits for anybody but the secondary. */
  predicate Alien(id: Side, w: Wire)
    requires WellSized(w)
  {
    var f := Unpack(w.flags);
    || w.version != VERSION || w.playerId != id || f.numEvents > CAPACITY || f.reservedBits != 0
    || f.driverMode == 7 || f.mode0 == 7 || f.mode1 == 7 || f.mode2 == 7 || f.mode3 == 7
    || (exists i :: 0 <= i < 2 && (w.reserved[i] != 0 || w.reservedPlayer[i] != 0))
    || (exists i :: 0 <= i < 7 && w.reservedDriver[i] != 0)
    || (exists i :: 0 <= i < 3 && w.coordinator.reserved[i] != 0)
    || (id == 0 && (f.transferMode == 7 || w.coordinator.waiting !in {0, 2}))
    || (id == 1 && (f.transferActive || f.syncArmed || w.coordinator.waiting != 0))
    || exists i :: 0 <= i < f.numEvents && i < WIRE_EVENTS &&
                   (w.events[i].flags > 4 || FromBits(w.events[i].playerId) !in {0, 1}
                    || (w.events[i].flags in {2, 4} && w.events[i].playerId != 0)
                    || (w.events[i].flags in {0, 1, 2} && w.events[i].padding[0] != 0)
                    || (exists k :: 0 <= k < 5 && w.events[i].reserved[k] != 0)
                    || (exists k :: 1 <= k < 4 && w.events[i].padding[k] != 0))
  }

  /** An alien state is refused and leaves the link alone. */
  lemma AlienRefused(l: Link, id: Side, w: Wire)
    requires WellSized(w) && Alien(id, w)
    ensures Load(l, id, w) == (l, false)
  {
  }

  /** A pair is restored as a whole: if either state is alien, nothing changes. */
  lemma PairRefused(l: Link, w0: Wire, w1: Wire)
    requires WellSized(w0) && WellSized(w1) && (Alien(0, w0) || Alien(1, w1))
    ensures LoadPair(l, w0, w1) == (l, false)
  {
    if Alien(0, w0) { AlienRefused(l, 0, w0); } else { AlienRefused(l, 1, w1); }
  }

  /** What is accepted, wherever it comes from, fills the player's slots consistently with events of the two
      players, and concerns nobody else; only the primary's state touches the coordinator. */
  lemma AcceptedSane(l: Link, id: Side, w: Wire)
    requires WellSized(w) && Validate(id, w)
    ensures
      var (r, ok) := Load(l, id, w);
      var p := Get(r, id);
      && ok && |p.queue| + p.free == CAPACITY && p.depth == |p.queue|
      && (forall i :: 0 <= i < |p.queue| ==>
                        p.queue[i].source < 2
                        && (p.queue[i].kind.HardSync? || p.queue[i].kind.TransferStart? ==> p.queue[i].source == 0))
      && Get(r, 1 - id) == Get(l, 1 - id)
      && (id == 0 ==> r.waiting <= {1})
      && (id == 1 ==> r == l.(p1 := p, maxQueueDepth := r.maxQueueDepth))
  {
    var q := LoadEvents(w);
    forall i | 0 <= i < |q|
      ensures q[i].source < 2 && (q[i].kind.HardSync? || q[i].kind.TransferStart? ==> q[i].source == 0)
    {
      assert EventValid(w.events[i]);
    }
  }

  // ---- Round trip ----

  /** What the next wake becomes: clamped to one cycle, then pulled to the queue head. */
  function RestoredTimer(saved: Player, current: Player): Timer {
    var timer := if saved.timer.scheduled
                 then Schedule(current.clock, Sanitize(Delta(saved.timer.when, saved.clock)))
                 else current.timer.(scheduled := false);
    TimerForQueueHead(timer, saved.queue, current.clock, Delta(current.clock, saved.cycleOffset))
  }

  function RestoredPlayer(saved: Player, current: Player): Player {
    saved.(clock := current.clock, maxDepth := |saved.queue|, timer := RestoredTimer(saved, current))
  }

  lemma SavedEventsValid(id: Side, q: seq<Event>)
    requires |q| <= CAPACITY && Channel(id, q)
    ensures forall i :: 0 <= i < |q| ==> EventValid(SaveEvents(q)[i]) && LoadEvent(SaveEvents(q)[i]) == q[i]
  {
    forall i | 0 <= i < |q| ensures EventValid(SaveEvents(q)[i]) && LoadEvent(SaveEvents(q)[i]) == q[i] {
      EventRoundTrip(q[i]);
    }
  }

  lemma SavedEventsKept(base: Cycle, l: Link, id: Side)
    requires Inv(base, l)
    ensures EventsValid(Save(l, id)) && Unpack(Save(l, id).flags) == SavedFlags(l, id)
  {
    UnpackPack(SavedFlags(l, id));
    SavedEventsValid(id, Get(l, id).queue);
  }

  lemma ZerosAreZero(n: nat)
    ensures AllZero(Zeros(n))
  {
  }

  lemma SavedValid(base: Cycle, l: Link, id: Side)
    requires Inv(base, l)
    ensures Validate(id, Save(l, id))
  {
    SavedEventsKept(base, l, id);
    ZerosAreZero(2);
    ZerosAreZero(3);
    ZerosAreZero(7);
    MaskRoundTrip(l.waiting);
  }

  lemma LoadedPlayer(base: Cycle, l: Link, id: Side, current: Player)
    requires Inv(base, l) && Validate(id, Save(l, id))
    ensures LoadPlayer(current, Save(l, id)) == RestoredPlayer(Get(l, id), current)
  {
    var p := Get(l, id);
    UnpackPack(SavedFlags(l, id));
    SavedEventsValid(id, p.queue);
    BitsRoundTrip(p.cycleOffset);
    BitsRoundTrip(Delta(p.timer.when, p.clock));
    assert LoadPlayer(current, Save(l, id)).queue == p.queue;
  }

  lemma MaskRoundTrip(s: set<int>)
    requires s <= {1}
    ensures SetOf(MaskOf(s)) == s && (MaskOf(s) == 0 || MaskOf(s) == 2)
  {
    assert 0 !in s && 2 !in s && 3 !in s;
  }

  /** The wait mask and the set of players it stands for. */
  lemma MaskMeaning(s: set<int>)
    requires s <= {0, 1, 2, 3}
    ensures SetOf(MaskOf(s)) == s
  {
    var m := MaskOf(s);
    assert m % 2 == Bit(0 in s) && m / 2 % 2 == Bit(1 in s) && m / 4 % 2 == Bit(2 in s) && m / 8 % 2 == Bit(3 in s);
  }

  lemma SetMeaning(mask: Word)
    requires mask < 16
    ensures MaskOf(SetOf(mask)) == mask
  {
  }

  /** A state saved from any link that satisfies the invariant is accepted, and loading it
      into any attached pair reproduces it except for the clocks of that pair, the depth
      statistics and the next wake. */
  lemma SaveLoadRoundTrip(base: Cycle, saved: Link, current: Link)
    requires Inv(base, saved)
    ensures Validate(0, Save(saved, 0)) && Validate(1, Save(saved, 1))
    ensures
      var (r, ok) := LoadPair(current, Save(saved, 0), Save(saved, 1));
      ok && r == saved.(p0 := RestoredPlayer(saved.p0, current.p0), p1 := RestoredPlayer(saved.p1, current.p1),
                 maxQueueDepth := r.maxQueueDepth, droppedEvents := current.droppedEvents)
  {
    SavedValid(base, saved, 0);
    SavedValid(base, saved, 1);
    LoadedPlayer(base, saved, 1, current.p1);
    LoadedPlayer(base, saved, 0, current.p0);
    UnpackPack(SavedFlags(saved, 0));
    BitsRoundTrip(saved.cycle);
    BitsRoundTrip(saved.nextHardSync);
    MaskRoundTrip(saved.waiting);
  }

  /** On an unchanged clock the restored wake is the saved one, clamped to at least one
      cycle and advanced to the queue head when that comes first. */
  lemma RestoredWake(saved: Player, current: Player)
    requires saved.timer.scheduled && current.clock == saved.clock
    ensures
      var wake := Sanitize(Delta(saved.timer.when, saved.clock));
      var r := RestoredTimer(saved, current);
      r.scheduled &&
      Delta(r.when, current.clock) ==
      if saved.queue == [] then wake
      else var head := Sanitize(Delta(saved.queue[0].timestamp, Time(saved))); if head < wake then head else wake
  {
    AddThenDelta(current.clock, Sanitize(Delta(saved.timer.when, saved.clock)));
    if saved.queue != [] {
      AddThenDelta(current.clock, Sanitize(Delta(saved.queue[0].timestamp, Time(saved))));
    }
  }
}
