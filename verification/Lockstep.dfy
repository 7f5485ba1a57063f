/** The GBA link-cable lockstep protocol between the two machines of one pair.

    The state is a value, `Link`; every driver callback is a function on it. The functions
    follow the callbacks branch by branch; what they guarantee together, over every run, is
    stated in module LockstepSafety. */
module Lockstep {
  import opened Wrappers
  import opened Cycles

  const CAPACITY: nat := 8
  const LOCKSTEP_INTERVAL: Cycle := 4096
  const UNLOCKED_INTERVAL: Cycle := 4096
  const HARD_SYNC_INTERVAL: Cycle := 0x80000

  /** Serial modes of a machine; `NoMode` is the driver's -1. */
  datatype Mode = NoMode | Normal8 | Normal32 | Multi | Uart | Gpio | Joybus

  /** The coordinator has room for four players; a pair uses ids 0 and 1. */
  type PlayerId = i: int | 0 <= i < 4 witness 0
  type Side = i: int | 0 <= i < 2 witness 0

  datatype EventKind =
    | Attach
    | Detach
    | HardSync
    | ModeSet(mode: Mode)
    | TransferStart(finishCycle: Cycle)

  datatype Event = Event(kind: EventKind, timestamp: Cycle, source: PlayerId)

  /** A C array of four. */
  datatype Four<T> = Four(at0: T, at1: T, at2: T, at3: T)

  function With<T>(f: Four<T>, i: PlayerId, v: T): Four<T> {
    if i == 0 then f.(at0 := v) else if i == 1 then f.(at1 := v)
    else if i == 2 then f.(at2 := v) else f.(at3 := v)
  }

  /** A player's entry in its machine's timing queue. */
  datatype Timer = Timer(scheduled: bool, when: Cycle)

  /** One attached machine: its protocol fields, its clock and its timing-queue entry.
      `free` is the length of the free list of its event buffer. */
  datatype Player = Player(
    mode: Mode,
    otherModes: Four<Mode>,
    asleep: bool,
    cycleOffset: Cycle,
    dataReceived: bool,
    queue: seq<Event>,
    free: nat,
    depth: nat,
    maxDepth: nat,
    clock: Cycle,
    timer: Timer)

  datatype Link = Link(
    p0: Player,
    p1: Player,
    waiting: set<int>,
    transferActive: bool,
    syncArmed: bool,
    transferMode: Mode,
    cycle: Cycle,
    nextHardSync: Cycle,
    maxQueueDepth: nat,
    droppedEvents: nat,
    multiData: Four<Half>,
    normalData: Four<Word>)

  function BlankPlayer(): Player {
    Player(Normal8, Four(Normal8, Normal8, Normal8, Normal8), false, 0, false, [], CAPACITY, 0, 0, 0, Timer(false, 0))
  }

  function Blank(): Link {
    Link(BlankPlayer(), BlankPlayer(), {}, false, false, Normal8, 0, 0, 0, 0, Four(0, 0, 0, 0), Four(0, 0, 0, 0))
  }

  function Get(l: Link, id: Side): Player {
    if id == 0 then l.p0 else l.p1
  }

  function Put(l: Link, id: Side, p: Player): (r: Link)
  {
    if id == 0 then l.(p0 := p) else l.(p1 := p)
  }

  /** The shared-clock time of a player. */
  function Time(p: Player): Cycle {
    Delta(p.clock, p.cycleOffset)
  }

  function Schedule(clock: Cycle, delay: Cycle): Timer {
    Timer(true, Add(clock, delay))
  }

  /** Moves a pending wake forward to the head of the queue, never backward. */
  function TimerForQueueHead(timer: Timer, queue: seq<Event>, clock: Cycle, time: Cycle): Timer {
    if queue == [] || !timer.scheduled then timer else
    var scheduledDelay := Delta(timer.when, clock);
    if scheduledDelay <= 0 then timer else
    var queuedDelay := Sanitize(Delta(queue[0].timestamp, time));
    if queuedDelay >= scheduledDelay then timer else Schedule(clock, queuedDelay)
  }

  /** Where a new event goes: before the first queued event that is later than it. */
  function InsertIndex(q: seq<Event>, e: Event): (k: nat)
    ensures k <= |q|
    ensures forall i :: 0 <= i < k ==> Delta(e.timestamp, q[i].timestamp) >= 0
    ensures k < |q| ==> Delta(e.timestamp, q[k].timestamp) < 0
  {
    if q == [] || Delta(e.timestamp, q[0].timestamp) < 0 then 0 else 1 + InsertIndex(q[1..], e)
  }

  function Insert(q: seq<Event>, e: Event): seq<Event> {
    var k := InsertIndex(q, e);
    q[..k] + [e] + q[k..]
  }

  /** A player with room in its buffer, after one more event was queued. */
  function Receive(p: Player, e: Event): Player
    requires p.free > 0
  {
    var queue := Insert(p.queue, e);
    p.(queue := queue, free := p.free - 1, depth := p.depth + 1, maxDepth := Max(p.maxDepth, p.depth + 1),
    timer := TimerForQueueHead(p.timer, queue, p.clock, Time(p)))
  }

  /** Puts one event into one player's queue, or drops it when the buffer is full. */
  function Deliver(l: Link, id: Side, e: Event): (r: (Link, bool)) {
    var p := Get(l, id);
    if p.free == 0 then (l.(droppedEvents := l.droppedEvents + 1), false) else
    (Put(l, id, Receive(p, e)).(maxQueueDepth := if p.depth + 1 > p.maxDepth then Max(l.maxQueueDepth, p.depth + 1)
     else l.maxQueueDepth), true)
  }

  /** Delivers to every attached target; succeeds when none of them was full. */
  function Enqueue(l: Link, e: Event, target: set<int>): (Link, bool) {
    var (l0, ok0) := if 0 in target then Deliver(l, 0, e) else (l, true);
    var (l1, ok1) := if 1 in target then Deliver(l0, 1, e) else (l0, true);
    (l1, ok0 && ok1)
  }

  function SetReady(p: Player, id: PlayerId, mode: Mode): Player
  {
    p.(otherModes := With(p.otherModes, id, mode))
  }

  /** The serial registers a machine shows the driver. */
  datatype Serial = Serial(multiSend: Half, data8: Half, data32: Word)

  function SetData(l: Link, id: Side, sio: Serial): Link {
    l.(multiData := if l.transferMode == Multi then With(l.multiData, id, sio.multiSend) else l.multiData,
    normalData := if l.transferMode == Normal8 then With(l.normalData, id, sio.data8)
    else if l.transferMode == Normal32 then With(l.normalData, id, sio.data32)
    else l.normalData)
  }

  /** Advances the shared clock to the primary's time, never backwards. */
  function AdvanceCycle(l: Link): Link {
    var newCycle := Time(l.p0);
    var elapsed := Delta(newCycle, l.cycle);
    l.(nextHardSync := if elapsed < 0 then l.nextHardSync else AddSaturated(l.nextHardSync, -elapsed),
    cycle := if elapsed < 0 then l.cycle else newCycle)
  }

  function WakeSecondary(l: Link): Link {
    l.(p1 := l.p1.(asleep := false))
  }

  /** What the three assertions at the head of the wait demand. */
  predicate MayWait(l: Link) {
    l.waiting == {} && !l.p0.asleep
  }

  function WaitOnPlayers(l: Link): Link
    requires MayWait(l)
  {
    var l1 := AdvanceCycle(l);
    WakeSecondary(l1.(waiting := {1}, p0 := l1.p0.(asleep := true)))
  }

  /** The last acknowledgement completes a transfer and wakes the primary. */
  function Released(l: Link): Link {
    var received := if l.transferActive
                    then l.(p0 := l.p0.(dataReceived := true), p1 := l.p1.(dataReceived := true),
                         transferActive := false)
                    else l;
    received.(p0 := received.p0.(asleep := false))
  }

  function Ack(l: Link, id: Side): Link {
    if id == 0 || id !in l.waiting then l else
    var l1 := l.(waiting := l.waiting - {id});
    var l2 := if l1.waiting == {} then Released(l1) else l1;
    Put(l2, id, Get(l2, id).(asleep := true))
  }

  /** The primary never sleeps without a barrier, so every wait it starts is legal. */
  predicate AwakeWhenFree(l: Link) {
    l.waiting == {} ==> !l.p0.asleep
  }

  function BeginHardSync(l: Link): Link
    requires MayWait(l)
  {
    var (l1, queued) := Enqueue(l, Event(HardSync, Time(l.p0), 0), {1, 2, 3});
    if queued then WaitOnPlayers(l1) else l1
  }

  /** A mode change before it is announced. */
  function NoteMode(l: Link, id: Side, mode: Mode): Link {
    var l1 := Put(l, id, SetReady(Get(l, id).(mode := mode), id, mode));
    l1.(transferMode := if id == 0 then mode else l1.transferMode)
  }

  function SetMode(l: Link, id: Side, mode: Mode): Link
    requires AwakeWhenFree(l)
  {
    if mode == Get(l, id).mode then l else
    var event := Event(ModeSet(mode), Time(Get(l, id)), id);
    var (l1, queued) := Enqueue(NoteMode(l, id, mode), event, if id == 0 then {1, 2, 3} else {0, 2, 3});
    if id == 0 && l.waiting == {} && queued then WaitOnPlayers(l1) else l1
  }

  /** `transferCycles` is what the serial hardware says this transfer takes. */
  function Start(l: Link, id: Side, sio: Serial, transferCycles: Cycle): (Link, bool)
    requires AwakeWhenFree(l)
  {
    if l.transferActive || id != 0 then (l, false) else
    var l1 := SetData(l.(multiData := Four(0xFFFF, 0xFFFF, 0xFFFF, 0xFFFF)), 0, sio);
    var timestamp := Time(l.p0);
    var event := Event(TransferStart(Add(timestamp, transferCycles)), timestamp, 0);
    var (l2, queued) := Enqueue(l1, event, {1, 2, 3});
    if queued then (BeginTransfer(l2), true) else (l2, false)
  }

  /** Marks the transfer active; the first multiplayer transfer arms the periodic hard sync. */
  function Activate(l: Link): Link {
    var arms := l.p0.mode == Multi && !l.syncArmed;
    l.(transferActive := true, syncArmed := l.syncArmed || arms,
                                            nextHardSync := if arms then HARD_SYNC_INTERVAL else l.nextHardSync)
  }

  /** Waits for the transfer, unless a barrier is pending already. */
  function BeginTransfer(l: Link): Link
    requires AwakeWhenFree(l)
  {
    if l.waiting == {} then WaitOnPlayers(Activate(l)) else Activate(l)
  }

  /** The transfer-finished callback of the given mode. */
  function Finish(l: Link, id: Side, mode: Mode): Link
    requires AwakeWhenFree(l)
  {
    if l.transferMode != mode then l else
    var l1 := Put(l, id, Get(l, id).(dataReceived := false));
    if id != 0 || !l1.syncArmed then l1
    else if l1.waiting != {} then l1.(nextHardSync := -1)
    else BeginHardSync(l1)
  }

  function UntilNextSync(l: Link, id: Side): Cycle {
    if !l.syncArmed then UNLOCKED_INTERVAL else
    var cycle := Delta(l.cycle, Time(Get(l, id)));
    if id == 0 then AddSaturated(cycle, LOCKSTEP_INTERVAL) else cycle
  }

  /** The clock owner's part of the periodic callback. */
  function OwnClock(l: Link): Link
    requires AwakeWhenFree(l)
  {
    if Delta(Time(l.p0), l.cycle) < 0 then l else
    var l1 := AdvanceCycle(l);
    var l2 := if l1.transferActive then l1 else WakeSecondary(l1);
    if !l2.syncArmed || l2.nextHardSync >= 0 then l2 else
    var l3 := if l2.waiting == {} then BeginHardSync(l2) else l2;
    l3.(nextHardSync := AddSaturated(l3.nextHardSync, HARD_SYNC_INTERVAL))
  }

  /** The mode announcement that answers an attach or a detach. */
  function Reply(p: Player, id: Side): Event {
    Event(ModeSet(p.mode), Time(p), id)
  }

  /** Handling of one event that has left the queue of `id` and is not free yet. */
  function Handle(l: Link, id: Side, e: Event, sio: Serial): Link {
    var p := Get(l, id);
    var reply := Reply(p, id);
    match e.kind
    case Attach =>
      Enqueue(Put(l, id, SetReady(p, e.source, NoMode)), reply, {e.source}).0
    case HardSync => Ack(l, id)
    case TransferStart(_) => Ack(SetData(l, id, sio), id)
    case ModeSet(mode) =>
      var l1 := Put(l, id, SetReady(p, e.source, mode));
      if e.source == 0 then Ack(l1, id) else l1
    case Detach =>
      Enqueue(Put(l, id, SetReady(SetReady(p, e.source, NoMode), id, p.mode)), reply, {0, 1} - {e.source}).0
  }

  function TakeHead(l: Link, id: Side): Link
    requires Get(l, id).queue != []
  {
    var p := Get(l, id);
    Put(l, id, p.(queue := p.queue[1..]))
  }

  function Release(l: Link, id: Side): Link {
    var p := Get(l, id);
    Put(l, id, p.(free := p.free + 1, depth := if p.depth > 0 then p.depth - 1 else 0))
  }

  predicate Due(p: Player) {
    p.queue != [] && Delta(p.queue[0].timestamp, Time(p)) <= 0
  }

  /** One pass of the drain loop. */
  function DrainOne(l: Link, id: Side, sio: Serial): Link
    requires Due(Get(l, id))
  {
    Release(Handle(TakeHead(l, id), id, Get(l, id).queue[0], sio), id)
  }

  function TransferDelay(l: Link, id: Side, finishCycle: Cycle, cyclesLate: Word): Cycle {
    Sanitize(AfterLateness(Delta(finishCycle, Time(Get(l, id))), cyclesLate))
  }

  /** Attach and detach events may be answered into the same queue, so they count double. */
  function Weight(q: seq<Event>): nat {
    if q == [] then 0
    else (if q[0].kind.Attach? || q[0].kind.Detach? then 2 else 1) + Weight(q[1..])
  }

  lemma {:induction false} WeightSplit(a: seq<Event>, b: seq<Event>)
    ensures Weight(a + b) == Weight(a) + Weight(b)
  {
    if a == [] {
      assert a + b == b;
    } else {
      assert (a + b)[1..] == a[1..] + b;
      WeightSplit(a[1..], b);
    }
  }

  lemma WeightInsert(q: seq<Event>, e: Event)
    ensures Weight(Insert(q, e)) == Weight(q) + Weight([e])
  {
    var k := InsertIndex(q, e);
    WeightSplit(q[..k] + [e], q[k..]);
    WeightSplit(q[..k], [e]);
    WeightSplit(q[..k], q[k..]);
    assert q[..k] + q[k..] == q;
  }

  lemma DeliverQueue(l: Link, id: Side, e: Event)
    ensures
      var l' := Deliver(l, id, e).0;
      && Get(l', 1 - id) == Get(l, 1 - id)
      && (Get(l', id).queue == Get(l, id).queue || Get(l', id).queue == Insert(Get(l, id).queue, e))
  {
  }

  lemma EnqueueQueue(l: Link, id: Side, e: Event, target: set<int>)
    ensures
      var q, q' := Get(l, id).queue, Get(Enqueue(l, e, target).0, id).queue;
      q' == q || q' == Insert(q, e)
  {
    var (l0, _) := if 0 in target then Deliver(l, 0, e) else (l, true);
    var (l1, _) := if 1 in target then Deliver(l0, 1, e) else (l0, true);
    DeliverQueue(l, 0, e);
    DeliverQueue(l0, 1, e);
    assert Enqueue(l, e, target).0 == l1;
  }

  /** The only event that handling can put into the handler's own queue is one reply. */
  lemma HandleQueue(l: Link, id: Side, e: Event, sio: Serial)
    ensures
      var q, q' := Get(l, id).queue, Get(Handle(l, id, e, sio), id).queue;
      q' == q || ((e.kind.Attach? || e.kind.Detach?) && q' == Insert(q, Reply(Get(l, id), id)))
  {
    match e.kind {
      case Attach =>
        EnqueueQueue(Put(l, id, SetReady(Get(l, id), e.source, NoMode)), id, Reply(Get(l, id), id), {e.source});
      case Detach =>
        var p := Get(l, id);
        EnqueueQueue(Put(l, id, SetReady(SetReady(p, e.source, NoMode), id, p.mode)), id, Reply(p, id),
                     {0, 1} - {e.source});
      case _ =>
    }
  }

  /** The drain loop makes progress although it may refill its own queue. */
  lemma DrainProgress(l: Link, id: Side, sio: Serial)
    requires Due(Get(l, id))
    ensures Weight(Get(DrainOne(l, id, sio), id).queue) < Weight(Get(l, id).queue)
  {
    var p := Get(l, id);
    HandleQueue(TakeHead(l, id), id, p.queue[0], sio);
    WeightInsert(p.queue[1..], Reply(p, id));
  }

  datatype Drained = Drained(link: Link, nextEvent: Cycle, wasDetach: bool)

  /** The drain loop: every due event is handled in queue order. */
  function Drain(l: Link, id: Side, sio: Serial, cyclesLate: Word, nextEvent: Cycle, wasDetach: bool): Drained
    decreases Weight(Get(l, id).queue)
  {
    if !Due(Get(l, id)) then Drained(l, nextEvent, wasDetach) else
    var e := Get(l, id).queue[0];
    var next := if e.kind.TransferStart? then TransferDelay(l, id, e.kind.finishCycle, cyclesLate) else nextEvent;
    DrainProgress(l, id, sio);
    Drain(DrainOne(l, id, sio), id, sio, cyclesLate, next, wasDetach || e.kind.Detach?)
  }

  /** The periodic callback of one player, up to its drain loop. */
  function Fired(l: Link, id: Side): Link
    requires AwakeWhenFree(l)
  {
    var fired := Put(l, id, Get(l, id).(timer := Get(l, id).timer.(scheduled := false)));
    if id == 0 then OwnClock(fired) else fired
  }

  /** The periodic callback of one player, up to the end of its drain loop. */
  function FireAndDrain(l: Link, id: Side, sio: Serial, cyclesLate: Word): Drained
    requires AwakeWhenFree(l)
  {
    var queue := Get(l, id).queue;
    var owned := Fired(l, id);
    Drain(owned, id, sio, cyclesLate, UntilNextSync(owned, id), queue != [] && queue[0].kind.Detach?)
  }

  /** The periodic callback of one player. */
  function LockstepEvent(l: Link, id: Side, sio: Serial, cyclesLate: Word): Link
    requires AwakeWhenFree(l)
  {
    Reschedule(FireAndDrain(l, id, sio, cyclesLate), id)
  }

  /** The tail of the callback: the secondary may fall asleep, and the next wake is set. */
  function Reschedule(d: Drained, id: Side): Link {
    var p := Get(d.link, id);
    var next :=
      if p.queue != [] && Delta(p.queue[0].timestamp, Time(p)) < d.nextEvent
      then Delta(p.queue[0].timestamp, Time(p)) else d.nextEvent;
    var sleeps := d.link.syncArmed && id != 0 && next <= LOCKSTEP_INTERVAL && (p.queue == [] || d.wasDetach);
    var next' := if sleeps && next < 4 then 4 else next;
    Put(d.link, id, p.(asleep := p.asleep || sleeps, timer := Schedule(p.clock, Sanitize(next'))))
  }

  /** The reset callback of an attached machine. */
  function Reset(l: Link, id: Side): Link {
    var l1 := l.(syncArmed := false);
    var p := Get(l1, id).(cycleOffset := Delta(Get(l1, id).clock, l1.cycle));
    if p.timer.scheduled then Put(l1, id, p) else
    var p' := SetReady(SetReady(p, id, p.mode), 0, l1.transferMode);
    Put(l1, id, p'.(timer := Schedule(p.clock, Sanitize(UntilNextSync(Put(l1, id, p'), id)))))
  }

  /** Both machines attached to a fresh coordinator, machine 0 first. */
  function Attached(clock0: Cycle, clock1: Cycle, mode0: Mode, mode1: Mode): Link {
    var first := SetReady(BlankPlayer().(mode := mode0, clock := clock0, timer := Schedule(clock0, LOCKSTEP_INTERVAL)),
                          0, mode0);
    var second := BlankPlayer().(mode := mode1, clock := clock1, cycleOffset := Delta(clock1, clock0));
    var alone := Blank().(p0 := first, p1 := second, transferMode := mode0, cycle := clock0,
                 nextHardSync := HARD_SYNC_INTERVAL);
    AttachSecondary(alone)
  }

  /** The secondary announces itself to the primary and schedules its first wake. */
  function AttachSecondary(alone: Link): Link {
    var (l, _) := Enqueue(alone, Event(Attach, Time(alone.p1), 1), {0, 2, 3});
    var p := SetReady(SetReady(l.p1, 1, l.p1.mode), 0, l.transferMode);
    l.(p1 := p.(timer := Schedule(p.clock, UNLOCKED_INTERVAL)))
  }
}
