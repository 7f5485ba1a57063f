/** Arrival order: among equal timestamps the queues of every run are first in, first out. */
module LockstepOrder {
  import opened Cycles
  import opened Lockstep
  import opened LockstepSafety
  import opened LockstepRuns

  /** What can happen to a queue: an event arrives and is inserted, or the first one leaves. */
  datatype QueueOp = Arrive(event: Event) | Depart

  function QueueAfter(q: seq<Event>, ops: seq<QueueOp>): seq<Event>
    decreases |ops|
  {
    if ops == [] then q
    else match ops[0]
         case Arrive(e) => QueueAfter(Insert(q, e), ops[1..])
         case Depart => QueueAfter(if q == [] then [] else q[1..], ops[1..])
  }

  /** The arrival numbers of the queued events, kept beside the queue; `n` events arrived before. */
  function StampsAfter(q: seq<Event>, stamps: seq<nat>, n: nat, ops: seq<QueueOp>): seq<nat>
    requires |stamps| == |q|
    decreases |ops|
  {
    if ops == [] then stamps
    else match ops[0]
         case Arrive(e) =>
           var k := InsertIndex(q, e);
           StampsAfter(Insert(q, e), stamps[..k] + [n] + stamps[k..], n + 1, ops[1..])
         case Depart =>
           if q == [] then StampsAfter([], [], n, ops[1..]) else StampsAfter(q[1..], stamps[1..], n, ops[1..])
  }

  predicate Before(base: Cycle, a: Event, i: nat, b: Event, j: nat) {
    || Offset(base, a.timestamp) < Offset(base, b.timestamp)
    || (Offset(base, a.timestamp) == Offset(base, b.timestamp) && i < j)
  }

  /** Every stretch of the queue that shares the half circle at `base` is in order of time, and of
      arrival among equal times. */
  ghost predicate InOrder(base: Cycle, q: seq<Event>, stamps: seq<nat>) {
    && |stamps| == |q|
    && forall i, j :: 0 <= i < j < |q| && AllIn(base, q, i, j) ==> Before(base, q[i], stamps[i], q[j], stamps[j])
  }

  predicate Earlier(stamps: seq<nat>, n: nat) {
    forall i :: 0 <= i < |stamps| ==> stamps[i] < n
  }

  lemma StampAt(stamps: seq<nat>, k: nat, n: nat)
    requires k <= |stamps|
    ensures
      var r := stamps[..k] + [n] + stamps[k..];
      && |r| == |stamps| + 1 && r[k] == n
      && (forall m :: 0 <= m < k ==> r[m] == stamps[m])
      && (forall m :: k < m < |r| ==> r[m] == stamps[m - 1])
  {
  }

  /** `r` is `q` with one more element at `k`, and so is `s` for the stamps. */
  predicate Spread(q: seq<Event>, stamps: seq<nat>, r: seq<Event>, s: seq<nat>, k: nat) {
    && |stamps| == |q| && |r| == |s| == |q| + 1 && k <= |q|
    && (forall m :: 0 <= m < k ==> r[m] == q[m] && s[m] == stamps[m])
    && (forall m :: k < m < |r| ==> r[m] == q[m - 1] && s[m] == stamps[m - 1])
  }

  lemma SpreadIn(base: Cycle, q: seq<Event>, stamps: seq<nat>, r: seq<Event>, s: seq<nat>, k: nat, i: int, j: int)
    requires Spread(q, stamps, r, s, k) && 0 <= i < j < |r| && AllIn(base, r, i, j)
    ensures AllIn(base, q, if i > k then i - 1 else i, j - 1)
    ensures j < k ==> AllIn(base, q, i, j)
  {
    forall m | (if i > k then i - 1 else i) <= m <= j - 1 ensures InWindow(base, q[m].timestamp) {
      assert InWindow(base, r[if m < k then m else m + 1].timestamp);
    }
    if j < k {
      forall m | i <= m <= j ensures InWindow(base, q[m].timestamp) {
        assert InWindow(base, r[m].timestamp);
      }
    }
  }

  lemma OldPairInOrder(base: Cycle, q: seq<Event>, stamps: seq<nat>, r: seq<Event>, s: seq<nat>, k: nat, i: int, j: int)
    requires InOrder(base, q, stamps) && Spread(q, stamps, r, s, k)
    requires 0 <= i < j < |r| && AllIn(base, r, i, j) && i != k && j != k
    ensures Before(base, r[i], s[i], r[j], s[j])
  {
    SpreadIn(base, q, stamps, r, s, k, i, j);
  }

  lemma NewPairInOrder(base: Cycle, q: seq<Event>, stamps: seq<nat>, r: seq<Event>, s: seq<nat>, k: nat, i: int, j: int)
    requires Spread(q, stamps, r, s, k) && InOrder(base, q, stamps) && Earlier(stamps, s[k])
    requires 0 <= i < j < |r| && AllIn(base, r, i, j) && (i == k || j == k)
    requires forall m :: 0 <= m < k ==> Delta(r[k].timestamp, q[m].timestamp) >= 0
    requires k < |q| ==> Delta(r[k].timestamp, q[k].timestamp) < 0
    ensures Before(base, r[i], s[i], r[j], s[j])
  {
    assert InWindow(base, r[i].timestamp) && InWindow(base, r[j].timestamp);
    if j == k {
      WindowOrder(base, r[k].timestamp, q[i].timestamp);
    } else {
      assert InWindow(base, r[k + 1].timestamp);
      WindowOrder(base, r[k].timestamp, q[k].timestamp);
      SpreadIn(base, q, stamps, r, s, k, i, j);
    }
  }

  lemma InsertInOrder(base: Cycle, q: seq<Event>, stamps: seq<nat>, e: Event, n: nat)
    requires InOrder(base, q, stamps) && Earlier(stamps, n)
    ensures
      var s := stamps[..InsertIndex(q, e)] + [n] + stamps[InsertIndex(q, e)..];
      InOrder(base, Insert(q, e), s) && Earlier(s, n + 1)
  {
    var k, r := InsertIndex(q, e), Insert(q, e);
    var s := stamps[..k] + [n] + stamps[k..];
    InsertAt(q, e);
    StampAt(stamps, k, n);
    assert Spread(q, stamps, r, s, k);
    forall i, j | 0 <= i < j < |r| && AllIn(base, r, i, j) ensures Before(base, r[i], s[i], r[j], s[j]) {
      if i == k || j == k {
        NewPairInOrder(base, q, stamps, r, s, k, i, j);
      } else {
        OldPairInOrder(base, q, stamps, r, s, k, i, j);
      }
    }
  }

  lemma TailInOrder(base: Cycle, q: seq<Event>, stamps: seq<nat>)
    requires q != [] && InOrder(base, q, stamps)
    ensures InOrder(base, q[1..], stamps[1..])
  {
    var r, s := q[1..], stamps[1..];
    forall i, j | 0 <= i < j < |r| && AllIn(base, r, i, j) ensures Before(base, r[i], s[i], r[j], s[j]) {
      assert AllIn(base, q, i + 1, j + 1) by {
        forall m | i + 1 <= m <= j + 1 ensures InWindow(base, q[m].timestamp) {
          assert r[m - 1] == q[m];
        }
      }
    }
  }

  /** Any series of arrivals and departures keeps the order. */
  lemma {:induction false} OpsInOrder(base: Cycle, q: seq<Event>, stamps: seq<nat>, n: nat, ops: seq<QueueOp>)
    requires InOrder(base, q, stamps) && Earlier(stamps, n)
    ensures InOrder(base, QueueAfter(q, ops), StampsAfter(q, stamps, n, ops))
    decreases |ops|
  {
    if ops != [] {
      match ops[0] {
        case Arrive(e) =>
          var k := InsertIndex(q, e);
          InsertInOrder(base, q, stamps, e, n);
          OpsInOrder(base, Insert(q, e), stamps[..k] + [n] + stamps[k..], n + 1, ops[1..]);
        case Depart =>
          if q == [] {
            assert stamps == [];
            OpsInOrder(base, [], [], n, ops[1..]);
          } else {
            TailInOrder(base, q, stamps);
            OpsInOrder(base, q[1..], stamps[1..], n, ops[1..]);
          }
      }
    }
  }

  /** The events that have arrived, in order of arrival; `past` came before. */
  function Arrived(past: seq<Event>, ops: seq<QueueOp>): seq<Event>
    decreases |ops|
  {
    if ops == [] then past else Arrived(if ops[0].Arrive? then past + [ops[0].event] else past, ops[1..])
  }

  /** Each stamp is the arrival number of the event beside it. */
  ghost predicate Named(q: seq<Event>, stamps: seq<nat>, arrived: seq<Event>) {
    |stamps| == |q| && forall i :: 0 <= i < |q| ==> stamps[i] < |arrived| && arrived[stamps[i]] == q[i]
  }

  lemma InsertNamed(q: seq<Event>, stamps: seq<nat>, past: seq<Event>, e: Event)
    requires Named(q, stamps, past)
    ensures
      var k := InsertIndex(q, e);
      Named(Insert(q, e), stamps[..k] + [|past|] + stamps[k..], past + [e])
  {
    InsertAt(q, e);
    StampAt(stamps, InsertIndex(q, e), |past|);
  }

  lemma TailNamed(q: seq<Event>, stamps: seq<nat>, past: seq<Event>)
    requires q != [] && Named(q, stamps, past)
    ensures Named(q[1..], stamps[1..], past)
  {
  }

  lemma {:induction false} OpsNamed(q: seq<Event>, stamps: seq<nat>, past: seq<Event>, ops: seq<QueueOp>)
    requires Named(q, stamps, past)
    ensures Named(QueueAfter(q, ops), StampsAfter(q, stamps, |past|, ops), Arrived(past, ops))
    decreases |ops|
  {
    if ops != [] {
      match ops[0] {
        case Arrive(e) =>
          var k := InsertIndex(q, e);
          InsertNamed(q, stamps, past, e);
          OpsNamed(Insert(q, e), stamps[..k] + [|past|] + stamps[k..], past + [e], ops[1..]);
        case Depart =>
          if q == [] {
            assert stamps == [];
            OpsNamed([], [], past, ops[1..]);
          } else {
            TailNamed(q, stamps, past);
            OpsNamed(q[1..], stamps[1..], past, ops[1..]);
          }
      }
    }
  }

  lemma {:induction false} OpsJoin(q: seq<Event>, a: seq<QueueOp>, b: seq<QueueOp>)
    ensures QueueAfter(q, a + b) == QueueAfter(QueueAfter(q, a), b)
    decreases |a|
  {
    if a == [] {
      assert a + b == b;
    } else {
      assert (a + b)[1..] == a[1..] + b;
      match a[0]
      case Arrive(e) => OpsJoin(Insert(q, e), a[1..], b);
      case Depart => OpsJoin(if q == [] then [] else q[1..], a[1..], b);
    }
  }

  // ---- What the callbacks do to the queue of player `id` ----

  const FROM_PRIMARY: set<int> := {1, 2, 3}

  /** An event that is sent arrives in the queues of its targets that have room. */
  function Sent(l: Link, e: Event, target: set<int>, id: Side): seq<QueueOp> {
    if id in target && Get(l, id).free > 0 then [Arrive(e)] else []
  }

  function HardSyncOps(l: Link, id: Side): seq<QueueOp> {
    Sent(l, Event(HardSync, Time(l.p0), 0), FROM_PRIMARY, id)
  }

  function SetModeOps(l: Link, who: Side, mode: Mode, id: Side): seq<QueueOp> {
    if mode == Get(l, who).mode then []
    else Sent(l, Event(ModeSet(mode), Time(Get(l, who)), who), if who == 0 then FROM_PRIMARY else {0, 2, 3}, id)
  }

  function StartOps(l: Link, who: Side, transferCycles: Cycle, id: Side): seq<QueueOp> {
    if l.transferActive || who != 0 then []
    else Sent(l, Event(TransferStart(Add(Time(l.p0), transferCycles)), Time(l.p0), 0), FROM_PRIMARY, id)
  }

  function FinishOps(l: Link, who: Side, mode: Mode, id: Side): seq<QueueOp> {
    if l.transferMode == mode && who == 0 && l.syncArmed && l.waiting == {} then HardSyncOps(l, id) else []
  }

  function OwnClockOps(l: Link, id: Side): seq<QueueOp> {
    var due := AdvanceCycle(l).nextHardSync < 0;
    if Delta(Time(l.p0), l.cycle) >= 0 && l.syncArmed && due && l.waiting == {} then HardSyncOps(l, id) else []
  }

  /** Attach and detach are answered with the handler's mode. */
  function HandleOps(l: Link, who: Side, e: Event, id: Side): seq<QueueOp> {
    match e.kind
    case Attach => Sent(l, Reply(Get(l, who), who), {e.source}, id)
    case Detach => Sent(l, Reply(Get(l, who), who), {0, 1} - {e.source}, id)
    case _ => []
  }

  function LeaveOps(who: Side, id: Side): seq<QueueOp> {
    if id == who then [Depart] else []
  }

  function DrainOps(l: Link, who: Side, sio: Serial, id: Side): seq<QueueOp>
    decreases Weight(Get(l, who).queue)
  {
    if !Due(Get(l, who)) then [] else
    DrainProgress(l, who, sio);
    LeaveOps(who, id) + HandleOps(TakeHead(l, who), who, Get(l, who).queue[0], id)
    + DrainOps(DrainOne(l, who, sio), who, sio, id)
  }

  function CallbackOps(l: Link, who: Side, sio: Serial, id: Side): seq<QueueOp>
    requires AwakeWhenFree(l)
  {
    (if who == 0 then OwnClockOps(l, id) else []) + DrainOps(Fired(l, who), who, sio, id)
  }

  /** What a step of a run does to the queue of player `id`, in order. */
  function OpsOf(l: Link, step: Step, id: Side): seq<QueueOp>
    requires AwakeWhenFree(l)
  {
    match step
    case Tick(_, _) => []
    case CallSetMode(who, mode) => SetModeOps(l, who, mode, id)
    case CallStart(who, _, transferCycles) => StartOps(l, who, transferCycles, id)
    case CallFinish(who, mode) => FinishOps(l, who, mode, id)
    case CallLockstepEvent(who, sio, _) => CallbackOps(l, who, sio, id)
    case CallReset(_) => []
  }

  /** The history of a queue: the attach event, then step by step; a restored queue has the history
      of the run it was saved from. */
  function HistoryOf(run: Run, id: Side): seq<QueueOp> {
    match run
    case Fresh(clock0, _, _, _) => if id == 0 then [Arrive(Event(Attach, clock0, 1))] else []
    case Then(before, step) =>
      StateThen(before, step);
      HistoryOf(before, id) + OpsOf(State(before), step, id)
    case Restored(_, saved, _, _) => HistoryOf(saved, id)
  }

  // ---- The queues follow their histories ----

  /** The queue of player `id` in `r` is that in `l` after `ops`. */
  predicate Follows(l: Link, r: Link, id: Side, ops: seq<QueueOp>) {
    Get(r, id).queue == QueueAfter(Get(l, id).queue, ops)
  }

  lemma FollowsBoth(l: Link, m: Link, r: Link, id: Side, a: seq<QueueOp>, b: seq<QueueOp>)
    requires Follows(l, m, id, a) && Follows(m, r, id, b)
    ensures Follows(l, r, id, a + b)
  {
    OpsJoin(Get(l, id).queue, a, b);
  }

  lemma SentFollows(l: Link, id: Side, e: Event, target: set<int>)
    ensures Follows(l, Enqueue(l, e, target).0, id, Sent(l, e, target, id))
  {
    var (l0, _) := if 0 in target then Deliver(l, 0, e) else (l, true);
    DeliverQueue(l, 0, e);
    DeliverQueue(l0, 1, e);
    assert [Arrive(e)][1..] == [];
  }

  lemma HardSyncFollows(l: Link, id: Side)
    requires MayWait(l)
    ensures Follows(l, BeginHardSync(l), id, HardSyncOps(l, id))
  {
    SentFollows(l, id, Event(HardSync, Time(l.p0), 0), FROM_PRIMARY);
  }

  lemma SetModeFollows(l: Link, who: Side, mode: Mode, id: Side)
    requires AwakeWhenFree(l)
    ensures Follows(l, SetMode(l, who, mode), id, SetModeOps(l, who, mode, id))
  {
    SentFollows(NoteMode(l, who, mode), id, Event(ModeSet(mode), Time(Get(l, who)), who),
                if who == 0 then FROM_PRIMARY else {0, 2, 3});
  }

  lemma StartFollows(l: Link, who: Side, sio: Serial, transferCycles: Cycle, id: Side)
    requires AwakeWhenFree(l)
    ensures Follows(l, Start(l, who, sio, transferCycles).0, id, StartOps(l, who, transferCycles, id))
  {
    var l1 := SetData(l.(multiData := Four(0xFFFF, 0xFFFF, 0xFFFF, 0xFFFF)), 0, sio);
    SentFollows(l1, id, Event(TransferStart(Add(Time(l.p0), transferCycles)), Time(l.p0), 0), FROM_PRIMARY);
  }

  lemma FinishFollows(l: Link, who: Side, mode: Mode, id: Side)
    requires AwakeWhenFree(l)
    ensures Follows(l, Finish(l, who, mode), id, FinishOps(l, who, mode, id))
  {
    var l1 := Put(l, who, Get(l, who).(dataReceived := false));
    if l1.waiting == {} { HardSyncFollows(l1, id); }
  }

  lemma OwnClockFollows(l: Link, id: Side)
    requires AwakeWhenFree(l)
    ensures Follows(l, OwnClock(l), id, OwnClockOps(l, id))
  {
    var l1 := AdvanceCycle(l);
    var l2 := if l1.transferActive then l1 else WakeSecondary(l1);
    if l2.waiting == {} { HardSyncFollows(l2, id); }
  }

  lemma HandleFollows(l: Link, who: Side, e: Event, sio: Serial, id: Side)
    ensures Follows(l, Handle(l, who, e, sio), id, HandleOps(l, who, e, id))
  {
    var p := Get(l, who);
    match e.kind {
      case Attach => SentFollows(Put(l, who, SetReady(p, e.source, NoMode)), id, Reply(p, who), {e.source});
      case Detach =>
        var l1 := Put(l, who, SetReady(SetReady(p, e.source, NoMode), who, p.mode));
        SentFollows(l1, id, Reply(p, who), {0, 1} - {e.source});
      case _ =>
    }
  }

  lemma TakeFollows(l: Link, who: Side, id: Side)
    requires Get(l, who).queue != []
    ensures Follows(l, TakeHead(l, who), id, LeaveOps(who, id))
  {
    assert [Depart][1..] == [];
  }

  lemma {:induction false} DrainFollows(l: Link, who: Side, sio: Serial, cyclesLate: Word, next: Cycle, wasDetach: bool,
                                        id: Side)
    ensures Follows(l, Drain(l, who, sio, cyclesLate, next, wasDetach).link, id, DrainOps(l, who, sio, id))
    decreases Weight(Get(l, who).queue)
  {
    if Due(Get(l, who)) {
      var e := Get(l, who).queue[0];
      var next' := if e.kind.TransferStart? then TransferDelay(l, who, e.kind.finishCycle, cyclesLate) else next;
      var taken, one := TakeHead(l, who), DrainOne(l, who, sio);
      var done := Drain(one, who, sio, cyclesLate, next', wasDetach || e.kind.Detach?).link;
      DrainProgress(l, who, sio);
      TakeFollows(l, who, id);
      HandleFollows(taken, who, e, sio, id);
      DrainFollows(one, who, sio, cyclesLate, next', wasDetach || e.kind.Detach?, id);
      FollowsBoth(l, taken, one, id, LeaveOps(who, id), HandleOps(taken, who, e, id));
      FollowsBoth(l, one, done, id, LeaveOps(who, id) + HandleOps(taken, who, e, id), DrainOps(one, who, sio, id));
    }
  }

  lemma CallbackFollows(l: Link, who: Side, sio: Serial, cyclesLate: Word, id: Side)
    requires AwakeWhenFree(l)
    ensures Follows(l, LockstepEvent(l, who, sio, cyclesLate), id, CallbackOps(l, who, sio, id))
  {
    var p, owned := Get(l, who), Fired(l, who);
    var headDetach := p.queue != [] && p.queue[0].kind.Detach?;
    var drained := Drain(owned, who, sio, cyclesLate, UntilNextSync(owned, who), headDetach).link;
    if who == 0 { OwnClockFollows(Put(l, who, p.(timer := p.timer.(scheduled := false))), id); }
    DrainFollows(owned, who, sio, cyclesLate, UntilNextSync(owned, who), headDetach, id);
    FollowsBoth(l, owned, drained, id, if who == 0 then OwnClockOps(l, id) else [], DrainOps(owned, who, sio, id));
  }

  /** Only arrivals. */
  predicate Arrivals(ops: seq<QueueOp>) {
    forall i :: 0 <= i < |ops| ==> ops[i].Arrive?
  }

  lemma {:induction false} DrainArrivals(l: Link, who: Side, sio: Serial, id: Side)
    requires id != who
    ensures Arrivals(DrainOps(l, who, sio, id))
    decreases Weight(Get(l, who).queue)
  {
    if Due(Get(l, who)) {
      DrainProgress(l, who, sio);
      DrainArrivals(DrainOne(l, who, sio), who, sio, id);
    }
  }

  /** Only a player's own periodic callback takes anything out of its queue. */
  lemma OnlyOwnDeparts(l: Link, step: Step, id: Side)
    requires AwakeWhenFree(l) && !(step.CallLockstepEvent? && step.id == id)
    ensures Arrivals(OpsOf(l, step, id))
  {
    if step.CallLockstepEvent? {
      DrainArrivals(Fired(l, step.id), step.id, step.sio, id);
    }
  }

  /** Every callback changes a queue by exactly the arrivals of the events it sends, in order, and the
      departures of a player's own drain loop. */
  lemma StepFollows(l: Link, step: Step, id: Side)
    requires AwakeWhenFree(l)
    ensures Follows(l, Apply(l, step), id, OpsOf(l, step, id))
  {
    match step {
      case Tick(_, _) =>
      case CallSetMode(who, mode) => SetModeFollows(l, who, mode, id);
      case CallStart(who, sio, transferCycles) => StartFollows(l, who, sio, transferCycles, id);
      case CallFinish(who, mode) => FinishFollows(l, who, mode, id);
      case CallLockstepEvent(who, sio, cyclesLate) => CallbackFollows(l, who, sio, cyclesLate, id);
      case CallReset(_) =>
    }
  }

  lemma AttachedFollows(clock0: Cycle, clock1: Cycle, mode0: Mode, mode1: Mode, id: Side)
    ensures Get(Attached(clock0, clock1, mode0, mode1), id).queue
         == QueueAfter([], HistoryOf(Fresh(clock0, clock1, mode0, mode1), id))
  {
    var e := Event(Attach, clock0, 1);
    DeltaOfDelta(clock1, clock0);
    assert Insert([], e) == [e];
    assert [Arrive(e)][1..] == [];
  }

  /** In every run each queue is the outcome of its history. */
  lemma {:induction false} QueueOfHistory(run: Run, id: Side)
    ensures Get(State(run), id).queue == QueueAfter([], HistoryOf(run, id))
    decreases run
  {
    match run {
      case Fresh(clock0, clock1, mode0, mode1) => AttachedFollows(clock0, clock1, mode0, mode1, id);
      case Then(before, step) =>
        QueueOfHistory(before, id);
        var l, r := NextState(before, step);
        StepFollows(l, step, id);
        OpsJoin([], HistoryOf(before, id), OpsOf(l, step, id));
      case Restored(before, saved, clock0, clock1) =>
        QueueOfHistory(saved, id);
        var s, r := SavedRunRestores(saved, before, clock0, clock1);
    }
  }

  /** In every run, numbering the events of the run's history in order of their arrival: each queued
      event stands beside its number, every stretch within half the range is sorted by time, and equal
      times keep the order of arrival. */
  lemma FirstInFirstOut(run: Run, id: Side) returns (q: seq<Event>, stamps: seq<nat>)
    ensures q == Get(State(run), id).queue && stamps == StampsAfter([], [], 0, HistoryOf(run, id))
    ensures Named(q, stamps, Arrived([], HistoryOf(run, id)))
    ensures forall base: Cycle :: InOrder(base, q, stamps)
  {
    var ops := HistoryOf(run, id);
    QueueOfHistory(run, id);
    q, stamps := QueueAfter([], ops), StampsAfter([], [], 0, ops);
    OpsNamed([], [], [], ops);
    forall base: Cycle ensures InOrder(base, q, stamps) {
      OpsInOrder(base, [], [], 0, ops);
    }
  }
}
