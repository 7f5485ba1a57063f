/** What the players know of each other's serial modes, and what wakes and sleeps besides the barrier. */
module LockstepModes {
  import opened Wrappers
  import opened Cycles
  import opened Lockstep
  import opened LockstepSafety
  import opened LockstepState
  import opened LockstepRuns
  import opened LockstepData
  import opened LockstepOrder

  /** A fresh pair: both machines show the shared time, which is the first one's clock; nobody sleeps or waits; the
      secondary's first wake comes after one interval, the primary's at once, because the attach event is due. */
  lemma AttachedMeaning(clock0: Cycle, clock1: Cycle, mode0: Mode, mode1: Mode)
    ensures
      var l := Attached(clock0, clock1, mode0, mode1);
      && l.cycle == clock0 == Time(l.p0) == Time(l.p1) && l.p0.clock == clock0 && l.p1.clock == clock1
      && l.p0.mode == mode0 && l.p1.mode == mode1
      && l.waiting == {} && !l.transferActive && !l.p0.asleep && !l.p1.asleep
      && !l.p0.dataReceived && !l.p1.dataReceived && l.droppedEvents == 0
      && l.nextHardSync == HARD_SYNC_INTERVAL && l.p1.queue == []
      && Delta(l.p0.timer.when, clock0) == 1 && Delta(l.p1.timer.when, clock1) == UNLOCKED_INTERVAL
  {
    DeltaOfDelta(clock1, clock0);
    DeltaFromZero(clock0);
    FirstWake(clock0, Event(Attach, clock0, 1));
    AddThenDelta(clock1, UNLOCKED_INTERVAL);
  }

  lemma DeltaFromZero(clock: Cycle)
    ensures Delta(clock, 0) == clock && Delta(clock, clock) == 0
  {
  }

  lemma FirstWake(clock: Cycle, e: Event)
    requires e.timestamp == clock
    ensures Insert([], e) == [e]
    ensures TimerForQueueHead(Schedule(clock, LOCKSTEP_INTERVAL), [e], clock, clock) == Schedule(clock, 1)
    ensures Delta(Schedule(clock, 1).when, clock) == 1
  {
    AddThenDelta(clock, LOCKSTEP_INTERVAL);
    AddThenDelta(clock, 1);
    DeltaFromZero(clock);
  }

  // ---- A player's own mode ----

  /** The shared mode is the primary's, and each player lists its own mode. */
  predicate OwnModes(l: Link) {
    l.transferMode == l.p0.mode == l.p0.otherModes.at0 && l.p1.mode == l.p1.otherModes.at1
  }

  /** A mode change sets the mode, the player's own entry and, for the primary, the shared mode; the other player's
      modes are left alone. */
  lemma SetModeMeaning(l: Link, id: Side, mode: Mode)
    requires AwakeWhenFree(l) && OwnModes(l)
    ensures
      var r := SetMode(l, id, mode);
      && Get(r, id).mode == mode && OwnModes(r)
      && Get(r, 1 - id).mode == Get(l, 1 - id).mode && Get(r, 1 - id).otherModes == Get(l, 1 - id).otherModes
  {
    if mode != Get(l, id).mode {
      EnqueueKeepsModes(NoteMode(l, id, mode), Event(ModeSet(mode), Time(Get(l, id)), id),
                        if id == 0 then {1, 2, 3} else {0, 2, 3});
    }
  }

  predicate SameModes(l: Link, r: Link) {
    && r.p0.mode == l.p0.mode && r.p1.mode == l.p1.mode && r.transferMode == l.transferMode
    && r.p0.otherModes == l.p0.otherModes && r.p1.otherModes == l.p1.otherModes
  }

  lemma EnqueueKeepsModes(l: Link, e: Event, target: set<int>)
    ensures SameModes(l, Enqueue(l, e, target).0)
  {
  }

  lemma HardSyncKeepsModes(l: Link)
    requires MayWait(l)
    ensures SameModes(l, BeginHardSync(l))
  {
    EnqueueKeepsModes(l, Event(HardSync, Time(l.p0), 0), {1, 2, 3});
  }

  lemma StartKeepsModes(l: Link, id: Side, sio: Serial, transferCycles: Cycle)
    requires AwakeWhenFree(l)
    ensures SameModes(l, Start(l, id, sio, transferCycles).0)
  {
    var l1 := SetData(l.(multiData := NO_WORDS), 0, sio);
    EnqueueKeepsModes(l1, StartEvent(l, transferCycles), {1, 2, 3});
  }

  /** A finish takes back the player's receive flag, if it is the finish of the current mode. */
  lemma FinishMeaning(l: Link, id: Side, mode: Mode)
    requires AwakeWhenFree(l)
    ensures
      var r := Finish(l, id, mode);
      && SameModes(l, r) && (l.transferMode != mode ==> r == l)
      && (l.transferMode == mode ==> !Get(r, id).dataReceived)
      && Get(r, 1 - id).dataReceived == Get(l, 1 - id).dataReceived
  {
    var l1 := Put(l, id, Get(l, id).(dataReceived := false));
    if l1.waiting == {} {
      HardSyncKeepsModes(l1);
      SendToSecondary(l1, Event(HardSync, Time(l1.p0), 0));
    }
  }

  // ---- What the players tell each other ----

  /** The last thing some events say about their sender's mode, or `known` if they say nothing. */
  function Told(q: seq<Event>, known: Mode): Mode {
    if q == [] then known
    else match q[|q| - 1].kind
         case Attach => NoMode
         case Detach => NoMode
         case ModeSet(mode) => mode
         case _ => Told(q[..|q| - 1], known)
  }

  /** What player `id` lists for the other one. */
  function View(l: Link, id: Side): Mode {
    if id == 0 then l.p0.otherModes.at1 else l.p1.otherModes.at0
  }

  /** Player `id` has handled the first `k` events of its queue: it lists what they told it last, and nothing else
      about modes has changed. */
  predicate Learned(l: Link, r: Link, id: Side, k: nat) {
    var q := Get(l, id).queue;
    && k <= |q| && Get(r, id).queue == q[k..]
    && View(r, id) == Told(q[..k], View(l, id)) && View(r, 1 - id) == View(l, 1 - id)
    && r.p0.mode == l.p0.mode && r.p1.mode == l.p1.mode && r.transferMode == l.transferMode
    && (OwnModes(l) ==> OwnModes(r))
    && Get(r, id).clock == Get(l, id).clock && Get(r, id).cycleOffset == Get(l, id).cycleOffset
  }

  /** What handling one event does to the modes. */
  predicate Noted(l: Link, r: Link, id: Side, e: Event) {
    && View(r, id) == Told([e], View(l, id)) && View(r, 1 - id) == View(l, 1 - id)
    && r.p0.mode == l.p0.mode && r.p1.mode == l.p1.mode && r.transferMode == l.transferMode
    && (OwnModes(l) ==> OwnModes(r)) && Get(r, id).queue == Get(l, id).queue
    && Get(r, id).clock == Get(l, id).clock && Get(r, id).cycleOffset == Get(l, id).cycleOffset
  }

  lemma AttachNoted(l: Link, e: Event, sio: Serial)
    requires ToPrimary(e) && e.kind.Attach?
    ensures Noted(l, Handle(l, 0, e, sio), 0, e)
  {
    var l1 := Put(l, 0, SetReady(l.p0, 1, NoMode));
    EnqueueKeepsModes(l1, Reply(l.p0, 0), {1});
    DeliverQueue(l1, 1, Reply(l.p0, 0));
  }

  lemma ModeNoted(l: Link, e: Event, sio: Serial)
    requires ToPrimary(e) && e.kind.ModeSet?
    ensures Noted(l, Handle(l, 0, e, sio), 0, e)
  {
  }

  lemma AckNoted(l: Link, m: Link, e: Event)
    requires Noted(l, m, 1, e)
    ensures Noted(l, Ack(m, 1), 1, e)
  {
  }

  lemma BarrierNoted(l: Link, e: Event, sio: Serial)
    requires ToSecondary(e)
    ensures Noted(l, Handle(l, 1, e, sio), 1, e)
  {
    match e.kind {
      case HardSync => AckNoted(l, l, e);
      case TransferStart(_) => AckNoted(l, SetData(l, 1, sio), e);
      case ModeSet(mode) => AckNoted(l, Put(l, 1, SetReady(l.p1, 0, mode)), e);
    }
  }

  lemma HandleLearns(l: Link, id: Side, e: Event, sio: Serial)
    requires Legal(id, e)
    ensures Noted(l, Handle(l, id, e, sio), id, e)
  {
    if id == 1 {
      BarrierNoted(l, e, sio);
    } else if e.kind.Attach? {
      AttachNoted(l, e, sio);
    } else {
      ModeNoted(l, e, sio);
    }
  }

  lemma ToldNext(q: seq<Event>, k: nat, known: Mode)
    requires k < |q|
    ensures Told(q[1..][..k], Told([q[0]], known)) == Told(q[..k + 1], known)
    decreases k
  {
    assert [q[0]][..0] == [];
    if k > 0 {
      ToldNext(q, k - 1, known);
      assert q[1..][..k][..k - 1] == q[1..][..k - 1] && q[..k + 1][..k] == q[..k];
    } else {
      assert q[..1] == [q[0]];
    }
  }

  lemma LearnsMore(l: Link, m: Link, r: Link, id: Side, k: nat)
    requires Get(l, id).queue != [] && Learned(l, m, id, 1) && Learned(m, r, id, k)
    ensures Learned(l, r, id, k + 1)
  {
    var q := Get(l, id).queue;
    assert q[..1] == [q[0]];
    ToldNext(q, k, View(l, id));
    assert q[1..][k..] == q[k + 1..];
  }

  lemma LearnsOne(l: Link, id: Side, sio: Serial)
    requires Inv(0, l) && Due(Get(l, id))
    ensures Learned(l, DrainOne(l, id, sio), id, 1)
  {
    var q := Get(l, id).queue;
    assert Legal(id, q[0]) && q[..1] == [q[0]];
    HandleLearns(TakeHead(l, id), id, q[0], sio);
  }

  /** Player `id` has handled exactly the events that were due. */
  predicate LearnedDue(l: Link, r: Link, id: Side) {
    Learned(l, r, id, DueCount(Get(l, id).queue, Time(Get(l, id))))
  }

  lemma LearnsNext(l: Link, m: Link, r: Link, id: Side, sio: Serial)
    requires Inv(0, l) && Due(Get(l, id)) && m == DrainOne(l, id, sio) && LearnedDue(m, r, id)
    ensures LearnedDue(l, r, id)
  {
    LearnsOne(l, id, sio);
    LearnsMore(l, m, r, id, DueCount(Get(m, id).queue, Time(Get(m, id))));
  }

  /** A player's drain loop: it handles exactly the events that are due and then lists for the other player what
      the last of them told. */
  lemma {:induction false} DrainLearns(l: Link, id: Side, sio: Serial, cyclesLate: Word, next: Cycle, wasDetach: bool)
    requires Inv(0, l)
    ensures LearnedDue(l, Drain(l, id, sio, cyclesLate, next, wasDetach).link, id)
    decreases Weight(Get(l, id).queue)
  {
    var p := Get(l, id);
    if Due(p) {
      var e, one := p.queue[0], DrainOne(l, id, sio);
      var next' := if e.kind.TransferStart? then TransferDelay(l, id, e.kind.finishCycle, cyclesLate) else next;
      DrainOneKeeps(0, l, id, sio);
      DrainProgress(l, id, sio);
      DrainLearns(one, id, sio, cyclesLate, next', wasDetach || e.kind.Detach?);
      LearnsNext(l, one, Drain(one, id, sio, cyclesLate, next', wasDetach || e.kind.Detach?).link, id, sio);
    } else {
      assert p.queue[..0] == [] && p.queue[0..] == p.queue;
    }
  }

  lemma FiredKeepsModes(l: Link, id: Side)
    requires AwakeWhenFree(l)
    ensures
      var p, q := Get(l, id), Get(Fired(l, id), id);
      SameModes(l, Fired(l, id)) && q.queue == p.queue && q.clock == p.clock && q.cycleOffset == p.cycleOffset
  {
    if id == 0 {
      var fired := Put(l, id, l.p0.(timer := l.p0.timer.(scheduled := false)));
      var l1 := AdvanceCycle(fired);
      var l2 := if l1.transferActive then l1 else WakeSecondary(l1);
      SendToSecondary(l2, Event(HardSync, Time(l.p0), 0));
      if l2.waiting == {} { HardSyncKeepsModes(l2); }
    }
  }

  lemma FiredKeeps(l: Link, id: Side)
    requires Inv(0, l)
    ensures Inv(0, Fired(l, id))
  {
    var p := Get(l, id);
    var fired := Put(l, id, p.(timer := p.timer.(scheduled := false)));
    assert Inv(0, fired);
    if id == 0 { OwnClockKeeps(0, fired); }
  }

  lemma RescheduleLearns(l: Link, d: Drained, id: Side)
    requires AwakeWhenFree(l) && LearnedDue(Fired(l, id), d.link, id)
    ensures LearnedDue(l, Reschedule(d, id), id)
  {
    FiredKeepsModes(l, id);
  }

  /** A player's callback handles exactly the events that are due, and the player then lists for the other one what
      the last of them told. */
  lemma CallbackLearns(l: Link, id: Side, sio: Serial, cyclesLate: Word)
    requires Inv(0, l)
    ensures LearnedDue(l, LockstepEvent(l, id, sio, cyclesLate), id)
  {
    var p, owned := Get(l, id), Fired(l, id);
    FiredKeeps(l, id);
    DrainLearns(owned, id, sio, cyclesLate, UntilNextSync(owned, id), p.queue != [] && p.queue[0].kind.Detach?);
    RescheduleLearns(l, FireAndDrain(l, id, sio, cyclesLate), id);
  }

  lemma ApplyKeepsOwnModes(l: Link, step: Step)
    requires Inv(0, l) && OwnModes(l)
    ensures OwnModes(Apply(l, step))
    ensures Apply(l, step).p0.mode == if step.CallSetMode? && step.id == 0 then step.mode else l.p0.mode
  {
    match step {
      case Tick(_, _) =>
      case CallSetMode(id, mode) => SetModeMeaning(l, id, mode);
      case CallStart(id, sio, transferCycles) => StartKeepsModes(l, id, sio, transferCycles);
      case CallFinish(id, mode) => FinishMeaning(l, id, mode);
      case CallLockstepEvent(id, sio, cyclesLate) => CallbackLearns(l, id, sio, cyclesLate);
      case CallReset(_) =>
    }
  }

  lemma AttachedOwnModes(clock0: Cycle, clock1: Cycle, mode0: Mode, mode1: Mode)
    ensures OwnModes(Attached(clock0, clock1, mode0, mode1))
  {
  }

  /** In every run the mode of a transfer is the primary's mode, and each player lists its own mode. */
  lemma {:induction false} ModesInRun(run: Run)
    ensures OwnModes(State(run))
    decreases run
  {
    match run {
      case Fresh(clock0, clock1, mode0, mode1) => AttachedOwnModes(clock0, clock1, mode0, mode1);
      case Then(before, step) =>
        ModesInRun(before);
        var l, r := NextState(before, step);
        ApplyKeepsOwnModes(l, step);
      case Restored(before, saved, clock0, clock1) =>
        ModesInRun(saved);
        var s, r := SavedRunRestores(saved, before, clock0, clock1);
    }
  }

  // ---- The last announcement ----

  /** What the secondary was told when it attached. */
  function FirstMode(run: Run): Mode {
    match run
    case Fresh(_, _, mode0, _) => mode0
    case Then(before, _) => FirstMode(before)
    case Restored(_, saved, _, _) => FirstMode(saved)
  }

  /** No mode change of the primary met a full buffer of the secondary. */
  predicate Announcing(run: Run) {
    match run
    case Fresh(_, _, _, _) => true
    case Then(before, step) =>
      Announcing(before) && !(step.CallSetMode? && step.id == 0 && step.mode != State(before).p0.mode
                              && State(before).p1.free == 0)
    case Restored(_, saved, _, _) => Announcing(saved)
  }

  /** The events among some arrivals. */
  function Events(ops: seq<QueueOp>): seq<Event> {
    if ops == [] then [] else Events(ops[..|ops| - 1]) + if ops[|ops| - 1].Arrive? then [ops[|ops| - 1].event] else []
  }

  lemma {:induction false} EventsJoin(a: seq<QueueOp>, b: seq<QueueOp>)
    ensures Events(a + b) == Events(a) + Events(b)
    decreases |b|
  {
    if b == [] {
      assert a + b == a;
    } else {
      assert (a + b)[..|a + b| - 1] == a + b[..|b| - 1];
      EventsJoin(a, b[..|b| - 1]);
    }
  }

  lemma {:induction false} ToldJoin(a: seq<Event>, b: seq<Event>, known: Mode)
    ensures Told(a + b, known) == Told(b, Told(a, known))
    decreases |b|
  {
    if b == [] {
      assert a + b == a;
    } else {
      assert (a + b)[..|a + b| - 1] == a + b[..|b| - 1];
      ToldJoin(a, b[..|b| - 1], known);
    }
  }

  /** Every mode these arrivals tell is `mode`. */
  predicate Tells(ops: seq<QueueOp>, mode: Mode) {
    forall i :: 0 <= i < |ops| && ops[i].Arrive? ==>
                  (ops[i].event.kind.ModeSet? ==> ops[i].event.kind.mode == mode)
                  && !ops[i].event.kind.Attach? && !ops[i].event.kind.Detach?
  }

  lemma {:induction false} TellsKeeps(ops: seq<QueueOp>, mode: Mode)
    requires Tells(ops, mode)
    ensures Told(Events(ops), mode) == mode
    decreases |ops|
  {
    if ops != [] {
      var front := ops[..|ops| - 1];
      TellsKeeps(front, mode);
      ToldJoin(Events(front), if ops[|ops| - 1].Arrive? then [ops[|ops| - 1].event] else [], mode);
    }
  }

  lemma {:induction false} DrainTells(l: Link, who: Side, sio: Serial)
    requires Inv(0, l)
    ensures Tells(DrainOps(l, who, sio, 1), l.p0.mode)
    decreases Weight(Get(l, who).queue)
  {
    if Due(Get(l, who)) {
      DrainProgress(l, who, sio);
      DrainOneKeeps(0, l, who, sio);
      LearnsOne(l, who, sio);
      DrainTells(DrainOne(l, who, sio), who, sio);
      HandleTells(TakeHead(l, who), who, Get(l, who).queue[0]);
    }
  }

  lemma HandleTells(l: Link, who: Side, e: Event)
    requires Legal(who, e)
    ensures Tells(LeaveOps(who, 1) + HandleOps(l, who, e, 1), l.p0.mode)
  {
  }

  lemma OpsTell(l: Link, step: Step)
    requires Inv(0, l)
    ensures
      var mode := if step.CallSetMode? && step.id == 0 then step.mode else l.p0.mode;
      Tells(OpsOf(l, step, 1), mode)
  {
    if step.CallLockstepEvent? {
      FiredKeeps(l, step.id);
      FiredKeepsModes(l, step.id);
      DrainTells(Fired(l, step.id), step.id, step.sio);
    }
  }

  /** In every run in which no announcement was lost, the last mode that was sent to the secondary is the primary's
      mode; and by `CallbackLearns` the secondary lists the last mode it has handled. */
  lemma {:induction false} LastAnnounced(run: Run)
    requires Announcing(run)
    ensures Told(Events(HistoryOf(run, 1)), FirstMode(run)) == State(run).p0.mode
    decreases run
  {
    match run {
      case Fresh(clock0, clock1, mode0, mode1) => AttachedMeaning(clock0, clock1, mode0, mode1);
      case Then(before, step) =>
        LastAnnounced(before);
        ModesInRun(before);
        var l, r := NextState(before, step);
        StepAnnounced(l, r, step, HistoryOf(before, 1), FirstMode(before));
      case Restored(before, saved, clock0, clock1) =>
        LastAnnounced(saved);
        var s, r := SavedRunRestores(saved, before, clock0, clock1);
    }
  }

  lemma StepAnnounced(l: Link, r: Link, step: Step, history: seq<QueueOp>, first: Mode)
    requires Inv(0, l) && OwnModes(l) && r == Apply(l, step) && Told(Events(history), first) == l.p0.mode
    requires !(step.CallSetMode? && step.id == 0 && step.mode != l.p0.mode && l.p1.free == 0)
    ensures Told(Events(history + OpsOf(l, step, 1)), first) == r.p0.mode
  {
    var ops := OpsOf(l, step, 1);
    EventsJoin(history, ops);
    ToldJoin(Events(history), Events(ops), first);
    ApplyKeepsOwnModes(l, step);
    if step.CallSetMode? && step.id == 0 && step.mode != l.p0.mode {
      assert ops[..0] == [];
    } else {
      OpsTell(l, step);
      TellsKeeps(ops, l.p0.mode);
    }
  }

  // ---- Waking the secondary ----

  /** The primary's callback at or past the shared time wakes the secondary, unless a transfer is active. */
  lemma PrimaryWakes(l: Link, sio: Serial, cyclesLate: Word)
    requires Inv(0, l) && Elapsed(l) >= 0 && !l.transferActive
    ensures !LockstepEvent(l, 0, sio, cyclesLate).p1.asleep
  {
    var fired := Put(l, 0, l.p0.(timer := l.p0.timer.(scheduled := false)));
    OwnClockAwakens(fired);
    var owned := Fired(l, 0);
    DrainLeavesAwake(owned, sio, cyclesLate, UntilNextSync(owned, 0), l.p0.queue != [] && l.p0.queue[0].kind.Detach?);
  }

  lemma OwnClockAwakens(l: Link)
    requires AwakeWhenFree(l) && Elapsed(l) >= 0 && !l.transferActive
    ensures !OwnClock(l).p1.asleep
  {
    var l2 := WakeSecondary(AdvanceCycle(l));
    SendToSecondary(l2, Event(HardSync, Time(l2.p0), 0));
  }

  lemma {:induction false} DrainLeavesAwake(l: Link, sio: Serial, cyclesLate: Word, next: Cycle, wasDetach: bool)
    ensures Drain(l, 0, sio, cyclesLate, next, wasDetach).link.p1.asleep == l.p1.asleep
    decreases Weight(l.p0.queue)
  {
    if Due(l.p0) {
      var e := l.p0.queue[0];
      var next' := if e.kind.TransferStart? then TransferDelay(l, 0, e.kind.finishCycle, cyclesLate) else next;
      DrainProgress(l, 0, sio);
      HandleLeavesAwake(TakeHead(l, 0), e, sio);
      DrainLeavesAwake(DrainOne(l, 0, sio), sio, cyclesLate, next', wasDetach || e.kind.Detach?);
    }
  }

  lemma EnqueueLeavesAsleep(l: Link, e: Event, target: set<int>)
    ensures Enqueue(l, e, target).0.p1.asleep == l.p1.asleep
  {
  }

  lemma HandleLeavesAwake(l: Link, e: Event, sio: Serial)
    ensures Handle(l, 0, e, sio).p1.asleep == l.p1.asleep
  {
    match e.kind {
      case Attach => EnqueueLeavesAsleep(Put(l, 0, SetReady(l.p0, e.source, NoMode)), Reply(l.p0, 0), {e.source});
      case Detach =>
        var l1 := Put(l, 0, SetReady(SetReady(l.p0, e.source, NoMode), 0, l.p0.mode));
        EnqueueLeavesAsleep(l1, Reply(l.p0, 0), {0, 1} - {e.source});
      case _ =>
    }
  }

  /** In every run a secondary that sleeps is woken by the primary's next callback at or past the shared time,
      unless a transfer is active; and then, by the barrier, it is awake already. */
  lemma WokenInRun(run: Run, sio: Serial, cyclesLate: Word) returns (l: Link, r: Link)
    ensures l == State(run) && r == State(Then(run, CallLockstepEvent(0, sio, cyclesLate)))
    ensures Elapsed(l) >= 0 && !l.transferActive ==> !r.p1.asleep
    ensures l.transferActive ==> !l.p1.asleep
  {
    l, r := NextState(run, CallLockstepEvent(0, sio, cyclesLate));
    WakesSecondary(l, r, sio, cyclesLate);
  }

  lemma WakesSecondary(l: Link, r: Link, sio: Serial, cyclesLate: Word)
    requires Inv(0, l) && r == Apply(l, CallLockstepEvent(0, sio, cyclesLate))
    ensures Elapsed(l) >= 0 && !l.transferActive ==> !r.p1.asleep
    ensures l.transferActive ==> !l.p1.asleep
  {
    if Elapsed(l) >= 0 && !l.transferActive {
      PrimaryWakes(l, sio, cyclesLate);
    }
  }

  // ---- Putting the secondary to sleep ----

  lemma {:induction false} DrainLeavesAsleep(l: Link, sio: Serial, cyclesLate: Word, next: Cycle, wasDetach: bool)
    requires Inv(0, l) && (l.p1.asleep || (1 in l.waiting && Due(l.p1)))
    ensures Drain(l, 1, sio, cyclesLate, next, wasDetach).link.p1.asleep
    decreases Weight(l.p1.queue)
  {
    if Due(l.p1) {
      var e := l.p1.queue[0];
      var next' := if e.kind.TransferStart? then TransferDelay(l, 1, e.kind.finishCycle, cyclesLate) else next;
      DrainProgress(l, 1, sio);
      DrainOneKeeps(0, l, 1, sio);
      assert Legal(1, e);
      DrainLeavesAsleep(DrainOne(l, 1, sio), sio, cyclesLate, next', wasDetach || e.kind.Detach?);
    }
  }

  /** A secondary that acknowledges the barrier sleeps after its callback, until the primary wakes it. */
  lemma AckSleeps(l: Link, sio: Serial, cyclesLate: Word)
    requires Inv(0, l) && 1 in l.waiting && Due(l.p1)
    ensures LockstepEvent(l, 1, sio, cyclesLate).p1.asleep
  {
    var owned := Fired(l, 1);
    FiredKeeps(l, 1);
    DrainLeavesAsleep(owned, sio, cyclesLate, UntilNextSync(owned, 1), l.p1.queue[0].kind.Detach?);
  }

  /** A secondary that has handled a transfer start and has nothing else queued wakes when the transfer is to
      finish, less the lateness of this callback, at least one cycle ahead; if that is within one interval
      and a sync is armed, four cycles ahead. */
  lemma TransferWake(l: Link, sio: Serial, cyclesLate: Word)
    requires Inv(0, l) && |l.p1.queue| == 1 && l.p1.queue[0].kind.TransferStart? && Due(l.p1)
    ensures
      var p := LockstepEvent(l, 1, sio, cyclesLate).p1;
      var remaining := Delta(l.p1.queue[0].kind.finishCycle, Time(l.p1)) - cyclesLate;
      var delay := if remaining < 1 then 1 else remaining;
      p.queue == [] && Delta(p.timer.when, p.clock) == if l.syncArmed && delay < 4 then 4 else delay
  {
    var owned := Fired(l, 1);
    var e := l.p1.queue[0];
    var delay := TransferDelay(owned, 1, e.kind.finishCycle, cyclesLate);
    var one := DrainOne(owned, 1, sio);
    FiredKeeps(l, 1);
    AnswersOne(owned, sio);
    assert Drain(owned, 1, sio, cyclesLate, UntilNextSync(owned, 1), false)
        == Drain(one, 1, sio, cyclesLate, delay, false) == Drained(one, delay, false);
    DrainKeepsArmed(owned, sio);
    AddThenDelta(l.p1.clock, delay);
    AddThenDelta(l.p1.clock, 4);
  }

  lemma DrainKeepsArmed(l: Link, sio: Serial)
    requires Inv(0, l) && Due(l.p1)
    ensures DrainOne(l, 1, sio).syncArmed == l.syncArmed
  {
    assert Legal(1, l.p1.queue[0]);
  }

  // ---- Statistics ----

  /** The high-water marks: a player's covers its queue, and the coordinator's covers both. */
  predicate Marked(l: Link) {
    l.p0.depth <= l.p0.maxDepth <= l.maxQueueDepth && l.p1.depth <= l.p1.maxDepth <= l.maxQueueDepth
  }

  /** Sending counts a drop for every attached target without room, and succeeds exactly when there is none. */
  lemma SendCounts(l: Link, e: Event, target: set<int>)
    ensures
      var (r, ok) := Enqueue(l, e, target);
      var full0, full1 := 0 in target && l.p0.free == 0, 1 in target && l.p1.free == 0;
      && (ok <==> !full0 && !full1)
      && r.droppedEvents == l.droppedEvents + (if full0 then 1 else 0) + (if full1 then 1 else 0)
      && (Marked(l) ==> Marked(r))
  {
  }
}
