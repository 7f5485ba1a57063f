/** The hard sync: when it is armed, how its countdown runs, and when it is sent. */
module LockstepSync {
  import opened Cycles
  import opened Lockstep
  import opened LockstepSafety
  import opened LockstepRuns
  import opened LockstepData
  import opened LockstepOrder

  // ---- Arming ----

  /** A transfer start of the primary that succeeds while it is in multiplayer mode. */
  predicate MultiplayerStart(l: Link, step: Step) {
    step.CallStart? && step.id == 0 && l.p0.mode == Multi && !l.transferActive && l.p1.free > 0
  }

  /** A multiplayer start succeeded since the attach or the last reset; a restored run goes on from the one
      that was saved. */
  predicate StartedSinceReset(run: Run) {
    match run
    case Fresh(_, _, _, _) => false
    case Then(before, step) => !step.CallReset? && (MultiplayerStart(State(before), step) || StartedSinceReset(before))
    case Restored(_, saved, _, _) => StartedSinceReset(saved)
  }

  lemma EnqueueKeepsSync(l: Link, e: Event, target: set<int>)
    ensures
      var r := Enqueue(l, e, target).0;
      && r.syncArmed == l.syncArmed && r.nextHardSync == l.nextHardSync && r.cycle == l.cycle
      && Time(r.p0) == Time(l.p0) && r.p0.mode == l.p0.mode && r.transferActive == l.transferActive
  {
  }

  lemma HandleKeepsSync(l: Link, id: Side, e: Event, sio: Serial)
    ensures
      var r := Handle(l, id, e, sio);
      r.syncArmed == l.syncArmed && r.nextHardSync == l.nextHardSync && r.cycle == l.cycle
  {
    var p := Get(l, id);
    match e.kind {
      case Attach => EnqueueKeepsSync(Put(l, id, SetReady(p, e.source, NoMode)), Reply(p, id), {e.source});
      case Detach =>
        var l1 := Put(l, id, SetReady(SetReady(p, e.source, NoMode), id, p.mode));
        EnqueueKeepsSync(l1, Reply(p, id), {0, 1} - {e.source});
      case _ =>
    }
  }

  lemma {:induction false} DrainKeepsSync(l: Link, id: Side, sio: Serial, cyclesLate: Word, next: Cycle,
                                          wasDetach: bool)
    ensures
      var r := Drain(l, id, sio, cyclesLate, next, wasDetach).link;
      r.syncArmed == l.syncArmed && r.nextHardSync == l.nextHardSync && r.cycle == l.cycle
    decreases Weight(Get(l, id).queue)
  {
    if Due(Get(l, id)) {
      var e := Get(l, id).queue[0];
      var next' := if e.kind.TransferStart? then TransferDelay(l, id, e.kind.finishCycle, cyclesLate) else next;
      HandleKeepsSync(TakeHead(l, id), id, e, sio);
      DrainProgress(l, id, sio);
      DrainKeepsSync(DrainOne(l, id, sio), id, sio, cyclesLate, next', wasDetach || e.kind.Detach?);
    }
  }

  // ---- The countdown ----

  /** The countdown `from` some value loses the shared time that passed between `l` and `r`. */
  predicate CountsFrom(l: Link, r: Link, from: Cycle) {
    r.nextHardSync == AddSaturated(from, -Max0(Delta(r.cycle, l.cycle)))
  }

  function Max0(x: Cycle): Cycle {
    if x < 0 then 0 else x
  }

  lemma AdvanceCounts(l: Link)
    ensures CountsFrom(l, AdvanceCycle(l), l.nextHardSync)
  {
    DeltaOfSame(l.cycle);
  }

  lemma WaitCounts(l: Link, w: Link)
    requires MayWait(w) && w.cycle == l.cycle
    ensures CountsFrom(l, WaitOnPlayers(w), w.nextHardSync) && WaitOnPlayers(w).syncArmed == w.syncArmed
  {
    AdvanceCounts(w);
  }

  lemma NoTimeCounts(l: Link, r: Link)
    requires r.cycle == l.cycle
    ensures CountsFrom(l, r, r.nextHardSync)
  {
    DeltaOfSame(l.cycle);
  }

  lemma HardSyncCounts(l: Link)
    requires MayWait(l)
    ensures
      var r := BeginHardSync(l);
      CountsFrom(l, r, l.nextHardSync) && r.syncArmed == l.syncArmed
  {
    var event := Event(HardSync, Time(l.p0), 0);
    EnqueueKeepsSync(l, event, {1, 2, 3});
    SendToSecondary(l, event);
    var l1 := Enqueue(l, event, {1, 2, 3}).0;
    if l.p1.free > 0 { WaitCounts(l, l1); } else { NoTimeCounts(l, l1); }
  }

  lemma SetModeCounts(l: Link, id: Side, mode: Mode)
    requires AwakeWhenFree(l)
    ensures
      var r := SetMode(l, id, mode);
      CountsFrom(l, r, l.nextHardSync) && r.syncArmed == l.syncArmed
  {
    NoTimeCounts(l, l);
    if mode != Get(l, id).mode {
      var event := Event(ModeSet(mode), Time(Get(l, id)), id);
      var target := if id == 0 then {1, 2, 3} else {0, 2, 3};
      EnqueueKeepsSync(NoteMode(l, id, mode), event, target);
      var l1 := Enqueue(NoteMode(l, id, mode), event, target).0;
      if id == 0 && l.waiting == {} && l.p1.free > 0 {
        SendToSecondary(NoteMode(l, id, mode), event);
        WaitCounts(l, l1);
      } else {
        NoTimeCounts(l, l1);
      }
    }
  }

  /** A start that succeeds in multiplayer mode arms the hard sync with a full interval, from which the wait
      takes the shared time it lets pass; no other start touches it. */
  lemma StartCounts(l: Link, id: Side, sio: Serial, transferCycles: Cycle)
    requires Inv(0, l)
    ensures
      var (r, started) := Start(l, id, sio, transferCycles);
      var arms := started && !l.syncArmed && l.p0.mode == Multi;
      && r.syncArmed == (l.syncArmed || (started && l.p0.mode == Multi))
      && CountsFrom(l, r, if arms then HARD_SYNC_INTERVAL else l.nextHardSync)
      && (r.cycle != l.cycle ==> started && l.waiting == {})
  {
    NoTimeCounts(l, l);
    if !l.transferActive && id == 0 {
      var l1 := SetData(l.(multiData := NO_WORDS), 0, sio);
      var l2 := Enqueue(l1, StartEvent(l, transferCycles), {1, 2, 3}).0;
      EnqueueKeepsSync(l1, StartEvent(l, transferCycles), {1, 2, 3});
      SendToSecondary(l1, StartEvent(l, transferCycles));
      NoTimeCounts(l, l2);
      if l.p1.free > 0 { TransferCounts(l, l2); }
    }
  }

  lemma TransferCounts(l: Link, l2: Link)
    requires AwakeWhenFree(l2) && l2.cycle == l.cycle
    ensures
      var r := BeginTransfer(l2);
      var arms := !l2.syncArmed && l2.p0.mode == Multi;
      && r.syncArmed == (l2.syncArmed || l2.p0.mode == Multi)
      && CountsFrom(l, r, if arms then HARD_SYNC_INTERVAL else l2.nextHardSync)
      && (r.cycle != l.cycle ==> l2.waiting == {})
  {
    NoTimeCounts(l, Activate(l2));
    if l2.waiting == {} { WaitCounts(l, Activate(l2)); }
  }

  /** A finish that cannot sync because a barrier is pending makes the sync due at once. */
  lemma FinishCounts(l: Link, id: Side, mode: Mode)
    requires AwakeWhenFree(l)
    ensures
      var r := Finish(l, id, mode);
      && r.syncArmed == l.syncArmed
      && (if l.transferMode == mode && id == 0 && l.syncArmed && l.waiting != {} then r.nextHardSync == -1
          else CountsFrom(l, r, l.nextHardSync))
  {
    NoTimeCounts(l, l);
    var l1 := Put(l, id, Get(l, id).(dataReceived := false));
    NoTimeCounts(l, l1);
    if l1.waiting == {} { HardSyncCounts(l1); }
  }

  /** The shared time of the primary's callback is past the interval. */
  predicate SyncDue(l: Link) {
    l.syncArmed && Elapsed(l) >= 0 && l.nextHardSync < Elapsed(l)
  }

  lemma OwnClockCounts(l: Link)
    requires AwakeWhenFree(l)
    ensures
      var r := OwnClock(l);
      && r.syncArmed == l.syncArmed
      && r.cycle == (if Elapsed(l) >= 0 then Time(l.p0) else l.cycle)
      && (if SyncDue(l)
          then r.nextHardSync == AddSaturated(AddSaturated(l.nextHardSync, -Elapsed(l)), HARD_SYNC_INTERVAL)
          else CountsFrom(l, r, l.nextHardSync))
  {
    NoTimeCounts(l, l);
    if Elapsed(l) >= 0 {
      var l1 := AdvanceCycle(l);
      AdvanceCounts(l);
      var l2 := if l1.transferActive then l1 else WakeSecondary(l1);
      DeltaOfSame(Time(l.p0));
      if l2.waiting == {} {
        HardSyncCounts(l2);
        HardSyncForward(l2);
      }
    }
  }

  lemma CallbackCounts(l: Link, id: Side, sio: Serial, cyclesLate: Word)
    requires AwakeWhenFree(l)
    ensures
      var r := LockstepEvent(l, id, sio, cyclesLate);
      && r.syncArmed == l.syncArmed
      && (if id == 0 && SyncDue(l)
          then r.nextHardSync == AddSaturated(AddSaturated(l.nextHardSync, -Elapsed(l)), HARD_SYNC_INTERVAL)
          else CountsFrom(l, r, l.nextHardSync))
  {
    var p, owned := Get(l, id), Fired(l, id);
    FiredCounts(l, id);
    DrainKeepsSync(owned, id, sio, cyclesLate, UntilNextSync(owned, id), p.queue != [] && p.queue[0].kind.Detach?);
  }

  lemma FiredCounts(l: Link, id: Side)
    requires AwakeWhenFree(l)
    ensures
      var r := Fired(l, id);
      && r.syncArmed == l.syncArmed
      && (if id == 0 && SyncDue(l)
          then r.nextHardSync == AddSaturated(AddSaturated(l.nextHardSync, -Elapsed(l)), HARD_SYNC_INTERVAL)
          else CountsFrom(l, r, l.nextHardSync))
  {
    var p := Get(l, id);
    NoTimeCounts(l, l);
    if id == 0 { OwnClockCounts(Put(l, id, p.(timer := p.timer.(scheduled := false)))); }
  }

  lemma ApplyArms(l: Link, step: Step)
    requires Inv(0, l)
    ensures Apply(l, step).syncArmed == (!step.CallReset? && (MultiplayerStart(l, step) || l.syncArmed))
  {
    match step {
      case Tick(_, _) =>
      case CallSetMode(id, mode) => SetModeCounts(l, id, mode);
      case CallStart(id, sio, transferCycles) =>
        StartCounts(l, id, sio, transferCycles);
        if id == 0 { StartPublishes(l, sio, transferCycles); }
      case CallFinish(id, mode) => FinishCounts(l, id, mode);
      case CallLockstepEvent(id, sio, cyclesLate) => CallbackCounts(l, id, sio, cyclesLate);
      case CallReset(_) =>
    }
  }

  /** In every run the hard sync is armed exactly when a multiplayer start succeeded since the attach or the
      last reset. */
  lemma {:induction false} ArmedByStart(run: Run)
    ensures State(run).syncArmed == StartedSinceReset(run)
    decreases run
  {
    match run {
      case Fresh(clock0, clock1, mode0, mode1) => AttachedUnarmed(clock0, clock1, mode0, mode1);
      case Then(before, step) =>
        ArmedByStart(before);
        var l, r := NextState(before, step);
        ApplyArms(l, step);
      case Restored(before, saved, clock0, clock1) =>
        ArmedByStart(saved);
        var s, r := SavedRunRestores(saved, before, clock0, clock1);
    }
  }

  lemma AttachedUnarmed(clock0: Cycle, clock1: Cycle, mode0: Mode, mode1: Mode)
    ensures !Attached(clock0, clock1, mode0, mode1).syncArmed
  {
  }

  // ---- When it is sent ----

  /** The event of a hard sync that the primary sends now. */
  function SyncEvent(l: Link): Event {
    Event(HardSync, Time(l.p0), 0)
  }

  predicate NoSync(ops: seq<QueueOp>) {
    forall i :: 0 <= i < |ops| ==> ops[i].Arrive? ==> !ops[i].event.kind.HardSync?
  }

  lemma {:induction false} DrainSendsNoSync(l: Link, who: Side, sio: Serial, id: Side)
    ensures NoSync(DrainOps(l, who, sio, id))
    decreases Weight(Get(l, who).queue)
  {
    if Due(Get(l, who)) {
      DrainProgress(l, who, sio);
      HandleSendsNoSync(TakeHead(l, who), who, Get(l, who).queue[0], id);
      DrainSendsNoSync(DrainOne(l, who, sio), who, sio, id);
    }
  }

  lemma HandleSendsNoSync(l: Link, who: Side, e: Event, id: Side)
    ensures NoSync(LeaveOps(who, id) + HandleOps(l, who, e, id))
  {
  }

  /** A callback of the primary sends the hard sync to the secondary, as the first thing it does, exactly when
      it is armed and past the interval, no barrier is pending and the secondary has room; otherwise it sends
      none. */
  lemma CallbackSyncs(l: Link, sio: Serial, cyclesLate: Word)
    requires AwakeWhenFree(l)
    ensures
      var ops := OpsOf(l, CallLockstepEvent(0, sio, cyclesLate), 1);
      if SyncDue(l) && l.waiting == {} && l.p1.free > 0
      then ops != [] && ops[0] == Arrive(SyncEvent(l)) && NoSync(ops[1..])
      else NoSync(ops)
  {
    DrainSendsNoSync(Fired(l, 0), 0, sio, 1);
    assert OwnClockOps(l, 1) == if SyncDue(l) && l.waiting == {} && l.p1.free > 0 then [Arrive(SyncEvent(l))] else [];
  }

  lemma {:induction false} ArrivalsKeep(q: seq<Event>, ops: seq<QueueOp>, e: Event)
    requires Arrivals(ops) && e in q
    ensures e in QueueAfter(q, ops)
    decreases |ops|
  {
    if ops != [] {
      var longer := Insert(q, ops[0].event);
      InsertHolds(q, ops[0].event, e);
      ArrivalsKeep(longer, ops[1..], e);
    }
  }

  lemma InsertHolds(q: seq<Event>, late: Event, e: Event)
    requires e in q || e == late
    ensures e in Insert(q, late)
  {
    var k := InsertIndex(q, late);
    assert q == q[..k] + q[k..];
  }

  lemma {:induction false} DrainKeepsBarrier(l: Link, sio: Serial, cyclesLate: Word, next: Cycle, wasDetach: bool)
    ensures Drain(l, 0, sio, cyclesLate, next, wasDetach).link.waiting == l.waiting
    decreases Weight(l.p0.queue)
  {
    if Due(l.p0) {
      var e := l.p0.queue[0];
      var next' := if e.kind.TransferStart? then TransferDelay(l, 0, e.kind.finishCycle, cyclesLate) else next;
      DrainProgress(l, 0, sio);
      HandleKeepsBarrier(TakeHead(l, 0), e, sio);
      DrainKeepsBarrier(DrainOne(l, 0, sio), sio, cyclesLate, next', wasDetach || e.kind.Detach?);
    }
  }

  lemma HandleKeepsBarrier(l: Link, e: Event, sio: Serial)
    ensures Handle(l, 0, e, sio).waiting == l.waiting
  {
  }

  lemma OwnClockWaits(l: Link)
    requires AwakeWhenFree(l) && SyncDue(l) && l.waiting == {} && l.p1.free > 0
    ensures OwnClock(l).waiting == {1}
  {
    var l1 := AdvanceCycle(l);
    var l2 := if l1.transferActive then l1 else WakeSecondary(l1);
    SendToSecondary(l2, SyncEvent(l));
  }

  lemma CallbackWaits(l: Link, sio: Serial, cyclesLate: Word)
    requires AwakeWhenFree(l) && SyncDue(l) && l.waiting == {} && l.p1.free > 0
    ensures LockstepEvent(l, 0, sio, cyclesLate).waiting == {1}
  {
    var owned := Fired(l, 0);
    OwnClockWaits(Put(l, 0, l.p0.(timer := l.p0.timer.(scheduled := false))));
    DrainKeepsBarrier(owned, sio, cyclesLate, UntilNextSync(owned, 0), l.p0.queue != [] && l.p0.queue[0].kind.Detach?);
  }

  lemma FirstArrivalStays(q: seq<Event>, ops: seq<QueueOp>, e: Event)
    requires ops != [] && ops[0] == Arrive(e) && Arrivals(ops)
    ensures e in QueueAfter(q, ops)
  {
    InsertHolds(q, e, e);
    ArrivalsKeep(Insert(q, e), ops[1..], e);
  }

  lemma CallbackQueues(l: Link, r: Link, sio: Serial, cyclesLate: Word)
    requires AwakeWhenFree(l) && SyncDue(l) && l.waiting == {} && l.p1.free > 0
    requires r == Apply(l, CallLockstepEvent(0, sio, cyclesLate))
    ensures SyncEvent(l) in r.p1.queue
  {
    CallbackSyncs(l, sio, cyclesLate);
    StepFollows(l, CallLockstepEvent(0, sio, cyclesLate), 1);
    OnlyOwnDeparts(l, CallLockstepEvent(0, sio, cyclesLate), 1);
    FirstArrivalStays(l.p1.queue, OpsOf(l, CallLockstepEvent(0, sio, cyclesLate), 1), SyncEvent(l));
  }

  /** A hard sync of `l` is queued for the secondary in `r`, and the primary sleeps behind it. */
  predicate SyncPending(l: Link, r: Link) {
    SyncEvent(l) in r.p1.queue && r.waiting == {1} && r.p0.asleep
  }

  lemma CallbackSendsSync(l: Link, r: Link, sio: Serial, cyclesLate: Word)
    requires AwakeWhenFree(l) && r == Apply(l, CallLockstepEvent(0, sio, cyclesLate)) && Inv(0, r)
    ensures SyncDue(l) && l.waiting == {} && l.p1.free > 0 ==> SyncPending(l, r)
  {
    if SyncDue(l) && l.waiting == {} && l.p1.free > 0 {
      CallbackWaits(l, sio, cyclesLate);
      CallbackQueues(l, r, sio, cyclesLate);
    }
  }

  /** In every run in which a multiplayer start succeeded since the attach or the last reset: a callback of the
      primary past the interval leaves a hard sync queued for the secondary and the primary asleep behind it,
      unless a barrier is pending already or the secondary has no room. */
  lemma SyncsInRun(run: Run, sio: Serial, cyclesLate: Word) returns (l: Link, r: Link)
    ensures l == State(run) && r == State(Then(run, CallLockstepEvent(0, sio, cyclesLate)))
    ensures
      StartedSinceReset(run) && Elapsed(l) >= 0 && l.nextHardSync < Elapsed(l) && l.waiting == {} && l.p1.free > 0 ==>
        SyncPending(l, r)
  {
    var armed := Armed(run);
    l, r := NextState(run, CallLockstepEvent(0, sio, cyclesLate));
    CallbackSendsSync(l, r, sio, cyclesLate);
  }

  lemma Armed(run: Run) returns (armed: bool)
    ensures armed == State(run).syncArmed == StartedSinceReset(run)
  {
    ArmedByStart(run);
    armed := State(run).syncArmed;
  }

  // ---- Waking and sleeping with nothing queued ----

  /** The callback of a player with nothing queued sets its wake: every interval while no sync is armed; else
      the primary's one interval past the shared time and the secondary's at the shared time, but at least one
      cycle ahead, and four when it falls asleep. The secondary falls asleep unless it is more than one
      interval behind the shared time. */
  lemma IdleCallback(l: Link, id: Side, sio: Serial, cyclesLate: Word)
    requires AwakeWhenFree(l) && Get(l, id).queue == []
    ensures
      var r := LockstepEvent(l, id, sio, cyclesLate);
      var p := Get(r, id);
      var behind := Delta(r.cycle, Time(p));
      && Delta(p.timer.when, p.clock) ==
         (if !l.syncArmed then UNLOCKED_INTERVAL
          else if id == 0 then Sanitize(AddSaturated(behind, LOCKSTEP_INTERVAL))
          else if behind < 4 then 4 else behind)
      && (id == 1 ==> (p.asleep <==> l.p1.asleep || (l.syncArmed && behind <= LOCKSTEP_INTERVAL)))
  {
    var owned := Fired(l, id);
    FiredCounts(l, id);
    FiredKeepsQueue(l, id);
    var next := UntilNextSync(owned, id);
    AddThenDelta(Get(l, id).clock, Sanitize(next));
    AddThenDelta(Get(l, id).clock, 4);
  }

  lemma FiredKeepsQueue(l: Link, id: Side)
    requires AwakeWhenFree(l)
    ensures
      var p, q := Get(l, id), Get(Fired(l, id), id);
      q.queue == p.queue && q.clock == p.clock && q.cycleOffset == p.cycleOffset && (id == 1 ==> q.asleep == p.asleep)
  {
    if id == 0 {
      var fired := Put(l, id, l.p0.(timer := l.p0.timer.(scheduled := false)));
      var l1 := AdvanceCycle(fired);
      var l2 := if l1.transferActive then l1 else WakeSecondary(l1);
      SendToSecondary(l2, SyncEvent(l));
    }
  }
}
