/** When players are woken: every player always has a wake scheduled, and whatever is queued for it
    moves that wake to the first queued event or leaves it earlier. */
module LockstepWake {
  import opened Cycles
  import opened Lockstep
  import opened LockstepSafety
  import opened LockstepState
  import opened LockstepRuns

  /** The pending wake comes no later than the first queued event, or at once when that is due. */
  predicate Covers(p: Player) {
    p.queue != [] ==> Delta(p.timer.when, p.clock) <= Sanitize(Delta(p.queue[0].timestamp, Time(p)))
  }

  /** `_rescheduleForQueueHead`: a pending wake stays pending, never moves back, and afterwards comes
      no later than the queue head; it moves only to the head's own time. */
  lemma TimerMeaning(timer: Timer, queue: seq<Event>, clock: Cycle, time: Cycle)
    ensures
      var r := TimerForQueueHead(timer, queue, clock, time);
      && r.scheduled == timer.scheduled
      && Delta(r.when, clock) <= Delta(timer.when, clock)
      && (queue != [] && timer.scheduled ==> Delta(r.when, clock) <= Sanitize(Delta(queue[0].timestamp, time)))
      && (r != timer ==> queue != [] && Delta(r.when, clock) == Sanitize(Delta(queue[0].timestamp, time)))
  {
    if queue != [] {
      AddThenDelta(clock, Sanitize(Delta(queue[0].timestamp, time)));
    }
  }

  lemma ReceiveCovers(p: Player, e: Event)
    requires p.free > 0 && p.timer.scheduled
    ensures Covers(Receive(p, e)) && Receive(p, e).timer.scheduled
  {
    TimerMeaning(p.timer, Insert(p.queue, e), p.clock, Time(p));
  }

  /** What somebody else's callback may do to a player: nothing to its queue and timer, or it queues
      something and the wake covers the head. */
  predicate Woken(p: Player, r: Player) {
    && r.clock == p.clock && r.cycleOffset == p.cycleOffset && r.timer.scheduled == p.timer.scheduled
    && ((r.queue == p.queue && r.timer == p.timer) || (p.timer.scheduled ==> Covers(r)))
  }

  lemma WokenTwice(p: Player, q: Player, r: Player)
    requires Woken(p, q) && Woken(q, r)
    ensures Woken(p, r)
  {
  }

  predicate WokenBoth(l: Link, r: Link) {
    Woken(l.p0, r.p0) && Woken(l.p1, r.p1)
  }

  lemma DeliverWakes(l: Link, id: Side, e: Event)
    ensures WokenBoth(l, Deliver(l, id, e).0)
  {
    var p := Get(l, id);
    if p.free > 0 && p.timer.scheduled {
      ReceiveCovers(p, e);
    }
    if p.free > 0 {
      TimerMeaning(p.timer, Insert(p.queue, e), p.clock, Time(p));
    }
  }

  lemma EnqueueWakes(l: Link, e: Event, target: set<int>)
    ensures WokenBoth(l, Enqueue(l, e, target).0)
  {
    var (l0, _) := if 0 in target then Deliver(l, 0, e) else (l, true);
    DeliverWakes(l, 0, e);
    DeliverWakes(l0, 1, e);
    var r := Enqueue(l, e, target).0;
    assert WokenBoth(l, l0) && WokenBoth(l0, r);
    WokenTwice(l.p0, l0.p0, r.p0);
    WokenTwice(l.p1, l0.p1, r.p1);
  }

  lemma WokenChain(l: Link, m: Link, r: Link)
    requires WokenBoth(l, m) && WokenBoth(m, r)
    ensures WokenBoth(l, r)
  {
    WokenTwice(l.p0, m.p0, r.p0);
    WokenTwice(l.p1, m.p1, r.p1);
  }

  lemma HardSyncWakes(l: Link)
    requires MayWait(l)
    ensures WokenBoth(l, BeginHardSync(l))
  {
    EnqueueWakes(l, Event(HardSync, Time(l.p0), 0), {1, 2, 3});
  }

  lemma SetModeWakes(l: Link, id: Side, mode: Mode)
    requires AwakeWhenFree(l)
    ensures WokenBoth(l, SetMode(l, id, mode))
  {
    var p1 := Get(l, id).(mode := mode);
    var l1 := Put(l, id, SetReady(p1, id, mode));
    var l2 := if id == 0 then l1.(transferMode := mode) else l1;
    EnqueueWakes(l2, Event(ModeSet(mode), Time(p1), id), if id == 0 then {1, 2, 3} else {0, 2, 3});
  }

  lemma StartWakes(l: Link, id: Side, sio: Serial, transferCycles: Cycle)
    requires AwakeWhenFree(l)
    ensures WokenBoth(l, Start(l, id, sio, transferCycles).0)
  {
    var l1 := SetData(l.(multiData := Four(0xFFFF, 0xFFFF, 0xFFFF, 0xFFFF)), 0, sio);
    var timestamp := Time(l.p0);
    EnqueueWakes(l1, Event(TransferStart(Add(timestamp, transferCycles)), timestamp, 0), {1, 2, 3});
  }

  lemma FinishWakes(l: Link, id: Side, mode: Mode)
    requires AwakeWhenFree(l)
    ensures WokenBoth(l, Finish(l, id, mode))
  {
    var l1 := Put(l, id, Get(l, id).(dataReceived := false));
    if l1.waiting == {} {
      HardSyncWakes(l1);
    }
  }

  lemma OwnClockWakes(l: Link)
    requires AwakeWhenFree(l)
    ensures WokenBoth(l, OwnClock(l))
  {
    var l1 := AdvanceCycle(l);
    var l2 := if l1.transferActive then l1 else WakeSecondary(l1);
    if l2.waiting == {} {
      HardSyncWakes(l2);
    }
  }

  lemma AckWakes(l: Link, id: Side)
    ensures WokenBoth(l, Ack(l, id))
  {
  }

  lemma SetReadyWakes(l: Link, id: Side, of: PlayerId, mode: Mode)
    ensures WokenBoth(l, Put(l, id, SetReady(Get(l, id), of, mode)))
  {
  }

  lemma SetDataWakes(l: Link, id: Side, sio: Serial)
    ensures WokenBoth(l, SetData(l, id, sio))
  {
  }

  lemma AttachWakes(l: Link, id: Side, e: Event, sio: Serial)
    requires e.kind.Attach?
    ensures WokenBoth(l, Handle(l, id, e, sio))
  {
    var l1 := Put(l, id, SetReady(Get(l, id), e.source, NoMode));
    var r := Enqueue(l1, Reply(Get(l, id), id), {e.source}).0;
    SetReadyWakes(l, id, e.source, NoMode);
    EnqueueWakes(l1, Reply(Get(l, id), id), {e.source});
    WokenChain(l, l1, r);
  }

  lemma DetachWakes(l: Link, id: Side, e: Event, sio: Serial)
    requires e.kind.Detach?
    ensures WokenBoth(l, Handle(l, id, e, sio))
  {
    var p := Get(l, id);
    var l1 := Put(l, id, SetReady(SetReady(p, e.source, NoMode), id, p.mode));
    var r := Enqueue(l1, Reply(p, id), {0, 1} - {e.source}).0;
    assert WokenBoth(l, l1);
    EnqueueWakes(l1, Reply(p, id), {0, 1} - {e.source});
    WokenChain(l, l1, r);
  }

  lemma AnswerWakes(l: Link, id: Side, e: Event, sio: Serial)
    requires !e.kind.Attach? && !e.kind.Detach?
    ensures WokenBoth(l, Handle(l, id, e, sio))
  {
    match e.kind {
      case HardSync => AckWakes(l, id);
      case TransferStart(_) =>
        SetDataWakes(l, id, sio);
        AckWakes(SetData(l, id, sio), id);
        WokenChain(l, SetData(l, id, sio), Ack(SetData(l, id, sio), id));
      case ModeSet(mode) =>
        var l1 := Put(l, id, SetReady(Get(l, id), e.source, mode));
        SetReadyWakes(l, id, e.source, mode);
        AckWakes(l1, id);
        WokenChain(l, l1, Ack(l1, id));
    }
  }

  lemma HandleWakes(l: Link, id: Side, e: Event, sio: Serial)
    ensures WokenBoth(l, Handle(l, id, e, sio))
  {
    match e.kind {
      case Attach => AttachWakes(l, id, e, sio);
      case Detach => DetachWakes(l, id, e, sio);
      case _ => AnswerWakes(l, id, e, sio);
    }
  }

  /** Draining one queue treats the other player as any callback does. */
  lemma {:induction false} DrainWakesOther(l: Link, id: Side, sio: Serial, cyclesLate: Word, next: Cycle,
                                           wasDetach: bool)
    ensures Woken(Get(l, 1 - id), Get(Drain(l, id, sio, cyclesLate, next, wasDetach).link, 1 - id))
    decreases Weight(Get(l, id).queue)
  {
    if Due(Get(l, id)) {
      var e := Get(l, id).queue[0];
      var next' := if e.kind.TransferStart? then TransferDelay(l, id, e.kind.finishCycle, cyclesLate) else next;
      var one := DrainOne(l, id, sio);
      HandleWakes(TakeHead(l, id), id, e, sio);
      DrainProgress(l, id, sio);
      DrainWakesOther(one, id, sio, cyclesLate, next', wasDetach || e.kind.Detach?);
      WokenTwice(Get(l, 1 - id), Get(one, 1 - id),
                 Get(Drain(one, id, sio, cyclesLate, next', wasDetach || e.kind.Detach?).link, 1 - id));
    }
  }

  lemma CallbackWakesOther(l: Link, id: Side, sio: Serial, cyclesLate: Word)
    requires AwakeWhenFree(l)
    ensures Woken(Get(l, 1 - id), Get(LockstepEvent(l, id, sio, cyclesLate), 1 - id))
  {
    var p := Get(l, id);
    var fired := Put(l, id, p.(timer := p.timer.(scheduled := false)));
    var owned := if id == 0 then OwnClock(fired) else fired;
    var headDetach := p.queue != [] && p.queue[0].kind.Detach?;
    if id == 0 { OwnClockWakes(fired); }
    DrainWakesOther(owned, id, sio, cyclesLate, UntilNextSync(owned, id), headDetach);
    WokenTwice(Get(l, 1 - id), Get(owned, 1 - id),
               Get(Drain(owned, id, sio, cyclesLate, UntilNextSync(owned, id), headDetach).link, 1 - id));
  }

  /** A player's own callback. */
  predicate OwnCallback(step: Step, id: Side) {
    step.CallLockstepEvent? && step.id == id
  }

  /** Steps that change a clock or an offset under a pending wake. */
  predicate MovesTime(step: Step) {
    step.Tick? || step.CallReset?
  }

  lemma ApplyWakes(l: Link, step: Step, id: Side)
    requires AwakeWhenFree(l) && !MovesTime(step) && !OwnCallback(step, id)
    ensures Woken(Get(l, id), Get(Apply(l, step), id))
  {
    match step {
      case CallSetMode(who, mode) => SetModeWakes(l, who, mode);
      case CallStart(who, sio, transferCycles) => StartWakes(l, who, sio, transferCycles);
      case CallFinish(who, mode) => FinishWakes(l, who, mode);
      case CallLockstepEvent(who, sio, cyclesLate) => CallbackWakesOther(l, who, sio, cyclesLate);
    }
  }

  lemma OwnCallbackCovers(l: Link, id: Side, sio: Serial, cyclesLate: Word)
    requires Inv(0, l)
    ensures
      var p := Get(LockstepEvent(l, id, sio, cyclesLate), id);
      p.timer.scheduled && Covers(p) && Delta(p.timer.when, p.clock) >= 1
  {
    CallbackReachesHead(l, id, sio, cyclesLate);
  }

  lemma ApplyKeepsTimers(l: Link, step: Step, id: Side)
    requires Inv(0, l) && AwakeWhenFree(l) && Get(l, id).timer.scheduled
    ensures Get(Apply(l, step), id).timer.scheduled
  {
    if OwnCallback(step, id) {
      OwnCallbackCovers(l, id, step.sio, step.cyclesLate);
    } else if !MovesTime(step) {
      ApplyWakes(l, step, id);
    }
  }

  lemma AttachedTimers(clock0: Cycle, clock1: Cycle, mode0: Mode, mode1: Mode, id: Side)
    ensures Get(Attached(clock0, clock1, mode0, mode1), id).timer.scheduled
  {
  }

  /** In every run both players have a wake scheduled after every callback. */
  lemma {:induction false} TimersScheduled(run: Run, id: Side)
    ensures Get(State(run), id).timer.scheduled
    decreases run
  {
    match run {
      case Fresh(clock0, clock1, mode0, mode1) => AttachedTimers(clock0, clock1, mode0, mode1, id);
      case Then(before, step) =>
        TimersScheduled(before, id);
        var l, r := NextState(before, step);
        ApplyKeepsTimers(l, step, id);
      case Restored(before, saved, clock0, clock1) =>
        TimersScheduled(saved, id);
        var s, r := SavedRunRestores(saved, before, clock0, clock1);
    }
  }

  lemma PlayerScheduled(run: Run, id: Side) returns (p: Player)
    ensures p == Get(State(run), id) && p.timer.scheduled
  {
    TimersScheduled(run, id);
    p := Get(State(run), id);
  }

  /** In every run, after every callback: a player for which something was queued has a wake no later
      than its first event, one whose wake covered its queue still has, and its own callback always
      leaves it so. */
  lemma WakeCovers(run: Run, step: Step, id: Side) returns (p: Player, r: Player)
    requires !MovesTime(step)
    ensures p == Get(State(run), id) && r == Get(State(Then(run, step)), id)
    ensures r.timer.scheduled && (OwnCallback(step, id) || r.queue != p.queue || Covers(p) ==> Covers(r))
  {
    TimersScheduled(run, id);
    var l, after := NextState(run, step);
    StepCovers(l, step, id);
    p, r := Get(l, id), Get(after, id);
  }

  lemma StepCovers(l: Link, step: Step, id: Side)
    requires Inv(0, l) && AwakeWhenFree(l) && Get(l, id).timer.scheduled && !MovesTime(step)
    ensures
      var p, r := Get(l, id), Get(Apply(l, step), id);
      r.timer.scheduled && (OwnCallback(step, id) || r.queue != p.queue || Covers(p) ==> Covers(r))
  {
    if OwnCallback(step, id) {
      OwnCallbackCovers(l, id, step.sio, step.cyclesLate);
    } else {
      ApplyWakes(l, step, id);
    }
  }

  /** A reset moves a player to the shared time under a pending wake: the wake then covers the queue
      exactly when it comes no later than the first event counted from the shared time. */
  predicate MovedToSharedTime(p: Player, r: Player, cycle: Cycle) {
    && r.timer == p.timer && r.queue == p.queue && Time(r) == cycle
    && (Covers(r) <==> p.queue == [] || Delta(p.timer.when, p.clock) <= Sanitize(Delta(p.queue[0].timestamp, cycle)))
  }

  lemma ResetCovers(run: Run, id: Side) returns (l: Link, r: Link)
    ensures l == State(run) && r == State(Then(run, CallReset(id)))
    ensures MovedToSharedTime(Get(l, id), Get(r, id), l.cycle)
  {
    var p := PlayerScheduled(run, id);
    l, r := NextState(run, CallReset(id));
    ResetMoves(l, r, p, id);
  }

  lemma ResetMoves(l: Link, r: Link, p: Player, id: Side)
    requires p == Get(l, id) && p.timer.scheduled && AwakeWhenFree(l) && r == Apply(l, CallReset(id))
    ensures MovedToSharedTime(Get(l, id), Get(r, id), l.cycle)
  {
    DeltaOfDelta(Get(l, id).clock, l.cycle);
  }

  /** Time that passes without wrapping past either point keeps the wake in front of the queue. */
  lemma TickCovers(p: Player, clock: Cycle)
    requires Covers(p) && p.queue != []
    requires
      var passed := Delta(clock, p.clock);
      && 0 <= passed
      && -TWO31 <= Delta(p.timer.when, p.clock) - passed
      && -TWO31 <= Delta(p.queue[0].timestamp, Time(p)) - passed
    ensures Covers(p.(clock := clock))
  {
    var passed := Delta(clock, p.clock);
    DeltaPasses(p.timer.when, p.clock, clock);
    TimePasses(p, clock);
    DeltaPasses(p.queue[0].timestamp, Time(p), Time(p.(clock := clock)));
  }

  lemma DeltaPasses(point: Cycle, from: Cycle, to: Cycle)
    requires Delta(to, from) >= 0 && Delta(point, from) - Delta(to, from) >= -TWO31
    ensures Delta(point, to) == Delta(point, from) - Delta(to, from)
  {
    var a := DeltaTurns(point, to);
    var b := DeltaTurns(point, from);
    var c := DeltaTurns(to, from);
    SamePoint(Delta(point, to), Delta(point, from) - Delta(to, from), a - b + c);
  }

  lemma TimePasses(p: Player, clock: Cycle)
    ensures Delta(Time(p.(clock := clock)), Time(p)) == Delta(clock, p.clock)
  {
    ClockPasses(clock, p.clock, p.cycleOffset);
  }

  lemma ClockPasses(later: Cycle, earlier: Cycle, offset: Cycle)
    ensures Delta(Delta(later, offset), Delta(earlier, offset)) == Delta(later, earlier)
  {
    var x, y := Delta(later, offset), Delta(earlier, offset);
    var a := DeltaTurns(later, offset);
    var b := DeltaTurns(earlier, offset);
    var c := DeltaTurns(x, y);
    var d := DeltaTurns(later, earlier);
    SamePoint(Delta(x, y), Delta(later, earlier), a - b + c - d);
  }

  /** A restored run, whatever its clocks: both wakes cover their queues. */
  lemma RestoredCovers(before: Run, saved: Run, clock0: Cycle, clock1: Cycle) returns (r: Link)
    ensures r == State(Restored(before, saved, clock0, clock1)) && Covers(r.p0) && Covers(r.p1)
  {
    TimersScheduled(saved, 0);
    TimersScheduled(saved, 1);
    var s, current;
    s, current, r := RestoredState(saved, before, clock0, clock1);
    RestoredPlayerCovers(s.p0, current.p0);
    RestoredPlayerCovers(s.p1, current.p1);
  }

  lemma RestoredPlayerCovers(saved: Player, current: Player)
    requires saved.timer.scheduled
    ensures Covers(RestoredPlayer(saved, current))
  {
    var timer := Schedule(current.clock, Sanitize(Delta(saved.timer.when, saved.clock)));
    TimerMeaning(timer, saved.queue, current.clock, Delta(current.clock, saved.cycleOffset));
  }
}
