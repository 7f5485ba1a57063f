/** Safety and progress of the GBA link over every run of an attached pair. */
module LockstepRuns {
  import opened Cycles
  import opened Lockstep
  import opened LockstepSafety
  import opened LockstepState

  /** What the two machines and their drivers can do to the link. A machine's clock may move
      to any value, and callbacks may come from a machine that has just been put to sleep. */
  datatype Step =
    | Tick(id: Side, clock: Cycle)
    | CallSetMode(id: Side, mode: Mode)
    | CallStart(id: Side, sio: Serial, transferCycles: Cycle)
    | CallFinish(id: Side, mode: Mode)
    | CallLockstepEvent(id: Side, sio: Serial, cyclesLate: Word)
    | CallReset(id: Side)

  function Apply(l: Link, s: Step): Link
    requires AwakeWhenFree(l)
  {
    match s
    case Tick(id, clock) => Put(l, id, Get(l, id).(clock := clock))
    case CallSetMode(id, mode) => SetMode(l, id, mode)
    case CallStart(id, sio, transferCycles) => Start(l, id, sio, transferCycles).0
    case CallFinish(id, mode) => Finish(l, id, mode)
    case CallLockstepEvent(id, sio, cyclesLate) => LockstepEvent(l, id, sio, cyclesLate)
    case CallReset(id) => Reset(l, id)
  }

  lemma ApplyKeeps(base: Cycle, l: Link, s: Step)
    requires Inv(base, l)
    ensures Inv(base, Apply(l, s))
  {
    match s {
      case Tick(_, _) =>
      case CallSetMode(id, mode) => SetModeKeeps(base, l, id, mode);
      case CallStart(id, sio, transferCycles) => StartKeeps(base, l, id, sio, transferCycles);
      case CallFinish(id, mode) => FinishKeeps(base, l, id, mode);
      case CallLockstepEvent(id, sio, cyclesLate) => LockstepEventKeeps(base, l, id, sio, cyclesLate);
      case CallReset(id) => ResetKeeps(base, l, id);
    }
  }

  /** Runs of an attached pair: fresh, one step longer, or restored to a state saved
      from a run while the machine states put their clocks anywhere. */
  datatype Run =
    | Fresh(clock0: Cycle, clock1: Cycle, mode0: Mode, mode1: Mode)
    | Then(before: Run, step: Step)
    | Restored(before: Run, saved: Run, clock0: Cycle, clock1: Cycle)

  function MoveClocks(l: Link, clock0: Cycle, clock1: Cycle): Link {
    l.(p0 := l.p0.(clock := clock0), p1 := l.p1.(clock := clock1))
  }

  /** The invariant, with the queues in order seen from every point of the circle. */
  ghost predicate Sound(l: Link) {
    forall base: Cycle :: Inv(base, l)
  }

  /** A sound link can save both drivers. */
  lemma SoundSaves(l: Link)
    requires Sound(l)
    ensures Barrier(l) && |l.p0.queue| <= CAPACITY && |l.p1.queue| <= CAPACITY
  {
    assert Inv(0, l);
  }

  lemma FreshSound(clock0: Cycle, clock1: Cycle, mode0: Mode, mode1: Mode)
    ensures Sound(Attached(clock0, clock1, mode0, mode1)) && AwakeWhenFree(Attached(clock0, clock1, mode0, mode1))
  {
    forall base: Cycle ensures Inv(base, Attached(clock0, clock1, mode0, mode1)) {
      AttachedInv(base, clock0, clock1, mode0, mode1);
    }
    assert Inv(0, Attached(clock0, clock1, mode0, mode1));
  }

  lemma ApplySound(l: Link, s: Step)
    requires Sound(l)
    ensures AwakeWhenFree(l) && Sound(Apply(l, s)) && AwakeWhenFree(Apply(l, s))
  {
    SoundSaves(l);
    forall base: Cycle ensures Inv(base, Apply(l, s)) {
      assert Inv(base, l);
      ApplyKeeps(base, l, s);
    }
    assert Inv(0, Apply(l, s));
  }

  lemma RestoreSound(saved: Link, current: Link)
    requires Sound(saved) && |saved.p0.queue| <= CAPACITY && |saved.p1.queue| <= CAPACITY
    ensures LoadPair(current, Save(saved, 0), Save(saved, 1)).1
    ensures Sound(LoadPair(current, Save(saved, 0), Save(saved, 1)).0)
  {
    assert Inv(0, saved);
    SaveLoadRoundTrip(0, saved, current);
    forall base: Cycle ensures Inv(base, LoadPair(current, Save(saved, 0), Save(saved, 1)).0) {
      assert Inv(base, saved);
      RestoredInv(base, saved, current);
    }
  }

  lemma RestoredInv(base: Cycle, saved: Link, current: Link)
    requires Inv(base, saved)
    ensures Inv(base, LoadPair(current, Save(saved, 0), Save(saved, 1)).0)
  {
    SaveLoadRoundTrip(base, saved, current);
  }

  /** A link restored to the state of another one, at other clocks. */
  function Copied(saved: Link, current: Link, clock0: Cycle, clock1: Cycle): Link
    requires Sound(saved)
  {
    SoundSaves(saved);
    LoadPair(MoveClocks(current, clock0, clock1), Save(saved, 0), Save(saved, 1)).0
  }

  lemma CopiedSound(saved: Link, current: Link, clock0: Cycle, clock1: Cycle)
    requires Sound(saved)
    ensures Sound(Copied(saved, current, clock0, clock1)) && AwakeWhenFree(Copied(saved, current, clock0, clock1))
    ensures |saved.p0.queue| <= CAPACITY && |saved.p1.queue| <= CAPACITY
  {
    SoundSaves(saved);
    RestoreSound(saved, MoveClocks(current, clock0, clock1));
    SoundSaves(Copied(saved, current, clock0, clock1));
  }

  /** The link after a run. Every callback along the way meets the driver's assertions,
      and every saved state is accepted when it is restored. */
  function State(run: Run): (l: Link)
    ensures Sound(l)
  {
    match run
    case Fresh(clock0, clock1, mode0, mode1) =>
      FreshSound(clock0, clock1, mode0, mode1);
      Attached(clock0, clock1, mode0, mode1)
    case Then(before, step) =>
      var l := State(before);
      ApplySound(l, step);
      Apply(l, step)
    case Restored(before, saved, clock0, clock1) =>
      CopiedSound(State(saved), State(before), clock0, clock1);
      Copied(State(saved), State(before), clock0, clock1)
  }

  lemma StateInv(run: Run)
    ensures Inv(0, State(run))
  {
    assert Inv(0, State(run));
  }

  /** A run and its next callback. */
  lemma NextState(run: Run, step: Step) returns (l: Link, r: Link)
    ensures l == State(run) && Inv(0, l) && AwakeWhenFree(l)
    ensures r == Apply(l, step) && r == State(Then(run, step)) && Inv(0, r)
  {
    StateInv(run);
    StateInv(Then(run, step));
    StateThen(run, step);
    l := State(run);
    r := Apply(l, step);
  }

  /** One step of a run is one callback. */
  lemma StateThen(run: Run, step: Step)
    ensures AwakeWhenFree(State(run)) && State(Then(run, step)) == Apply(State(run), step)
  {
    ApplySound(State(run), step);
  }

  lemma StateRestored(before: Run, saved: Run, clock0: Cycle, clock1: Cycle)
    ensures State(Restored(before, saved, clock0, clock1)) == Copied(State(saved), State(before), clock0, clock1)
  {
  }

  /** No deadlock: the primary sleeps exactly while a barrier is pending, a transfer is only
      active behind a barrier, a player the barrier waits for is awake and still holds an event
      that will acknowledge it, so the two machines never sleep at the same time. */
  lemma NoDeadlock(run: Run)
    ensures
      var l := State(run);
      && (l.p0.asleep <==> l.waiting != {})
      && (l.transferActive ==> l.waiting != {})
      && l.waiting <= {1}
      && (1 in l.waiting ==> !l.p1.asleep && exists i :: 0 <= i < |l.p1.queue| && IsBarrier(l.p1.queue[i]))
      && !(l.p0.asleep && l.p1.asleep)
  {
    var l := State(run);
    assert Inv(0, l);
    if 1 in l.waiting {
      assert Legal(1, l.p1.queue[0]);
      assert IsBarrier(l.p1.queue[0]);
    }
  }

  /** Buffer accounting and order: queue and free list share the eight slots, the depth
      counter is the queue length, and timestamps within one half circle are in order. */
  lemma QueuesConsistent(run: Run, id: Side, base: Cycle)
    ensures
      var p := Get(State(run), id);
      && |p.queue| + p.free == CAPACITY
      && p.depth == |p.queue|
      && Channel(id, p.queue)
      && ((forall i :: 0 <= i < |p.queue| ==> InWindow(base, p.queue[i].timestamp)) ==>
            forall i, j :: 0 <= i < j < |p.queue| ==>
                             Offset(base, p.queue[i].timestamp) <= Offset(base, p.queue[j].timestamp))
  {
    assert Inv(base, State(run));
    LinkQueues(base, State(run), id);
  }

  lemma LinkQueues(base: Cycle, l: Link, id: Side)
    requires Inv(base, l)
    ensures
      var p := Get(l, id);
      && |p.queue| + p.free == CAPACITY && p.depth == |p.queue| && Channel(id, p.queue)
      && ((forall i :: 0 <= i < |p.queue| ==> InWindow(base, p.queue[i].timestamp)) ==>
            forall i, j :: 0 <= i < j < |p.queue| ==>
                             Offset(base, p.queue[i].timestamp) <= Offset(base, p.queue[j].timestamp))
  {
    var p := Get(l, id);
    if forall i :: 0 <= i < |p.queue| ==> InWindow(base, p.queue[i].timestamp) {
      forall i, j | 0 <= i < j < |p.queue|
        ensures Offset(base, p.queue[i].timestamp) <= Offset(base, p.queue[j].timestamp)
      {
        assert AllIn(base, p.queue, i, j);
      }
    }
  }

  /** What a restore takes from the saved link, up to the depth statistics. */
  predicate RestoredFrom(s: Link, current: Link, r: Link) {
    r == s.(p0 := RestoredPlayer(s.p0, current.p0), p1 := RestoredPlayer(s.p1, current.p1),
    maxQueueDepth := r.maxQueueDepth, droppedEvents := r.droppedEvents)
  }

  lemma RestoredState(saved: Run, before: Run, clock0: Cycle, clock1: Cycle) returns (s: Link, current: Link, r: Link)
    ensures s == State(saved) && r == State(Restored(before, saved, clock0, clock1))
    ensures current.p0.clock == clock0 && current.p1.clock == clock1 && RestoredFrom(s, current, r)
  {
    s, current := State(saved), MoveClocks(State(before), clock0, clock1);
    assert Inv(0, s);
    SaveLoadRoundTrip(0, s, current);
    r := Copied(s, State(before), clock0, clock1);
  }

  /** Every driver state saved in a run is accepted and restores that state exactly, up to the
      clocks of the restored pair, the depth statistics and the next wake. */
  lemma SavedRunRestores(saved: Run, before: Run, clock0: Cycle, clock1: Cycle) returns (s: Link, r: Link)
    ensures s == State(saved) && r == State(Restored(before, saved, clock0, clock1))
    ensures SameProtocol(s.p0, r.p0) && SameProtocol(s.p1, r.p1)
    ensures r.waiting == s.waiting && r.transferActive == s.transferActive && r.syncArmed == s.syncArmed
    ensures r.transferMode == s.transferMode && r.cycle == s.cycle && r.nextHardSync == s.nextHardSync
    ensures r.multiData == s.multiData && r.normalData == s.normalData
    ensures r.p0.clock == clock0 && r.p1.clock == clock1
  {
    var current;
    s, current, r := RestoredState(saved, before, clock0, clock1);
  }

  predicate SameProtocol(p: Player, q: Player) {
    && p.mode == q.mode && p.otherModes == q.otherModes && p.asleep == q.asleep
    && p.cycleOffset == q.cycleOffset && p.dataReceived == q.dataReceived
    && p.queue == q.queue && p.free == q.free && p.depth == q.depth && p.timer.scheduled == q.timer.scheduled
  }

  // ---- Progress ----

  lemma {:induction false} DrainReleases(base: Cycle, l: Link, sio: Serial, cyclesLate: Word, next: Cycle,
                                         wasDetach: bool)
    requires Inv(base, l) && l.waiting == {}
    ensures Drain(l, 1, sio, cyclesLate, next, wasDetach).link.waiting == {}
    decreases Weight(l.p1.queue)
  {
    if Due(l.p1) {
      DrainOneKeeps(base, l, 1, sio);
      DrainProgress(l, 1, sio);
      var e := l.p1.queue[0];
      var next' := if e.kind.TransferStart? then TransferDelay(l, 1, e.kind.finishCycle, cyclesLate) else next;
      DrainReleases(base, DrainOne(l, 1, sio), sio, cyclesLate, next', wasDetach || e.kind.Detach?);
    }
  }

  lemma DueDrainReleases(l: Link, sio: Serial, cyclesLate: Word, next: Cycle, wasDetach: bool)
    requires Inv(0, l) && Due(l.p1)
    ensures Drain(l, 1, sio, cyclesLate, next, wasDetach).link.waiting == {}
  {
    var e := l.p1.queue[0];
    var next' := if e.kind.TransferStart? then TransferDelay(l, 1, e.kind.finishCycle, cyclesLate) else next;
    DrainOneKeeps(0, l, 1, sio);
    DrainReleases(0, DrainOne(l, 1, sio), sio, cyclesLate, next', wasDetach || e.kind.Detach?);
  }

  lemma CallbackReleases(l: Link, sio: Serial, cyclesLate: Word)
    requires Inv(0, l) && Due(l.p1)
    ensures LockstepEvent(l, 1, sio, cyclesLate).waiting == {}
  {
    var fired := Put(l, 1, l.p1.(timer := l.p1.timer.(scheduled := false)));
    assert Inv(0, fired);
    DueDrainReleases(fired, sio, cyclesLate, UntilNextSync(fired, 1), l.p1.queue[0].kind.Detach?);
  }

  /** No barrier and no transfer are pending, and the primary runs. */
  predicate Freed(l: Link) {
    l.waiting == {} && !l.p0.asleep && !l.transferActive
  }

  lemma DueCallbackFrees(l: Link, r: Link, sio: Serial, cyclesLate: Word)
    requires Inv(0, l) && AwakeWhenFree(l) && Due(l.p1)
    requires r == Apply(l, CallLockstepEvent(1, sio, cyclesLate)) && Inv(0, r)
    ensures Freed(r)
  {
    CallbackReleases(l, sio, cyclesLate);
    ReleasedAwake(r);
  }

  /** A callback of the secondary at or after the time of its first queued event releases
      the barrier and wakes the primary. */
  lemma BarrierReleased(run: Run, sio: Serial, cyclesLate: Word) returns (l: Link, r: Link)
    ensures l == State(run) && r == State(Then(run, CallLockstepEvent(1, sio, cyclesLate)))
    ensures Due(l.p1) ==> Freed(r)
  {
    l, r := NextState(run, CallLockstepEvent(1, sio, cyclesLate));
    if Due(l.p1) {
      DueCallbackFrees(l, r, sio, cyclesLate);
    }
  }

  lemma ReleasedAwake(l: Link)
    requires Inv(0, l) && l.waiting == {}
    ensures Freed(l)
  {
  }

  /** A wake is set, at least one cycle ahead and no later than the first queued event. */
  predicate WakeAtHead(p: Player) {
    && p.timer.scheduled && 1 <= Delta(p.timer.when, p.clock)
    && (p.queue != [] ==> Delta(p.timer.when, p.clock) <= Sanitize(Delta(p.queue[0].timestamp, Time(p))))
  }

  /** A player's callback leaves its wake at least one cycle ahead and no later than the first event
      still queued. */
  lemma WakeReachesHead(run: Run, id: Side, sio: Serial, cyclesLate: Word) returns (r: Link)
    ensures r == State(Then(run, CallLockstepEvent(id, sio, cyclesLate)))
    ensures WakeAtHead(Get(r, id))
  {
    var l;
    l, r := NextState(run, CallLockstepEvent(id, sio, cyclesLate));
    NextReachesHead(l, r, id, sio, cyclesLate);
  }

  lemma NextReachesHead(l: Link, r: Link, id: Side, sio: Serial, cyclesLate: Word)
    requires Inv(0, l) && AwakeWhenFree(l)
    requires r == Apply(l, CallLockstepEvent(id, sio, cyclesLate))
    ensures WakeAtHead(Get(r, id))
  {
    CallbackReachesHead(l, id, sio, cyclesLate);
  }

  lemma CallbackReachesHead(l: Link, id: Side, sio: Serial, cyclesLate: Word)
    requires Inv(0, l)
    ensures WakeAtHead(Get(LockstepEvent(l, id, sio, cyclesLate), id))
  {
    FireAndDrainKeeps(0, l, id, sio, cyclesLate);
    RescheduleReachesHead(FireAndDrain(l, id, sio, cyclesLate), id);
  }

  lemma RescheduleReachesHead(d: Drained, id: Side)
    requires !d.wasDetach
    ensures WakeAtHead(Get(Reschedule(d, id), id))
  {
    var p := Get(d.link, id);
    var next :=
      if p.queue != [] && Delta(p.queue[0].timestamp, Time(p)) < d.nextEvent
      then Delta(p.queue[0].timestamp, Time(p)) else d.nextEvent;
    var sleeps := d.link.syncArmed && id != 0 && next <= LOCKSTEP_INTERVAL && p.queue == [];
    AddThenDelta(p.clock, Sanitize(if sleeps && next < 4 then 4 else next));
  }
}
