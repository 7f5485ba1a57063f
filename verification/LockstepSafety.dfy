/** The invariant of the two-machine link and its preservation by every callback. */
module LockstepSafety {
  import opened Cycles
  import opened Lockstep

  /** What travels to the primary: the secondary's attach and its mode changes. */
  predicate ToPrimary(e: Event) {
    e.source == 1 && (e.kind.Attach? || e.kind.ModeSet?)
  }

  /** An event whose handling acknowledges the primary's barrier. */
  predicate IsBarrier(e: Event) {
    e.kind.HardSync? || e.kind.TransferStart? || (e.kind.ModeSet? && e.source == 0)
  }

  /** What travels to the secondary: barrier events of the primary only. */
  predicate ToSecondary(e: Event) {
    e.source == 0 && IsBarrier(e)
  }

  predicate Legal(id: Side, e: Event) {
    if id == 0 then ToPrimary(e) else ToSecondary(e)
  }

  predicate Channel(id: Side, q: seq<Event>) {
    forall i :: 0 <= i < |q| ==> Legal(id, q[i])
  }

  predicate AllIn(base: Cycle, q: seq<Event>, i: int, j: int)
    requires 0 <= i && j < |q|
  {
    forall k :: i <= k <= j ==> InWindow(base, q[k].timestamp)
  }

  /** Every stretch of the queue whose timestamps share the half circle at `base` is in order. */
  ghost predicate SortedRuns(base: Cycle, q: seq<Event>) {
    forall i, j :: 0 <= i < j < |q| && AllIn(base, q, i, j) ==>
                     Offset(base, q[i].timestamp) <= Offset(base, q[j].timestamp)
  }

  /** Buffer accounting and queue content of one player; `inFlight` events have left
      the queue and are not back on the free list. */
  ghost predicate PlayerInv(base: Cycle, id: Side, p: Player, inFlight: nat) {
    && |p.queue| + p.free + inFlight == CAPACITY
    && p.depth == |p.queue| + inFlight
    && Channel(id, p.queue)
    && SortedRuns(base, p.queue)
  }

  /** The barrier, the sleep flags and the queues agree. */
  predicate Barrier(l: Link) {
    && l.waiting <= {1}
    && (l.p0.asleep <==> l.waiting != {})
    && (l.transferActive ==> l.waiting != {})
    && (1 in l.waiting ==> !l.p1.asleep && l.p1.queue != [])
  }

  ghost predicate Inv(base: Cycle, l: Link) {
    && Barrier(l)
    && PlayerInv(base, 0, l.p0, 0)
    && PlayerInv(base, 1, l.p1, 0)
  }

  // ---- Queue lemmas ----

  lemma InsertAt(q: seq<Event>, e: Event)
    ensures
      var k, r := InsertIndex(q, e), Insert(q, e);
      && |r| == |q| + 1 && r[k] == e
      && (forall m :: 0 <= m < k ==> r[m] == q[m])
      && (forall m :: k < m < |r| ==> r[m] == q[m - 1])
  {
  }

  lemma InsertPairSorted(base: Cycle, q: seq<Event>, e: Event, i: int, j: int)
    requires SortedRuns(base, q)
    requires 0 <= i < j <= |q| && |Insert(q, e)| == |q| + 1 && AllIn(base, Insert(q, e), i, j)
    ensures Offset(base, Insert(q, e)[i].timestamp) <= Offset(base, Insert(q, e)[j].timestamp)
  {
    InsertAt(q, e);
    var k, r := InsertIndex(q, e), Insert(q, e);
    assert InWindow(base, r[i].timestamp) && InWindow(base, r[j].timestamp);
    if j < k {
      assert AllIn(base, q, i, j);
    } else if j == k {
      WindowOrder(base, e.timestamp, q[i].timestamp);
    } else if i == k {
      assert InWindow(base, r[k + 1].timestamp);
      WindowOrder(base, e.timestamp, q[k].timestamp);
      assert k < j - 1 ==> AllIn(base, q, k, j - 1) by {
        if k < j - 1 { ShiftedIn(base, q, r, k, j - 1, k + 1); }
      }
    } else if i > k {
      ShiftedIn(base, q, r, i - 1, j - 1, i);
    } else {
      forall m | i <= m <= j - 1 ensures InWindow(base, q[m].timestamp) {
        assert InWindow(base, r[if m < k then m else m + 1].timestamp);
      }
      assert i < j - 1 ==> AllIn(base, q, i, j - 1);
    }
  }

  lemma ShiftedIn(base: Cycle, q: seq<Event>, r: seq<Event>, i: int, j: int, start: int)
    requires 0 <= i && j < |q| && start == i + 1 && j + 1 < |r|
    requires forall m :: start <= m <= j + 1 ==> r[m] == q[m - 1]
    requires forall m :: start <= m <= j + 1 ==> InWindow(base, r[m].timestamp)
    ensures AllIn(base, q, i, j)
  {
    forall m | i <= m <= j ensures InWindow(base, q[m].timestamp) {
      assert r[m + 1] == q[m];
    }
  }

  /** Queueing keeps the order. A new event goes after everything not later than it, hence
      first in, first out among equals, and before everything later. */
  lemma InsertSorted(base: Cycle, q: seq<Event>, e: Event)
    requires SortedRuns(base, q)
    ensures SortedRuns(base, Insert(q, e))
  {
    var r := Insert(q, e);
    InsertAt(q, e);
    forall i, j | 0 <= i < j < |r| && AllIn(base, r, i, j)
      ensures Offset(base, r[i].timestamp) <= Offset(base, r[j].timestamp)
    {
      InsertPairSorted(base, q, e, i, j);
    }
  }

  lemma TailSorted(base: Cycle, q: seq<Event>)
    requires q != [] && SortedRuns(base, q)
    ensures SortedRuns(base, q[1..])
  {
    var r := q[1..];
    forall i, j | 0 <= i < j < |r| && AllIn(base, r, i, j)
      ensures Offset(base, r[i].timestamp) <= Offset(base, r[j].timestamp)
    {
      assert AllIn(base, q, i + 1, j + 1) by {
        forall m | i + 1 <= m <= j + 1 ensures InWindow(base, q[m].timestamp) {
          assert r[m - 1] == q[m];
        }
      }
    }
  }

  // ---- Callbacks ----

  ghost predicate Players(base: Cycle, l: Link, inFlight0: nat, inFlight1: nat) {
    PlayerInv(base, 0, l.p0, inFlight0) && PlayerInv(base, 1, l.p1, inFlight1)
  }

  /** Queueing an event touches neither the barrier nor the sleep flags. */
  predicate OnlyQueues(l: Link, l': Link) {
    && l'.waiting == l.waiting && l'.transferActive == l.transferActive
    && l'.p0.asleep == l.p0.asleep && l'.p1.asleep == l.p1.asleep
    && (l.p1.queue != [] ==> l'.p1.queue != [])
  }

  lemma ReceiveKeeps(base: Cycle, id: Side, p: Player, inFlight: nat, e: Event)
    requires PlayerInv(base, id, p, inFlight) && p.free > 0 && Legal(id, e)
    ensures PlayerInv(base, id, Receive(p, e), inFlight) && Receive(p, e).queue != []
    ensures Receive(p, e).asleep == p.asleep
  {
    InsertAt(p.queue, e);
    InsertSorted(base, p.queue, e);
  }

  lemma DeliverKeeps(base: Cycle, l: Link, id: Side, e: Event, f0: nat, f1: nat)
    requires Players(base, l, f0, f1) && Legal(id, e)
    ensures
      var (l', ok) := Deliver(l, id, e);
      Players(base, l', f0, f1) && OnlyQueues(l, l') && (ok && id == 1 ==> l'.p1.queue != [])
  {
    if Get(l, id).free > 0 {
      ReceiveKeeps(base, id, Get(l, id), if id == 0 then f0 else f1, e);
    }
  }

  /** The primary's events go to the secondary only. */
  lemma SendKeeps(base: Cycle, l: Link, e: Event)
    requires Players(base, l, 0, 0) && ToSecondary(e)
    ensures
      var (l', ok) := Enqueue(l, e, {1, 2, 3});
      Players(base, l', 0, 0) && OnlyQueues(l, l') && (ok ==> l'.p1.queue != [])
  {
    DeliverKeeps(base, l, 1, e, 0, 0);
  }

  /** Starting a wait after the barrier event was queued. */
  lemma WaitKeeps(base: Cycle, l: Link)
    requires Players(base, l, 0, 0) && MayWait(l) && l.p1.queue != []
    ensures Inv(base, WaitOnPlayers(l))
  {
  }

  lemma HardSyncKeeps(base: Cycle, l: Link)
    requires Inv(base, l) && MayWait(l)
    ensures Inv(base, BeginHardSync(l))
  {
    var e := Event(HardSync, Time(l.p0), 0);
    SendKeeps(base, l, e);
    var (l1, queued) := Enqueue(l, e, {1, 2, 3});
    if queued { WaitKeeps(base, l1); }
  }

  lemma SetModeKeeps(base: Cycle, l: Link, id: Side, mode: Mode)
    requires Inv(base, l)
    ensures Inv(base, SetMode(l, id, mode))
  {
    var p := Get(l, id);
    if mode != p.mode {
      var p1 := p.(mode := mode);
      var event := Event(ModeSet(mode), Time(p1), id);
      var l1 := Put(l, id, SetReady(p1, id, mode));
      var l2 := if id == 0 then l1.(transferMode := mode) else l1;
      if id == 0 {
        SendKeeps(base, l2, event);
        var (l3, queued) := Enqueue(l2, event, {1, 2, 3});
        if l.waiting == {} && queued { WaitKeeps(base, l3); }
      } else {
        DeliverKeeps(base, l2, 0, event, 0, 0);
      }
    }
  }

  lemma StartKeeps(base: Cycle, l: Link, id: Side, sio: Serial, transferCycles: Cycle)
    requires Inv(base, l)
    ensures Inv(base, Start(l, id, sio, transferCycles).0)
  {
    if !l.transferActive && id == 0 {
      var l1 := SetData(l.(multiData := Four(0xFFFF, 0xFFFF, 0xFFFF, 0xFFFF)), 0, sio);
      var timestamp := Time(l.p0);
      var event := Event(TransferStart(Add(timestamp, transferCycles)), timestamp, 0);
      SendKeeps(base, l1, event);
      var (l2, queued) := Enqueue(l1, event, {1, 2, 3});
      if queued {
        TransferKeeps(base, l2);
      }
    }
  }

  /** With its start event queued, a transfer becomes active behind a barrier. */
  lemma TransferKeeps(base: Cycle, l: Link)
    requires Players(base, l, 0, 0) && Barrier(l) && l.p1.queue != []
    ensures Inv(base, BeginTransfer(l))
  {
    var arms := l.p0.mode == Multi && !l.syncArmed;
    var l1 := l.(transferActive := true, syncArmed := l.syncArmed || arms,
                                                      nextHardSync := if arms then HARD_SYNC_INTERVAL
                                                      else l.nextHardSync);
    if l1.waiting == {} { WaitKeeps(base, l1); }
  }

  lemma FinishKeeps(base: Cycle, l: Link, id: Side, mode: Mode)
    requires Inv(base, l)
    ensures Inv(base, Finish(l, id, mode))
  {
    var l1 := Put(l, id, Get(l, id).(dataReceived := false));
    if id == 0 && l1.syncArmed && l1.waiting == {} && l.transferMode == mode {
      HardSyncKeeps(base, l1);
    }
  }

  lemma OwnClockKeeps(base: Cycle, l: Link)
    requires Inv(base, l)
    ensures Inv(base, OwnClock(l))
  {
    var l1 := AdvanceCycle(l);
    var l2 := if l1.transferActive then l1 else WakeSecondary(l1);
    assert Inv(base, l2);
    if l2.waiting == {} { HardSyncKeeps(base, l2); }
  }

  /** The barrier facts that hold while an event of the secondary is in flight. */
  predicate Acked(l: Link) {
    l.waiting <= {1} && (l.p0.asleep <==> l.waiting != {}) && (l.transferActive ==> l.waiting != {})
  }

  lemma AckKeeps(base: Cycle, l: Link)
    requires Players(base, l, 0, 1) && Acked(l)
    ensures Players(base, Ack(l, 1), 0, 1) && Acked(Ack(l, 1)) && Ack(l, 1).waiting == {}
  {
  }

  lemma TakeKeeps(base: Cycle, l: Link, id: Side)
    requires Players(base, l, 0, 0) && Get(l, id).queue != []
    ensures Players(base, TakeHead(l, id), if id == 0 then 1 else 0, if id == 1 then 1 else 0)
    ensures Legal(id, Get(l, id).queue[0])
  {
    TailSorted(base, Get(l, id).queue);
  }

  lemma HandleSecondary(base: Cycle, l: Link, e: Event, sio: Serial)
    requires Players(base, l, 0, 1) && Acked(l) && ToSecondary(e)
    ensures Players(base, Handle(l, 1, e, sio), 0, 1) && Acked(Handle(l, 1, e, sio))
    ensures Handle(l, 1, e, sio).waiting == {}
  {
    match e.kind {
      case HardSync => AckKeeps(base, l);
      case TransferStart(_) => AckKeeps(base, SetData(l, 1, sio));
      case ModeSet(mode) => AckKeeps(base, l.(p1 := SetReady(l.p1, 0, mode)));
    }
  }

  lemma HandlePrimary(base: Cycle, l: Link, e: Event, sio: Serial)
    requires Players(base, l, 1, 0) && ToPrimary(e)
    ensures Players(base, Handle(l, 0, e, sio), 1, 0) && OnlyQueues(l, Handle(l, 0, e, sio))
  {
    if e.kind.Attach? {
      var l1 := l.(p0 := SetReady(l.p0, e.source, NoMode));
      DeliverKeeps(base, l1, 1, Reply(l.p0, 0), 1, 0);
    }
  }

  /** Handling one due event releases the barrier in the very step that removes its event. */
  lemma DrainOneKeeps(base: Cycle, l: Link, id: Side, sio: Serial)
    requires Inv(base, l) && Due(Get(l, id))
    ensures Inv(base, DrainOne(l, id, sio))
    ensures id == 1 ==> DrainOne(l, id, sio).waiting == {}
  {
    TakeKeeps(base, l, id);
    var e := Get(l, id).queue[0];
    if id == 0 {
      HandlePrimary(base, TakeHead(l, 0), e, sio);
    } else {
      HandleSecondary(base, TakeHead(l, 1), e, sio);
    }
  }

  lemma {:induction false} DrainKeeps(base: Cycle, l: Link, id: Side, sio: Serial, cyclesLate: Word, next: Cycle)
    requires Inv(base, l)
    ensures
      var d := Drain(l, id, sio, cyclesLate, next, false);
      Inv(base, d.link) && !d.wasDetach && !Due(Get(d.link, id))
    decreases Weight(Get(l, id).queue)
  {
    if Due(Get(l, id)) {
      var e := Get(l, id).queue[0];
      assert Legal(id, e);
      var next' := if e.kind.TransferStart? then TransferDelay(l, id, e.kind.finishCycle, cyclesLate) else next;
      DrainOneKeeps(base, l, id, sio);
      DrainProgress(l, id, sio);
      DrainKeeps(base, DrainOne(l, id, sio), id, sio, cyclesLate, next');
    }
  }

  lemma FireAndDrainKeeps(base: Cycle, l: Link, id: Side, sio: Serial, cyclesLate: Word)
    requires Inv(base, l)
    ensures
      var d := FireAndDrain(l, id, sio, cyclesLate);
      Inv(base, d.link) && !d.wasDetach && !Due(Get(d.link, id))
  {
    var p := Get(l, id);
    assert p.queue != [] ==> Legal(id, p.queue[0]);
    var fired := Put(l, id, p.(timer := p.timer.(scheduled := false)));
    assert Inv(base, fired);
    var owned := if id == 0 then OwnClock(fired) else fired;
    if id == 0 { OwnClockKeeps(base, fired); }
    DrainKeeps(base, owned, id, sio, cyclesLate, UntilNextSync(owned, id));
  }

  lemma LockstepEventKeeps(base: Cycle, l: Link, id: Side, sio: Serial, cyclesLate: Word)
    requires Inv(base, l)
    ensures Inv(base, LockstepEvent(l, id, sio, cyclesLate))
  {
    FireAndDrainKeeps(base, l, id, sio, cyclesLate);
    RescheduleKeeps(base, FireAndDrain(l, id, sio, cyclesLate), id);
  }

  lemma RescheduleKeeps(base: Cycle, d: Drained, id: Side)
    requires Inv(base, d.link) && !d.wasDetach
    ensures Inv(base, Reschedule(d, id))
  {
  }

  lemma ResetKeeps(base: Cycle, l: Link, id: Side)
    requires Inv(base, l)
    ensures Inv(base, Reset(l, id))
  {
  }

  lemma AttachedInv(base: Cycle, clock0: Cycle, clock1: Cycle, mode0: Mode, mode1: Mode)
    ensures Inv(base, Attached(clock0, clock1, mode0, mode1))
  {
  }
}
