/** What a link transfer delivers, and the shared clock. */
module LockstepData {
  import opened Cycles
  import opened Lockstep
  import opened LockstepSafety
  import opened LockstepRuns

  const NO_WORDS: Four<Half> := Four(0xFFFF, 0xFFFF, 0xFFFF, 0xFFFF)

  /** The four words a finished multiplayer transfer hands to a machine. */
  function FinishedWords(l: Link, id: Side): Four<Half> {
    if Get(l, id).dataReceived then l.multiData else NO_WORDS
  }

  /** The byte a finished 8-bit transfer hands to a machine: its predecessor's. */
  function FinishedByte(l: Link, id: Side): nat {
    if l.transferMode == Normal8 && id == 1 && l.p1.dataReceived then l.normalData.at0 % 0x100 else 0xFF
  }

  /** The word a finished 32-bit transfer hands to a machine: its predecessor's. */
  function FinishedWord(l: Link, id: Side): nat {
    if l.transferMode == Normal32 && id == 1 && l.p1.dataReceived then l.normalData.at0 else 0xFFFF_FFFF
  }

  /** The event that announces a transfer to the secondary. */
  function StartEvent(l: Link, transferCycles: Cycle): Event {
    Event(TransferStart(Add(Time(l.p0), transferCycles)), Time(l.p0), 0)
  }

  /** What the link shows of the transfer data. */
  predicate SameData(l: Link, r: Link) {
    r.multiData == l.multiData && r.normalData == l.normalData && r.transferMode == l.transferMode
  }

  /** The primary's part: unless a transfer is active or the secondary's buffer is full, its word is
      published, the others are blank, the start event is queued and the transfer waits. */
  lemma StartPublishes(l: Link, sio: Serial, transferCycles: Cycle)
    requires Inv(0, l)
    ensures
      var (r, started) := Start(l, 0, sio, transferCycles);
      && (started <==> !l.transferActive && l.p1.free > 0)
      && (started ==> TransferPending(r) && SameData(SetData(l.(multiData := NO_WORDS), 0, sio), r))
      && (started ==> r.p1.queue == Insert(l.p1.queue, StartEvent(l, transferCycles)))
      && (!started ==> r.p1.queue == l.p1.queue && r.waiting == l.waiting && r.transferActive == l.transferActive)
  {
    if !l.transferActive {
      var l1 := SetData(l.(multiData := NO_WORDS), 0, sio);
      SendToSecondary(l1, StartEvent(l, transferCycles));
      TransferWaits(Enqueue(l1, StartEvent(l, transferCycles), {1, 2, 3}).0);
    }
  }

  /** A transfer is active behind its barrier. */
  predicate TransferPending(l: Link) {
    l.transferActive && l.waiting == {1} && l.p0.asleep && !l.p1.asleep
  }

  lemma SendToSecondary(l: Link, e: Event)
    ensures
      var (r, ok) := Enqueue(l, e, {1, 2, 3});
      && ok == (l.p1.free > 0) && r.p1.queue == (if ok then Insert(l.p1.queue, e) else l.p1.queue)
      && r.p0 == l.p0 && r.waiting == l.waiting && r.transferActive == l.transferActive
      && r.p1.asleep == l.p1.asleep && SameData(l, r)
  {
  }

  lemma TransferWaits(l: Link)
    requires l.waiting <= {1} && (l.p0.asleep <==> l.waiting != {}) && (l.waiting != {} ==> !l.p1.asleep)
    ensures
      var r := BeginTransfer(l);
      TransferPending(r) && r.p1.queue == l.p1.queue && SameData(l, r)
  {
  }

  /** How many queued events are due at `time`. */
  function DueCount(q: seq<Event>, time: Cycle): (k: nat)
    ensures k <= |q| && forall i :: 0 <= i < k ==> Delta(q[i].timestamp, time) <= 0
    ensures k < |q| ==> Delta(q[k].timestamp, time) > 0
  {
    if q == [] || Delta(q[0].timestamp, time) > 0 then 0 else 1 + DueCount(q[1..], time)
  }

  /** A transfer start is among the first `k` events. */
  predicate Announced(q: seq<Event>, k: nat)
    requires k <= |q|
  {
    exists i :: 0 <= i < k && q[i].kind.TransferStart?
  }

  /** What the secondary leaves behind after handling `k` events, with a transfer start among them or not. */
  predicate Answered(l: Link, r: Link, sio: Serial, k: nat, announced: bool) {
    && r.p1.queue == l.p1.queue[Min(k, |l.p1.queue|)..]
    && SameData(if announced then SetData(l, 1, sio) else l, r)
    && r.p1.clock == l.p1.clock && r.p1.cycleOffset == l.p1.cycleOffset
    && (if k == 0 then r.waiting == l.waiting && r.transferActive == l.transferActive && r.p0.asleep == l.p0.asleep
        else r.waiting == {} && !r.transferActive && !r.p0.asleep)
    && r.p0.dataReceived == (l.p0.dataReceived || (k > 0 && l.transferActive))
    && r.p1.dataReceived == (l.p1.dataReceived || (k > 0 && l.transferActive))
  }

  function Min(a: nat, b: nat): nat {
    if a < b then a else b
  }

  lemma AnswersOne(l: Link, sio: Serial)
    requires Inv(0, l) && Due(l.p1)
    ensures Answered(l, DrainOne(l, 1, sio), sio, 1, l.p1.queue[0].kind.TransferStart?)
  {
    assert Legal(1, l.p1.queue[0]);
  }

  lemma AnswersMore(l: Link, m: Link, r: Link, sio: Serial, k: nat, first: bool, later: bool)
    requires Answered(l, m, sio, 1, first) && Answered(m, r, sio, k, later) && l.p1.queue != [] && k <= |m.p1.queue|
    ensures Answered(l, r, sio, k + 1, first || later)
  {
    assert l.p1.queue[1..][k..] == l.p1.queue[k + 1..];
  }

  lemma AnnouncedNext(q: seq<Event>, k: nat)
    requires k < |q|
    ensures Announced(q, k + 1) <==> q[0].kind.TransferStart? || Announced(q[1..], k)
  {
    assert q[0].kind.TransferStart? ==> Announced(q, k + 1);
    forall i | 0 <= i < k ensures q[1..][i] == q[i + 1] {
    }
    if Announced(q[1..], k) {
      var i :| 0 <= i < k && q[1..][i].kind.TransferStart?;
      assert q[i + 1].kind.TransferStart?;
    }
    if Announced(q, k + 1) && !q[0].kind.TransferStart? {
      var i :| 0 <= i < k + 1 && q[i].kind.TransferStart?;
      assert q[1..][i - 1].kind.TransferStart?;
    }
  }

  /** The secondary handled exactly the events that were due. */
  predicate AnsweredDue(l: Link, r: Link, sio: Serial) {
    var k := DueCount(l.p1.queue, Time(l.p1));
    Answered(l, r, sio, k, Announced(l.p1.queue, k))
  }

  lemma AnswersNext(l: Link, m: Link, r: Link, sio: Serial)
    requires Inv(0, l) && Due(l.p1) && m == DrainOne(l, 1, sio) && AnsweredDue(m, r, sio)
    ensures AnsweredDue(l, r, sio)
  {
    var k := DueCount(m.p1.queue, Time(m.p1));
    AnswersOne(l, sio);
    AnswersMore(l, m, r, sio, k, l.p1.queue[0].kind.TransferStart?, Announced(m.p1.queue, k));
    AnnouncedNext(l.p1.queue, k);
  }

  /** The secondary's part: its drain loop handles exactly the events that are due, the first of them
      ends the transfer for both machines, and a transfer start among them adds its word. */
  lemma {:induction false} SecondaryAnswers(l: Link, sio: Serial, cyclesLate: Word, next: Cycle, wasDetach: bool)
    requires Inv(0, l)
    ensures AnsweredDue(l, Drain(l, 1, sio, cyclesLate, next, wasDetach).link, sio)
    decreases Weight(l.p1.queue)
  {
    if Due(l.p1) {
      var e, one := l.p1.queue[0], DrainOne(l, 1, sio);
      var next' := if e.kind.TransferStart? then TransferDelay(l, 1, e.kind.finishCycle, cyclesLate) else next;
      DrainOneKeeps(0, l, 1, sio);
      DrainProgress(l, 1, sio);
      SecondaryAnswers(one, sio, cyclesLate, next', wasDetach || e.kind.Detach?);
      AnswersNext(l, one, Drain(one, 1, sio, cyclesLate, next', wasDetach || e.kind.Detach?).link, sio);
    }
  }

  lemma RescheduleAnswers(l: Link, d: Drained, sio: Serial)
    requires AwakeWhenFree(l) && AnsweredDue(Fired(l, 1), d.link, sio)
    ensures AnsweredDue(l, Reschedule(d, 1), sio)
  {
  }

  /** The secondary's whole callback. */
  lemma CallbackAnswers(l: Link, sio: Serial, cyclesLate: Word)
    requires Inv(0, l)
    ensures AnsweredDue(l, LockstepEvent(l, 1, sio, cyclesLate), sio)
  {
    var fired := Fired(l, 1);
    assert Inv(0, fired);
    var headDetach := l.p1.queue != [] && l.p1.queue[0].kind.Detach?;
    SecondaryAnswers(fired, sio, cyclesLate, UntilNextSync(fired, 1), headDetach);
    RescheduleAnswers(l, FireAndDrain(l, 1, sio, cyclesLate), sio);
  }

  /** The transfer is over for both machines. In multiplayer mode both receive the primary's word and the
      secondary's, or none of the secondary; in the normal modes the secondary receives the primary's. */
  predicate Exchanged(mode: Mode, r: Link, sio0: Serial, word1: Half) {
    && r.waiting == {} && !r.transferActive && !r.p0.asleep
    && (mode == Multi ==> FinishedWords(r, 0) == FinishedWords(r, 1) == Four(sio0.multiSend, word1, 0xFFFF, 0xFFFF))
    && (mode == Normal8 ==> FinishedByte(r, 1) == sio0.data8 % 0x100 && FinishedByte(r, 0) == 0xFF)
    && (mode == Normal32 ==> FinishedWord(r, 1) == sio0.data32 && FinishedWord(r, 0) == 0xFFFF_FFFF)
  }

  /** A machine that has received nothing, or finishes in a mode the link is not in, is handed all ones. */
  lemma NothingReceived(l: Link, id: Side)
    ensures !Get(l, id).dataReceived ==>
              && FinishedWords(l, id) == Four(0xFFFF, 0xFFFF, 0xFFFF, 0xFFFF)
              && FinishedByte(l, id) == 0xFF && FinishedWord(l, id) == 0xFFFF_FFFF
    ensures l.transferMode != Normal8 ==> FinishedByte(l, id) == 0xFF
    ensures l.transferMode != Normal32 ==> FinishedWord(l, id) == 0xFFFF_FFFF
  {
  }

  /** In the normal modes the secondary's own byte or word is kept beside the primary's. */
  predicate KeptBeside(mode: Mode, r: Link, sio1: Serial) {
    (mode == Normal8 ==> r.normalData.at1 == sio1.data8) && (mode == Normal32 ==> r.normalData.at1 == sio1.data32)
  }

  lemma AnswerExchanges(l: Link, started: Link, r: Link, sio0: Serial, sio1: Serial, k: nat, announced: bool)
    requires TransferPending(started) && SameData(SetData(l.(multiData := NO_WORDS), 0, sio0), started)
    requires k > 0 && Answered(started, r, sio1, k, announced)
    ensures Exchanged(l.transferMode, r, sio0, if announced then sio1.multiSend else 0xFFFF)
    ensures announced ==> KeptBeside(l.transferMode, r, sio1)
  {
  }

  /** How a transfer ends that was started on `l`, when the secondary's next callback comes at `clock`.
      Nothing due leaves it pending. Otherwise it is over, and the secondary's word is in it exactly when a
      transfer start was among the due events. */
  predicate TransferEnds(l: Link, r: Link, sio0: Serial, sio1: Serial, transferCycles: Cycle, clock: Cycle) {
    var q := Insert(l.p1.queue, StartEvent(l, transferCycles));
    var k := DueCount(q, Delta(clock, l.p1.cycleOffset));
    if k == 0 then r.transferActive && r.waiting == {1} && r.p0.asleep
    else
      && Exchanged(l.transferMode, r, sio0, if Announced(q, k) then sio1.multiSend else 0xFFFF)
      && (Announced(q, k) ==> KeptBeside(l.transferMode, r, sio1))
  }

  lemma StartedEnds(l: Link, started: Link, moved: Link, r: Link, sio0: Serial, sio1: Serial, transferCycles: Cycle,
                    clock: Cycle, cyclesLate: Word)
    requires Inv(0, l) && !l.transferActive && l.p1.free > 0
    requires started == Start(l, 0, sio0, transferCycles).0
    requires moved == Put(started, 1, started.p1.(clock := clock)) && AwakeWhenFree(moved)
    requires r == LockstepEvent(moved, 1, sio1, cyclesLate)
    ensures TransferEnds(l, r, sio0, sio1, transferCycles, clock)
  {
    StartPublishes(l, sio0, transferCycles);
    StartKeeps(0, l, 0, sio0, transferCycles);
    assert Inv(0, moved);
    CallbackAnswers(moved, sio1, cyclesLate);
    AnsweredEnds(l, moved, r, sio0, sio1, transferCycles, clock);
  }

  lemma AnsweredEnds(l: Link, moved: Link, r: Link, sio0: Serial, sio1: Serial, transferCycles: Cycle, clock: Cycle)
    requires TransferPending(moved) && SameData(SetData(l.(multiData := NO_WORDS), 0, sio0), moved)
    requires moved.p1.queue == Insert(l.p1.queue, StartEvent(l, transferCycles))
    requires Time(moved.p1) == Delta(clock, l.p1.cycleOffset) && AnsweredDue(moved, r, sio1)
    ensures TransferEnds(l, r, sio0, sio1, transferCycles, clock)
  {
    var k := DueCount(moved.p1.queue, Time(moved.p1));
    if k > 0 {
      AnswerExchanges(l, moved, r, sio0, sio1, k, Announced(moved.p1.queue, k));
    }
  }

  /** A run that starts a transfer and then lets the secondary call back at `clock`. */
  function TransferRun(run: Run, sio0: Serial, sio1: Serial, transferCycles: Cycle, clock: Cycle,
                       cyclesLate: Word): Run {
    Then(Then(Then(run, CallStart(0, sio0, transferCycles)), Tick(1, clock)), CallLockstepEvent(1, sio1, cyclesLate))
  }

  /** In every run, whatever is queued or pending: a transfer that can start ends as stated above. */
  lemma TransferExchanges(run: Run, sio0: Serial, sio1: Serial, transferCycles: Cycle, clock: Cycle, cyclesLate: Word)
    returns (l: Link, r: Link)
    ensures l == State(run) && r == State(TransferRun(run, sio0, sio1, transferCycles, clock, cyclesLate))
    ensures !l.transferActive && l.p1.free > 0 ==> TransferEnds(l, r, sio0, sio1, transferCycles, clock)
  {
    var run1 := Then(run, CallStart(0, sio0, transferCycles));
    var started, moved;
    l, started := NextState(run, CallStart(0, sio0, transferCycles));
    started, moved := NextState(run1, Tick(1, clock));
    moved, r := NextState(Then(run1, Tick(1, clock)), CallLockstepEvent(1, sio1, cyclesLate));
    AppliedEnds(l, started, moved, r, sio0, sio1, transferCycles, clock, cyclesLate);
  }

  lemma AppliedEnds(l: Link, started: Link, moved: Link, r: Link, sio0: Serial, sio1: Serial, transferCycles: Cycle,
                    clock: Cycle, cyclesLate: Word)
    requires Inv(0, l) && AwakeWhenFree(l) && AwakeWhenFree(started) && AwakeWhenFree(moved)
    requires started == Apply(l, CallStart(0, sio0, transferCycles)) && moved == Apply(started, Tick(1, clock))
    requires r == Apply(moved, CallLockstepEvent(1, sio1, cyclesLate))
    ensures !l.transferActive && l.p1.free > 0 ==> TransferEnds(l, r, sio0, sio1, transferCycles, clock)
  {
    if !l.transferActive && l.p1.free > 0 {
      StartedEnds(l, started, moved, r, sio0, sio1, transferCycles, clock, cyclesLate);
    }
  }

  /** A link that shows a mode change at time zero still queued for the secondary. */
  predicate ModeChangeQueued(l: Link) {
    && !l.transferActive && l.p1.free > 0 && l.transferMode == Multi && l.p1.cycleOffset == 0
    && l.p1.queue == [Event(ModeSet(Multi), 0, 0)] && Time(l.p0) == 10
  }

  lemma ModeChangeFirst(l: Link, r: Link, sio0: Serial, sio1: Serial, transferCycles: Cycle)
    requires ModeChangeQueued(l) && TransferEnds(l, r, sio0, sio1, transferCycles, 5)
    ensures Exchanged(Multi, r, sio0, 0xFFFF)
  {
    var e := StartEvent(l, transferCycles);
    var q := Insert(l.p1.queue, e);
    assert Delta(10, 0) == 10 && Delta(0, 5) == -5 && Delta(10, 5) == 5 && Delta(5, 0) == 5;
    InsertAt(l.p1.queue, e);
    assert q[0] == Event(ModeSet(Multi), 0, 0) && q[1] == e;
    assert DueCount(q, 5) == 1;
  }

  /** Some transfers end without the secondary's word: here a mode change of the primary is still queued,
      and the secondary handles it before it sees the transfer start. */
  lemma EarlyRelease(sio0: Serial, sio1: Serial, transferCycles: Cycle, cyclesLate: Word) returns (run: Run, r: Link)
    ensures r == State(TransferRun(run, sio0, sio1, transferCycles, 5, cyclesLate))
    ensures Exchanged(Multi, r, sio0, 0xFFFF)
  {
    var idle := Fresh(0, 0, Normal8, Normal8);
    run := Then(Then(idle, CallSetMode(0, Multi)), Tick(0, 10));
    var l0, l1 := NextState(idle, CallSetMode(0, Multi));
    var l;
    l1, l := NextState(Then(idle, CallSetMode(0, Multi)), Tick(0, 10));
    QueuesModeChange(l0, l1, l);
    l, r := TransferExchanges(run, sio0, sio1, transferCycles, 5, cyclesLate);
    ModeChangeFirst(l, r, sio0, sio1, transferCycles);
  }

  lemma QueuesModeChange(l0: Link, l1: Link, l: Link)
    requires l0 == Attached(0, 0, Normal8, Normal8) && AwakeWhenFree(l0) && l1 == SetMode(l0, 0, Multi)
    requires l == Put(l1, 0, l1.p0.(clock := 10))
    ensures ModeChangeQueued(l)
  {
    var e := Event(ModeSet(Multi), 0, 0);
    assert Delta(0, 0) == 0 && Delta(10, 0) == 10;
    SendToSecondary(NoteMode(l0, 0, Multi), e);
    assert Insert([], e) == [e];
  }

  // ---- The shared clock ----

  lemma DeltaOfSame(c: Cycle)
    ensures Delta(c, c) == 0
  {
  }

  /** The shared clock is where it was, or at the primary's time and not behind where it was. */
  predicate Forward(l: Link, r: Link) {
    r.cycle == l.cycle || (r.cycle == Time(l.p0) && Delta(r.cycle, l.cycle) >= 0)
  }

  lemma EnqueueKeepsClock(l: Link, e: Event, target: set<int>)
    ensures
      var r := Enqueue(l, e, target).0;
      r.cycle == l.cycle && Time(r.p0) == Time(l.p0)
  {
  }

  // ---- The debug assertion of `_advanceCycle` ----

  /** What the assertion at the head of a wait compares with zero. */
  function Elapsed(l: Link): Cycle {
    Delta(Time(l.p0), l.cycle)
  }

  /** A callback of the primary that turns `l` into `r` by a wait that starts in `w`: the assertion holds in the
      wait exactly when it would have held as the callback began. */
  predicate WaitsFrom(l: Link, w: Link, r: Link) {
    MayWait(w) && r == WaitOnPlayers(w) && Elapsed(w) == Elapsed(l)
  }

  lemma ModeChangeWaits(l: Link, mode: Mode)
    requires AwakeWhenFree(l) && l.waiting == {} && l.p1.free > 0 && mode != l.p0.mode
    ensures WaitsFrom(l, Enqueue(NoteMode(l, 0, mode), Event(ModeSet(mode), Time(l.p0), 0), {1, 2, 3}).0,
                      SetMode(l, 0, mode))
  {
    SendToSecondary(NoteMode(l, 0, mode), Event(ModeSet(mode), Time(l.p0), 0));
    EnqueueKeepsClock(NoteMode(l, 0, mode), Event(ModeSet(mode), Time(l.p0), 0), {1, 2, 3});
  }

  lemma StartWaits(l: Link, sio: Serial, transferCycles: Cycle)
    requires AwakeWhenFree(l) && l.waiting == {} && l.p1.free > 0 && !l.transferActive
    ensures
      var l1 := SetData(l.(multiData := NO_WORDS), 0, sio);
      WaitsFrom(l, Activate(Enqueue(l1, StartEvent(l, transferCycles), {1, 2, 3}).0),
                Start(l, 0, sio, transferCycles).0)
  {
    var l1 := SetData(l.(multiData := NO_WORDS), 0, sio);
    SendToSecondary(l1, StartEvent(l, transferCycles));
    EnqueueKeepsClock(l1, StartEvent(l, transferCycles), {1, 2, 3});
  }

  lemma FinishWaits(l: Link, mode: Mode)
    requires AwakeWhenFree(l) && l.waiting == {} && l.p1.free > 0 && mode == l.transferMode && l.syncArmed
    ensures
      var l1 := Put(l, 0, l.p0.(dataReceived := false));
      WaitsFrom(l, Enqueue(l1, Event(HardSync, Time(l.p0), 0), {1, 2, 3}).0, Finish(l, 0, mode))
  {
    var l1 := Put(l, 0, l.p0.(dataReceived := false));
    SendToSecondary(l1, Event(HardSync, Time(l.p0), 0));
    EnqueueKeepsClock(l1, Event(HardSync, Time(l.p0), 0), {1, 2, 3});
  }

  /** The periodic callback advances the shared clock first, so its own hard sync always meets the assertion. */
  lemma HardSyncWaits(l: Link)
    requires Elapsed(l) >= 0
    ensures Elapsed(Enqueue(AdvanceCycle(l), Event(HardSync, Time(l.p0), 0), {1, 2, 3}).0) == 0
  {
    EnqueueKeepsClock(AdvanceCycle(l), Event(HardSync, Time(l.p0), 0), {1, 2, 3});
    DeltaOfSame(Time(l.p0));
  }

  // ---- The shared clock moves forward ----

  lemma HandleKeepsClock(l: Link, id: Side, e: Event, sio: Serial)
    ensures Handle(l, id, e, sio).cycle == l.cycle
  {
    var p := Get(l, id);
    match e.kind {
      case Attach => EnqueueKeepsClock(Put(l, id, SetReady(p, e.source, NoMode)), Reply(p, id), {e.source});
      case Detach =>
        EnqueueKeepsClock(Put(l, id, SetReady(SetReady(p, e.source, NoMode), id, p.mode)), Reply(p, id),
                          {0, 1} - {e.source});
      case _ =>
    }
  }

  lemma {:induction false} DrainKeepsClock(l: Link, id: Side, sio: Serial, cyclesLate: Word, next: Cycle,
                                           wasDetach: bool)
    ensures Drain(l, id, sio, cyclesLate, next, wasDetach).link.cycle == l.cycle
    decreases Weight(Get(l, id).queue)
  {
    if Due(Get(l, id)) {
      var e := Get(l, id).queue[0];
      var next' := if e.kind.TransferStart? then TransferDelay(l, id, e.kind.finishCycle, cyclesLate) else next;
      HandleKeepsClock(TakeHead(l, id), id, e, sio);
      DrainProgress(l, id, sio);
      DrainKeepsClock(DrainOne(l, id, sio), id, sio, cyclesLate, next', wasDetach || e.kind.Detach?);
    }
  }

  lemma HardSyncForward(l: Link)
    requires MayWait(l)
    ensures Forward(l, BeginHardSync(l))
  {
    EnqueueKeepsClock(l, Event(HardSync, Time(l.p0), 0), {1, 2, 3});
  }

  lemma OwnClockForward(l: Link)
    requires AwakeWhenFree(l)
    ensures Forward(l, OwnClock(l))
  {
    if Delta(Time(l.p0), l.cycle) >= 0 {
      var l1 := AdvanceCycle(l);
      var l2 := if l1.transferActive then l1 else WakeSecondary(l1);
      DeltaOfSame(Time(l.p0));
      if l2.waiting == {} {
        HardSyncForward(l2);
      }
    }
  }

  lemma SetModeForward(l: Link, id: Side, mode: Mode)
    requires AwakeWhenFree(l)
    ensures Forward(l, SetMode(l, id, mode))
  {
    var p1 := Get(l, id).(mode := mode);
    var l1 := Put(l, id, SetReady(p1, id, mode));
    var l2 := if id == 0 then l1.(transferMode := mode) else l1;
    EnqueueKeepsClock(l2, Event(ModeSet(mode), Time(p1), id), if id == 0 then {1, 2, 3} else {0, 2, 3});
  }

  lemma StartForward(l: Link, id: Side, sio: Serial, transferCycles: Cycle)
    requires AwakeWhenFree(l)
    ensures Forward(l, Start(l, id, sio, transferCycles).0)
  {
    var l1 := SetData(l.(multiData := Four(0xFFFF, 0xFFFF, 0xFFFF, 0xFFFF)), 0, sio);
    var timestamp := Time(l.p0);
    EnqueueKeepsClock(l1, Event(TransferStart(Add(timestamp, transferCycles)), timestamp, 0), {1, 2, 3});
  }

  lemma FinishForward(l: Link, id: Side, mode: Mode)
    requires AwakeWhenFree(l)
    ensures Forward(l, Finish(l, id, mode))
  {
    var l1 := Put(l, id, Get(l, id).(dataReceived := false));
    if l1.waiting == {} {
      HardSyncForward(l1);
    }
  }

  lemma CallbackForward(l: Link, id: Side, sio: Serial, cyclesLate: Word)
    requires AwakeWhenFree(l)
    ensures Forward(l, LockstepEvent(l, id, sio, cyclesLate))
  {
    var p := Get(l, id);
    var fired := Put(l, id, p.(timer := p.timer.(scheduled := false)));
    var owned := if id == 0 then OwnClock(fired) else fired;
    if id == 0 { OwnClockForward(fired); }
    DrainKeepsClock(owned, id, sio, cyclesLate, UntilNextSync(owned, id), p.queue != [] && p.queue[0].kind.Detach?);
  }

  lemma ApplyForward(l: Link, step: Step)
    requires AwakeWhenFree(l)
    ensures Forward(l, Apply(l, step))
  {
    match step {
      case Tick(_, _) =>
      case CallSetMode(id, mode) => SetModeForward(l, id, mode);
      case CallStart(id, sio, transferCycles) => StartForward(l, id, sio, transferCycles);
      case CallFinish(id, mode) => FinishForward(l, id, mode);
      case CallLockstepEvent(id, sio, cyclesLate) => CallbackForward(l, id, sio, cyclesLate);
      case CallReset(_) =>
    }
  }

  /** No callback in any run moves the shared clock back, and only ever to the primary's time. */
  lemma SharedClockForward(run: Run, step: Step)
    ensures Forward(State(run), State(Then(run, step)))
  {
    ApplySound(State(run), step);
    ApplyForward(State(run), step);
  }
}
