/** The link coordinator and its two players as objects that the driver callbacks update.

    Each player holds an eight-slot event buffer in order. The steps of a callback are proved to
    change the fields as the functions of module Lockstep change the corresponding value; the
    callbacks themselves keep `Valid`, which holds the invariant of every run. */
module LinkCoordinators {
  import opened Wrappers
  import opened Cycles
  import opened EventBuffers
  import L = Lockstep
  import S = LockstepState
  import Runs = LockstepRuns

  class LinkPlayer {
    var mode: L.Mode
    var otherModes: L.Four<L.Mode>
    var asleep: bool
    var cycleOffset: Cycle
    var dataReceived: bool
    var maxQueueDepth: nat
    var clock: Cycle
    var timer: L.Timer
    /** The scheduler's view of `asleep`, set by the sleep and wake callbacks. */
    var blocked: bool
    /** The event buffer: queue, free list and at most one slot in flight partition its eight slots. */
    var slots: Slots

    constructor (mode: L.Mode, clock: Cycle)
      ensures Valid() && View() == L.BlankPlayer().(mode := mode, clock := clock) && slots.flying == []
    {
      this.mode, this.clock := mode, clock;
      otherModes := L.Four(L.Normal8, L.Normal8, L.Normal8, L.Normal8);
      asleep, blocked, dataReceived := false, false, false;
      cycleOffset, maxQueueDepth, timer := 0, 0, L.Timer(false, 0);
      var empty := EmptySlots();
      slots := empty;
    }

    ghost predicate Valid()
      reads this
    {
      blocked == asleep
    }

    ghost function View(): L.Player
      reads this
    {
      L.Player(mode, otherModes, asleep, cycleOffset, dataReceived, slots.contents, |slots.free|, slots.depth,
               maxQueueDepth, clock, timer)
    }

    function Time(): Cycle
      reads this
    {
      Delta(clock, cycleOffset)
    }

    method Sleep()
      requires Valid()
      modifies this`asleep, this`blocked
      ensures Valid() && View() == old(View()).(asleep := true)
    {
      if asleep { return; }
      asleep := true;
      blocked := true;
    }

    method Wake()
      requires Valid()
      modifies this`asleep, this`blocked
      ensures Valid() && View() == old(View()).(asleep := false)
    {
      if !asleep { return; }
      asleep := false;
      blocked := false;
    }

    method RescheduleForQueueHead()
      modifies this`timer
      ensures timer == L.TimerForQueueHead(old(timer), slots.contents, clock, Time())
    {
      if !HasEvent(slots) || !timer.scheduled { return; }
      var scheduledDelay := Delta(timer.when, clock);
      if scheduledDelay <= 0 { return; }
      var queuedDelay := Sanitize(Delta(FirstEvent(slots).timestamp, Time()));
      if queuedDelay >= scheduledDelay { return; }
      timer := L.Schedule(clock, queuedDelay);
    }

    /** Queues one event for this player, if a slot is free. */
    method Receive(e: L.Event) returns (ok: bool)
      requires Valid()
      modifies this
      ensures Valid() && ok == (|old(slots.free)| > 0) && slots.flying == old(slots.flying)
      ensures View() == if ok then L.Receive(old(View()), e) else old(View())
    {
      ok, slots := Enqueue(slots, e);
      if ok {
        maxQueueDepth := Max(maxQueueDepth, slots.depth);
        RescheduleForQueueHead();
      }
    }

    method LoadFields(f: S.Flags, offset: Cycle)
      requires Valid()
      modifies this
      ensures Valid() && View() == S.LoadFields(old(View()), f, offset) && slots == old(slots)
    {
      cycleOffset, dataReceived := offset, f.dataReceived;
      mode := S.IntToMode(f.driverMode);
      otherModes := L.Four(S.IntToMode(f.mode0), S.IntToMode(f.mode1), S.IntToMode(f.mode2), S.IntToMode(f.mode3));
      if f.asleep { Sleep(); } else { Wake(); }
    }

    /** Rebuilds the event buffer and moves the wake to its first event. */
    method LoadQueue(queue: seq<L.Event>)
      requires Valid() && |queue| <= L.CAPACITY
      modifies this
      ensures Valid() && View() == S.LoadQueue(old(View()), queue) && slots.flying == []
    {
      slots := LoadSlots(queue);
      maxQueueDepth := slots.depth;
      RescheduleForQueueHead();
    }

    /** The player's part of a saved state. */
    method LoadState(w: S.Wire)
      requires Valid() && S.WellSized(w) && S.EventsValid(w)
      modifies this
      ensures Valid() && View() == S.LoadPlayer(old(View()), w) && slots.flying == []
    {
      var f := S.Unpack(w.flags);
      LoadFields(f, FromBits(w.cycleOffset));
      timer := if f.eventScheduled then L.Schedule(clock, Sanitize(FromBits(w.nextEvent)))
      else timer.(scheduled := false);
      LoadQueue(S.LoadEvents(w));
    }
  }

  class LinkCoordinator {
    const p0: LinkPlayer
    const p1: LinkPlayer
    var waiting: set<int>
    var transferActive: bool
    var syncArmed: bool
    var transferMode: L.Mode
    var cycle: Cycle
    var nextHardSync: Cycle
    var maxQueueDepth: nat
    var droppedEvents: nat
    var multiData: L.Four<Half>
    var normalData: L.Four<Word>

    /** Attaches two machines to a fresh coordinator. */
    constructor (clock0: Cycle, clock1: Cycle, mode0: L.Mode, mode1: L.Mode)
      ensures Valid() && fresh(p0) && fresh(p1) && View() == L.Attached(clock0, clock1, mode0, mode1)
    {
      p0 := new LinkPlayer(mode0, clock0);
      p1 := new LinkPlayer(mode1, clock1);
      waiting, transferActive, syncArmed := {}, false, false;
      transferMode, cycle, nextHardSync := mode0, clock0, L.HARD_SYNC_INTERVAL;
      maxQueueDepth, droppedEvents := 0, 0;
      multiData, normalData := L.Four(0, 0, 0, 0), L.Four(0, 0, 0, 0);
      new;
      p0.otherModes := L.With(p0.otherModes, 0, mode0);
      p0.timer := L.Schedule(clock0, L.LOCKSTEP_INTERVAL);
      p1.cycleOffset := Delta(clock1, cycle);
      AttachSecondary();
      Runs.FreshSound(clock0, clock1, mode0, mode1);
    }

    /** The secondary announces itself to the primary and schedules its first wake. */
    method AttachSecondary()
      requires Linked()
      modifies this, p0, p1
      ensures Linked() && View() == L.AttachSecondary(old(View()))
      ensures Flights() == old(Flights())
    {
      var attached := EnqueueEvent(L.Event(L.Attach, p1.Time(), 1), {0, 2, 3});
      SetReady(1, 1, p1.mode);
      SetReady(1, 0, transferMode);
      p1.timer := L.Schedule(p1.clock, L.UNLOCKED_INTERVAL);
    }

    ghost predicate Linked()
      reads p0, p1
    {
      p0 != p1 && p0.Valid() && p1.Valid()
    }

    /** The slots in flight, which are none between callbacks. */
    ghost function Flights(): (seq<int>, seq<int>)
      reads p0, p1
    {
      (p0.slots.flying, p1.slots.flying)
    }

    /** Between callbacks no slot is in flight, so in both buffers queue and free list partition the
        eight slots, and the invariant of every run holds: barrier, sleep flags and queues agree. */
    ghost predicate Valid()
      reads this, p0, p1
    {
      Linked() && Flights() == ([], []) && Runs.Sound(View()) && L.AwakeWhenFree(View())
    }

    ghost function View(): L.Link
      reads this, p0, p1
    {
      L.Link(p0.View(), p1.View(), waiting, transferActive, syncArmed, transferMode, cycle, nextHardSync,
             maxQueueDepth, droppedEvents, multiData, normalData)
    }

    function Sel(id: L.Side): LinkPlayer {
      if id == 0 then p0 else p1
    }

    /** Queues an event for one player, or counts it as dropped. */
    method Deliver(id: L.Side, e: L.Event) returns (ok: bool)
      requires Linked()
      modifies this, p0, p1
      ensures Linked() && (View(), ok) == L.Deliver(old(View()), id, e)
      ensures Flights() == old(Flights())
    {
      var p := Sel(id);
      var depth := p.maxQueueDepth;
      ok := p.Receive(e);
      if !ok {
        droppedEvents := droppedEvents + 1;
      } else if p.slots.depth > depth {
        maxQueueDepth := Max(maxQueueDepth, p.slots.depth);
      }
    }

    method EnqueueEvent(e: L.Event, target: set<int>) returns (success: bool)
      requires Linked()
      modifies this, p0, p1
      ensures Linked() && (View(), success) == L.Enqueue(old(View()), e, target)
      ensures Flights() == old(Flights())
    {
      success := true;
      if 0 in target {
        success := Deliver(0, e);
      }
      if 1 in target {
        var ok := Deliver(1, e);
        success := success && ok;
      }
    }

    method SetReady(id: L.Side, of: L.PlayerId, mode: L.Mode)
      requires Linked()
      modifies Sel(id)`otherModes
      ensures Linked() && View() == L.Put(old(View()), id, L.SetReady(L.Get(old(View()), id), of, mode))
      ensures Flights() == old(Flights())
    {
      Sel(id).otherModes := L.With(Sel(id).otherModes, of, mode);
    }

    method SetData(id: L.Side, sio: L.Serial)
      requires Linked()
      modifies this
      ensures Linked() && View() == L.SetData(old(View()), id, sio)
      ensures Flights() == old(Flights())
    {
      match transferMode {
        case Multi => multiData := L.With(multiData, id, sio.multiSend);
        case Normal8 => normalData := L.With(normalData, id, sio.data8);
        case Normal32 => normalData := L.With(normalData, id, sio.data32);
        case _ =>
      }
    }

    method AdvanceCycle()
      requires Linked()
      modifies this
      ensures Linked() && View() == L.AdvanceCycle(old(View()))
      ensures Flights() == old(Flights())
    {
      var newCycle := p0.Time();
      var elapsed := Delta(newCycle, cycle);
      if elapsed < 0 { return; }
      nextHardSync := AddSaturated(nextHardSync, -elapsed);
      cycle := newCycle;
    }

    /** The primary sleeps until the secondary acknowledges. */
    method WaitOnPlayers()
      requires Linked() && L.MayWait(View())
      modifies this, p0, p1
      ensures Linked() && View() == L.WaitOnPlayers(old(View()))
      ensures Flights() == old(Flights())
    {
      AdvanceCycle();
      waiting := {1};
      p0.Sleep();
      p1.Wake();
    }

    method AckPlayer(id: L.Side)
      requires Linked()
      modifies this, p0, p1
      ensures Linked() && View() == L.Ack(old(View()), id)
      ensures Flights() == old(Flights())
    {
      if id == 0 || id !in waiting { return; }
      waiting := waiting - {id};
      if waiting == {} {
        if transferActive {
          p0.dataReceived := true;
          p1.dataReceived := true;
          transferActive := false;
        }
        p0.Wake();
      }
      Sel(id).Sleep();
    }

    method BeginHardSync()
      requires Linked() && L.MayWait(View())
      modifies this, p0, p1
      ensures Linked() && View() == L.BeginHardSync(old(View()))
      ensures Flights() == old(Flights())
    {
      var queued := EnqueueEvent(L.Event(L.HardSync, p0.Time(), 0), {1, 2, 3});
      if queued { WaitOnPlayers(); }
    }

    /** Records a mode change and makes the event that announces it. */
    method NoteMode(id: L.Side, mode: L.Mode) returns (event: L.Event)
      requires Linked()
      modifies this`transferMode, Sel(id)`mode, Sel(id)`otherModes
      ensures Linked() && View() == L.NoteMode(old(View()), id, mode)
      ensures event == L.Event(L.ModeSet(mode), old(Sel(id).Time()), id)
      ensures Flights() == old(Flights())
    {
      var p := Sel(id);
      p.mode := mode;
      event := L.Event(L.ModeSet(mode), p.Time(), id);
      if id == 0 {
        transferMode := mode;
      }
      SetReady(id, id, mode);
    }

    method ChangeMode(id: L.Side, mode: L.Mode)
      requires Linked() && L.AwakeWhenFree(View())
      modifies this, p0, p1
      ensures Linked() && View() == L.SetMode(old(View()), id, mode)
      ensures Flights() == old(Flights())
    {
      if mode == Sel(id).mode { return; }
      var waitOnPlayers := id == 0 && waiting == {};
      var event := NoteMode(id, mode);
      var queued := EnqueueEvent(event, if id == 0 then {1, 2, 3} else {0, 2, 3});
      if waitOnPlayers && queued { WaitOnPlayers(); }
    }

    method StartTransfer(id: L.Side, sio: L.Serial, transferCycles: Cycle) returns (started: bool)
      requires Linked() && L.AwakeWhenFree(View())
      modifies this, p0, p1
      ensures Linked() && (View(), started) == L.Start(old(View()), id, sio, transferCycles)
      ensures Flights() == old(Flights())
    {
      if transferActive || id != 0 { return false; }
      multiData := L.Four(0xFFFF, 0xFFFF, 0xFFFF, 0xFFFF);
      SetData(0, sio);
      var timestamp := p0.Time();
      var queued := EnqueueEvent(L.Event(L.TransferStart(Add(timestamp, transferCycles)), timestamp, 0), {1, 2, 3});
      if !queued { return false; }
      BeginTransfer();
      return true;
    }

    /** Marks the transfer active and waits for it, unless a barrier is pending already. */
    method BeginTransfer()
      requires Linked() && L.AwakeWhenFree(View())
      modifies this, p0, p1
      ensures Linked() && View() == L.BeginTransfer(old(View()))
      ensures Flights() == old(Flights())
    {
      transferActive := true;
      if p0.mode == L.Multi && !syncArmed {
        syncArmed := true;
        nextHardSync := L.HARD_SYNC_INTERVAL;
      }
      if waiting == {} { WaitOnPlayers(); }
    }

    method FinishTransfer(id: L.Side, mode: L.Mode)
      requires Linked() && L.AwakeWhenFree(View())
      modifies this, p0, p1
      ensures Linked() && View() == L.Finish(old(View()), id, mode)
      ensures Flights() == old(Flights())
    {
      if transferMode != mode { return; }
      Sel(id).dataReceived := false;
      if id == 0 && syncArmed {
        if waiting != {} {
          nextHardSync := -1;
        } else {
          BeginHardSync();
        }
      }
    }

    function UntilNextSync(id: L.Side): Cycle
      reads this, p0, p1
    {
      if !syncArmed then L.UNLOCKED_INTERVAL else
      var until := Delta(cycle, Sel(id).Time());
      if id == 0 then AddSaturated(until, L.LOCKSTEP_INTERVAL) else until
    }

    method OwnClock()
      requires Linked() && L.AwakeWhenFree(View())
      modifies this, p0, p1
      ensures Linked() && View() == L.OwnClock(old(View()))
      ensures Flights() == old(Flights())
    {
      if Delta(p0.Time(), cycle) < 0 { return; }
      AdvanceCycle();
      if !transferActive { p1.Wake(); }
      if syncArmed && nextHardSync < 0 {
        if waiting == {} { BeginHardSync(); }
        nextHardSync := AddSaturated(nextHardSync, L.HARD_SYNC_INTERVAL);
      }
    }

    /** Reacts to an event that has left the queue of `id`. */
    method Handle(id: L.Side, e: L.Event, sio: L.Serial)
      requires Linked()
      modifies this, p0, p1
      ensures Linked() && View() == L.Handle(old(View()), id, e, sio)
      ensures Flights() == old(Flights())
    {
      var p := Sel(id);
      var reply := L.Event(L.ModeSet(p.mode), p.Time(), id);
      match e.kind {
        case Attach =>
          SetReady(id, e.source, L.NoMode);
          var sent := EnqueueEvent(reply, {e.source});
        case HardSync =>
          AckPlayer(id);
        case TransferStart(_) =>
          SetData(id, sio);
          AckPlayer(id);
        case ModeSet(mode) =>
          SetReady(id, e.source, mode);
          if e.source == 0 { AckPlayer(id); }
        case Detach =>
          SetReady(id, e.source, L.NoMode);
          SetReady(id, id, p.mode);
          var sent := EnqueueEvent(reply, {0, 1} - {e.source});
      }
    }

    method TakeFirst(id: L.Side) returns (slot: int, e: L.Event)
      requires Linked() && Flights() == ([], []) && Sel(id).slots.contents != []
      modifies Sel(id)
      ensures Linked() && e == old(Sel(id).slots.contents)[0] && View() == L.TakeHead(old(View()), id)
      ensures Flights() == if id == 0 then ([slot], []) else ([], [slot])
    {
      slot, e, Sel(id).slots := TakeHead(Sel(id).slots);
    }

    method ReleaseSlot(id: L.Side, slot: int)
      requires Linked() && Flights() == if id == 0 then ([slot], []) else ([], [slot])
      modifies Sel(id)
      ensures Linked() && View() == L.Release(old(View()), id) && Flights() == ([], [])
    {
      Sel(id).slots := Release(Sel(id).slots, slot);
    }

    /** Takes, handles and releases the first event of `id`; meanwhile its slot is in flight. */
    method DrainOne(id: L.Side, sio: L.Serial)
      requires Linked() && Flights() == ([], []) && L.Due(L.Get(View(), id))
      modifies this, p0, p1
      ensures Linked() && Flights() == ([], []) && View() == L.DrainOne(old(View()), id, sio)
    {
      var slot, e := TakeFirst(id);
      Handle(id, e, sio);
      ReleaseSlot(id, slot);
    }

    /** The drain loop. It ends although handling an attach or a detach may refill the queue. */
    method DrainQueue(id: L.Side, sio: L.Serial, cyclesLate: Word, untilNext: Cycle, headDetach: bool)
      returns (nextEvent: Cycle, wasDetach: bool)
      requires Linked() && Flights() == ([], [])
      modifies this, p0, p1
      ensures Linked() && Flights() == ([], [])
      ensures L.Drained(View(), nextEvent, wasDetach)
           == L.Drain(old(View()), id, sio, cyclesLate, untilNext, headDetach)
    {
      nextEvent, wasDetach := untilNext, headDetach;
      while HasEvent(Sel(id).slots) && Delta(FirstEvent(Sel(id).slots).timestamp, Sel(id).Time()) <= 0
        invariant Linked() && Flights() == ([], [])
        invariant L.Drain(View(), id, sio, cyclesLate, nextEvent, wasDetach)
               == L.Drain(old(View()), id, sio, cyclesLate, untilNext, headDetach)
        decreases L.Weight(Sel(id).slots.contents)
      {
        var e := FirstEvent(Sel(id).slots);
        L.DrainProgress(View(), id, sio);
        if e.kind.TransferStart? {
          nextEvent := Sanitize(AfterLateness(Delta(e.kind.finishCycle, Sel(id).Time()), cyclesLate));
        }
        wasDetach := wasDetach || e.kind.Detach?;
        DrainOne(id, sio);
      }
    }

    /** The part of the periodic callback before its drain loop. */
    method BeginEvent(id: L.Side) returns (untilNext: Cycle, headDetach: bool)
      requires Linked() && L.AwakeWhenFree(View())
      modifies this, p0, p1
      ensures Linked() && View() == L.Fired(old(View()), id) && untilNext == L.UntilNextSync(View(), id)
      ensures headDetach == (old(Sel(id).slots.contents) != [] && old(Sel(id).slots.contents)[0].kind.Detach?)
      ensures Flights() == old(Flights())
    {
      var p := Sel(id);
      headDetach := HasEvent(p.slots) && FirstEvent(p.slots).kind.Detach?;
      p.timer := p.timer.(scheduled := false);
      if id == 0 { OwnClock(); }
      untilNext := UntilNextSync(id);
    }

    /** The periodic callback of one player. */
    method RunCallback(id: L.Side, sio: L.Serial, cyclesLate: Word)
      requires Linked() && Flights() == ([], []) && L.AwakeWhenFree(View())
      modifies this, p0, p1
      ensures Linked() && Flights() == ([], []) && View() == L.LockstepEvent(old(View()), id, sio, cyclesLate)
    {
      var untilNext, headDetach := BeginEvent(id);
      var nextEvent, wasDetach := DrainQueue(id, sio, cyclesLate, untilNext, headDetach);
      FinishEvent(id, nextEvent, wasDetach);
    }

    /** The tail of the callback: maybe sleep, always schedule the next wake. */
    method FinishEvent(id: L.Side, untilNext: Cycle, wasDetach: bool)
      requires Linked()
      modifies Sel(id)
      ensures Linked() && View() == L.Reschedule(L.Drained(old(View()), untilNext, wasDetach), id)
      ensures Flights() == old(Flights())
    {
      var p := Sel(id);
      var nextEvent := untilNext;
      if HasEvent(p.slots) {
        var queuedDelay := Delta(FirstEvent(p.slots).timestamp, p.Time());
        if queuedDelay < nextEvent { nextEvent := queuedDelay; }
      }
      if syncArmed && id != 0 && nextEvent <= L.LOCKSTEP_INTERVAL && (!HasEvent(p.slots) || wasDetach) {
        p.Sleep();
        if nextEvent < 4 { nextEvent := 4; }
      }
      p.timer := L.Schedule(p.clock, Sanitize(nextEvent));
    }

    method ResetPlayer(id: L.Side)
      requires Linked()
      modifies this, Sel(id)
      ensures Linked() && View() == L.Reset(old(View()), id)
      ensures Flights() == old(Flights())
    {
      syncArmed := false;
      var p := Sel(id);
      p.cycleOffset := Delta(p.clock, cycle);
      if p.timer.scheduled { return; }
      SetReady(id, id, p.mode);
      SetReady(id, 0, transferMode);
      p.timer := L.Schedule(p.clock, Sanitize(UntilNextSync(id)));
    }

    // ---- The driver callbacks ----

    /** The machine's clock moved. */
    method Tick(id: L.Side, clock: Cycle)
      requires Valid()
      modifies this, p0, p1
      ensures Valid() && View() == L.Put(old(View()), id, L.Get(old(View()), id).(clock := clock))
    {
      ghost var l := View();
      Runs.ApplySound(l, Runs.Tick(id, clock));
      Sel(id).clock := clock;
    }

    method SetMode(id: L.Side, mode: L.Mode)
      requires Valid()
      modifies this, p0, p1
      ensures Valid() && View() == L.SetMode(old(View()), id, mode)
    {
      ghost var l := View();
      Runs.ApplySound(l, Runs.CallSetMode(id, mode));
      ChangeMode(id, mode);
    }

    method Start(id: L.Side, sio: L.Serial, transferCycles: Cycle) returns (started: bool)
      requires Valid()
      modifies this, p0, p1
      ensures Valid() && (View(), started) == L.Start(old(View()), id, sio, transferCycles)
    {
      ghost var l := View();
      Runs.ApplySound(l, Runs.CallStart(id, sio, transferCycles));
      started := StartTransfer(id, sio, transferCycles);
    }

    method Finish(id: L.Side, mode: L.Mode)
      requires Valid()
      modifies this, p0, p1
      ensures Valid() && View() == L.Finish(old(View()), id, mode)
    {
      ghost var l := View();
      Runs.ApplySound(l, Runs.CallFinish(id, mode));
      FinishTransfer(id, mode);
    }

    method LockstepEvent(id: L.Side, sio: L.Serial, cyclesLate: Word)
      requires Valid()
      modifies this, p0, p1
      ensures Valid() && View() == L.LockstepEvent(old(View()), id, sio, cyclesLate)
    {
      ghost var l := View();
      Runs.ApplySound(l, Runs.CallLockstepEvent(id, sio, cyclesLate));
      RunCallback(id, sio, cyclesLate);
    }

    method Reset(id: L.Side)
      requires Valid()
      modifies this, p0, p1
      ensures Valid() && View() == L.Reset(old(View()), id)
    {
      ghost var l := View();
      Runs.ApplySound(l, Runs.CallReset(id));
      ResetPlayer(id);
    }

    /** Any of the callbacks. */
    method Perform(step: Runs.Step)
      requires Valid()
      modifies this, p0, p1
      ensures Valid() && View() == Runs.Apply(old(View()), step)
    {
      match step {
        case Tick(id, clock) => Tick(id, clock);
        case CallSetMode(id, mode) => SetMode(id, mode);
        case CallStart(id, sio, transferCycles) => var started := Start(id, sio, transferCycles);
        case CallFinish(id, mode) => Finish(id, mode);
        case CallLockstepEvent(id, sio, cyclesLate) => LockstepEvent(id, sio, cyclesLate);
        case CallReset(id) => Reset(id);
      }
    }

    // ---- Saved states ----

    /** The state of one driver, its queue collected by walking the slots. */
    method SaveDriver(id: L.Side) returns (w: S.Wire)
      requires Linked() && |L.Get(View(), id).queue| <= L.CAPACITY
      ensures w == S.Save(View(), id)
    {
      var p := Sel(id);
      var queue := QueuedEvents(p.slots);
      var m := p.otherModes;
      var flags := S.Flags(S.ModeToInt(p.mode), |queue|, p.asleep, p.dataReceived, p.timer.scheduled,
                           S.ModeToInt(m.at0), S.ModeToInt(m.at1), S.ModeToInt(m.at2), S.ModeToInt(m.at3),
                           id == 0 && syncArmed, 0, if id == 0 then S.ModeToInt(transferMode) else 0,
                           id == 0 && transferActive);
      var shared := S.WireCoordinator(0, 0, 0, S.Zeros(3), L.Four(0, 0, 0, 0), L.Four(0, 0, 0, 0));
      if id == 0 {
        shared := S.WireCoordinator(ToBits(cycle), S.MaskOf(waiting), ToBits(nextHardSync), S.Zeros(3),
                                    multiData, normalData);
      }
      w := S.Wire(S.VERSION, S.Pack(flags), S.Zeros(2), ToBits(Delta(p.timer.when, p.clock)), S.Zeros(7),
                  id, ToBits(p.cycleOffset), S.Zeros(2), S.SaveEvents(queue), shared);
    }

    method LoadShared(f: S.Flags, w: S.WireCoordinator)
      requires Linked()
      modifies this
      ensures Linked() && View() == S.LoadShared(old(View()), f, w)
    {
      cycle, waiting, nextHardSync := FromBits(w.cycle), S.SetOf(w.waiting), FromBits(w.nextHardSync);
      multiData, normalData := w.multiData, w.normalData;
      transferMode := S.IntToMode(f.transferMode);
      transferActive, syncArmed := f.transferActive, f.syncArmed;
    }

    /** Loads the state of one driver; the primary's also holds the coordinator. */
    method LoadDriver(id: L.Side, w: S.Wire) returns (ok: bool)
      requires Linked() && S.WellSized(w) && Flights() == ([], [])
      modifies this, p0, p1
      ensures Linked() && (View(), ok) == S.Load(old(View()), id, w) && Flights() == ([], [])
    {
      if !S.Validate(id, w) { return false; }
      var f := S.Unpack(w.flags);
      Sel(id).LoadState(w);
      maxQueueDepth := Max(maxQueueDepth, f.numEvents);
      if id == 0 { LoadShared(f, w.coordinator); }
      return true;
    }

    /** Loads both drivers, the secondary first, if both states are valid. */
    method LoadStates(w0: S.Wire, w1: S.Wire) returns (ok: bool)
      requires Linked() && S.WellSized(w0) && S.WellSized(w1) && Flights() == ([], [])
      modifies this, p0, p1
      ensures Linked() && (View(), ok) == S.LoadPair(old(View()), w0, w1) && Flights() == ([], [])
    {
      if !S.Validate(0, w0) || !S.Validate(1, w1) { return false; }
      var second := LoadDriver(1, w1);
      var first := LoadDriver(0, w0);
      return true;
    }

    method MoveClocks(clock0: Cycle, clock1: Cycle)
      requires Linked()
      modifies p0`clock, p1`clock
      ensures Linked() && View() == Runs.MoveClocks(old(View()), clock0, clock1) && Flights() == old(Flights())
    {
      p0.clock, p1.clock := clock0, clock1;
    }

    /** Restores the state another pair saved, at other clocks. */
    method CopyFrom(from: LinkCoordinator, clock0: Cycle, clock1: Cycle)
      requires Valid() && from.Valid() && Apart(this, from)
      modifies this, p0, p1
      ensures Valid() && View() == Runs.Copied(from.View(), old(View()), clock0, clock1)
    {
      ghost var saved, current := from.View(), View();
      Runs.CopiedSound(saved, current, clock0, clock1);
      var w0 := from.SaveDriver(0);
      var w1 := from.SaveDriver(1);
      MoveClocks(clock0, clock1);
      var ok := LoadStates(w0, w1);
    }
  }

  /** The two pairs share no object. */
  ghost predicate Apart(c: LinkCoordinator, d: LinkCoordinator) {
    c != d && c.p0 != d.p0 && c.p0 != d.p1 && c.p1 != d.p0 && c.p1 != d.p1
  }

  method Advance(c: LinkCoordinator, ghost before: Runs.Run, step: Runs.Step)
    requires c.Valid() && c.View() == Runs.State(before)
    modifies c, c.p0, c.p1
    ensures c.Valid() && c.View() == Runs.State(Runs.Then(before, step))
  {
    ghost var l, r := Runs.NextState(before, step);
    c.Perform(step);
  }

  method Restore(c: LinkCoordinator, from: LinkCoordinator, ghost before: Runs.Run, ghost saved: Runs.Run,
                 clock0: Cycle, clock1: Cycle)
    requires c.Valid() && from.Valid() && Apart(c, from)
    requires c.View() == Runs.State(before) && from.View() == Runs.State(saved)
    modifies c, c.p0, c.p1
    ensures c.Valid() && c.View() == Runs.State(Runs.Restored(before, saved, clock0, clock1))
  {
    Runs.StateRestored(before, saved, clock0, clock1);
    c.CopyFrom(from, clock0, clock1);
  }

  /** In both buffers queue and free list partition the eight slots. */
  ghost predicate SlotsPartitioned(c: LinkCoordinator)
    reads c.p0, c.p1
  {
    Sound(c.p0.slots) && c.p0.slots.flying == [] && Sound(c.p1.slots) && c.p1.slots.flying == []
  }

  lemma ValidPartitioned(c: LinkCoordinator)
    requires c.Valid()
    ensures SlotsPartitioned(c)
  {
    SoundSlotBySlot(c.p0.slots);
    SoundSlotBySlot(c.p1.slots);
  }

  /** Objects for every run: after any callbacks in any order and any restores of saved states the
      objects are where the run is, no slot is in flight, in both buffers queue and free list
      partition the eight slots, and the link invariant holds. */
  method RunLink(run: Runs.Run) returns (c: LinkCoordinator)
    ensures fresh(c) && fresh(c.p0) && fresh(c.p1)
    ensures c.Valid() && c.View() == Runs.State(run)
    ensures SlotsPartitioned(c)
    decreases run, 0
  {
    match run {
      case Fresh(clock0, clock1, mode0, mode1) =>
        c := new LinkCoordinator(clock0, clock1, mode0, mode1);
      case Then(before, step) =>
        c := RunLink(before);
        Advance(c, before, step);
      case Restored(before, saved, clock0, clock1) =>
        c := RunLink(before);
        var from := AlsoRun(c, before, saved);
        Restore(c, from, before, saved, clock0, clock1);
    }
    ValidPartitioned(c);
  }

  /** A second pair beside one that stays as it is. */
  method AlsoRun(c: LinkCoordinator, ghost before: Runs.Run, saved: Runs.Run) returns (from: LinkCoordinator)
    requires c.Valid() && c.View() == Runs.State(before)
    ensures c.Valid() && c.View() == Runs.State(before)
    ensures from.Valid() && from.View() == Runs.State(saved)
    ensures fresh(from) && fresh(from.p0) && fresh(from.p1)
    decreases saved, 1
  {
    from := RunLink(saved);
  }
}
