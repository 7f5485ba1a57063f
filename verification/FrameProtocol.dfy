/** The two-worker frame protocol of the Nintendo DS pair, as every interleaving of one caller
    and two workers. A section under the frame mutex, or a wait that ends, is one step. */
module FrameProtocol {

  datatype FrameState = Idle | Running | DeadlineExceeded | Poisoned | ShuttingDown

  /** Where a worker is: waiting for a generation, held by the debug hook, running its machine,
      about to report, or gone. */
  datatype WorkerPc = Waiting | Held | Executing | Reporting | Exited

  /** `observed` is the last generation taken, `executed` every generation run so far, and
      `success` the verdict of the last run. */
  datatype Worker = Worker(pc: WorkerPc, observed: nat, executed: seq<nat>, success: bool)

  /** Where the caller is: outside the frame function, past the state check, waiting with a
      deadline, waiting without one, running an OpenGL frame, or joining the workers. */
  datatype CallerPc = Outside | Checked | Dispatched | Overdue | OpenGlFrame | Joining | Destroyed

  datatype Machine = Machine(active: bool, reported: bool, hold: bool, held: bool, worker: Worker)

  datatype State = State(
    frame: FrameState, generation: nat, completed: nat, abort: bool,
    m0: Machine, m1: Machine,
    caller: CallerPc, returned: bool, dispatches: nat)

  const NO_WORK: Worker := Worker(Waiting, 0, [], true)
  const QUIET: Machine := Machine(false, true, false, false, NO_WORK)
  const START: State := State(Idle, 0, 0, false, QUIET, QUIET, Outside, true, 0)

  datatype Step =
    | CheckIdle
    | RefuseFrame
    | Dispatch
    | DeadlinePasses
    | Complete
    | BeginOpenGl
    | EndOpenGl(success: bool)
    | Poison
    | DebugHold(second: bool)
    | DebugRelease(second: bool)
    | Shutdown
    | Join
    | Wake(second: bool)
    | Resume(second: bool)
    | Execute(second: bool, success: bool)
    | Report(second: bool)

  function Get(s: State, second: bool): Machine {
    if second then s.m1 else s.m0
  }

  function Set(s: State, second: bool, m: Machine): State {
    s.(m0 := if second then s.m0 else m, m1 := if second then m else s.m1)
  }

  predicate Enabled(s: State, step: Step) {
    match step
    case CheckIdle => s.caller == Outside && s.frame == Idle
    case RefuseFrame => s.caller == Checked || (s.caller == Outside && s.frame != Idle)
    case Dispatch => s.caller == Checked
    case DeadlinePasses => s.caller == Dispatched && s.completed != 2
    case Complete => (s.caller == Dispatched || s.caller == Overdue) && s.completed == 2
    case BeginOpenGl => s.caller == Checked
    case EndOpenGl(_) => s.caller == OpenGlFrame
    case Poison => s.caller == Outside && s.frame == Idle
    case DebugHold(second) => s.frame == Idle && !Get(s, second).hold && !Get(s, second).held
    case DebugRelease(_) => true
    case Shutdown => s.caller == Outside
    case Join => s.caller == Joining && s.m0.worker.pc == Exited && s.m1.worker.pc == Exited
    case Wake(second) =>
      var w := Get(s, second).worker;
      w.pc == Waiting && (s.frame == ShuttingDown || s.generation > w.observed)
    case Resume(second) => Get(s, second).worker.pc == Held && (s.frame == ShuttingDown || !Get(s, second).held)
    case Execute(second, _) => Get(s, second).worker.pc == Executing
    case Report(second) => Get(s, second).worker.pc == Reporting
  }

  /** A worker leaves its wait for a new generation. */
  function Woken(m: Machine, frame: FrameState, generation: nat): Machine {
    if frame == ShuttingDown then m.(worker := m.worker.(pc := Exited))
    else m.(hold := false, held := m.held || m.hold,
                                   worker := m.worker.(observed := generation, pc := if m.hold then Held
                                   else Executing))
  }

  function Armed(m: Machine): Machine {
    m.(active := true, reported := true)
  }

  function Next(s: State, step: Step): State
    requires Enabled(s, step)
  {
    match step
    case CheckIdle => s.(caller := Checked)
    case RefuseFrame => s.(caller := Outside, returned := false)
    case Dispatch =>
      s.(completed := 0, abort := false, m0 := Armed(s.m0), m1 := Armed(s.m1), frame := Running,
      generation := s.generation + 1, caller := Dispatched, dispatches := s.dispatches + 1)
    case DeadlinePasses => s.(frame := DeadlineExceeded, abort := true, caller := Overdue)
    case Complete =>
      s.(frame := if s.caller == Overdue then Poisoned else Idle, caller := Outside,
      returned := s.caller == Dispatched && s.m0.reported && s.m1.reported)
    case BeginOpenGl => s.(abort := false, frame := Running, caller := OpenGlFrame)
    case EndOpenGl(success) =>
      s.(frame := if success then Idle else Poisoned, abort := !success, caller := Outside, returned := success)
    case Poison => s.(frame := Poisoned, abort := true)
    case DebugHold(second) => Set(s, second, Get(s, second).(hold := true))
    case DebugRelease(second) => Set(s, second, Get(s, second).(hold := false, held := false))
    case Shutdown =>
      s.(frame := ShuttingDown, abort := true, caller := Joining,
      generation := if s.frame == ShuttingDown then s.generation else s.generation + 1)
    case Join => s.(caller := Destroyed)
    case Wake(second) => Set(s, second, Woken(Get(s, second), s.frame, s.generation))
    case Resume(second) =>
      var m := Get(s, second);
      Set(s, second, m.(worker := m.worker.(pc := if s.frame == ShuttingDown then Exited else Executing)))
    case Execute(second, success) =>
      var m := Get(s, second);
      var w := m.worker;
      Set(s, second, m.(active := false,
          worker := Worker(Reporting, w.observed, w.executed + [w.observed], success)))
    case Report(second) =>
      var m := Get(s, second);
      Set(s, second, m.(reported := m.worker.success, worker := m.worker.(pc := Waiting)))
      .(completed := s.completed + 1)
  }

  // ---- The invariant ----

  predicate InFrame(c: CallerPc) {
    c == Dispatched || c == Overdue
  }

  predicate Finished(s: State, m: Machine) {
    m.worker.pc == Waiting && m.worker.observed == s.generation
  }

  predicate Busy(m: Machine) {
    m.worker.pc == Held || m.worker.pc == Executing || m.worker.pc == Reporting
  }

  /** Exactly the generations 1, 2, ..., n in order. */
  predicate CountsTo(executed: seq<nat>, n: int) {
    |executed| == n && forall i :: 0 <= i < n ==> executed[i] == i + 1
  }

  /** A worker has executed every generation it took, once and in order, except one it is about
      to execute; and it reported the verdict of its last run. */
  predicate WorkerInv(m: Machine, generation: nat) {
    var w := m.worker;
    && w.observed <= generation
    && CountsTo(w.executed, if w.pc == Held || w.pc == Executing then w.observed - 1 else w.observed)
  }

  predicate MachineInv(s: State, m: Machine) {
    && WorkerInv(m, s.generation)
    && (InFrame(s.caller) ==>
          && m.worker.pc != Exited
          && (Busy(m) ==> m.worker.observed == s.generation)
          && (!Busy(m) ==> m.worker.observed == s.generation || m.worker.observed + 1 == s.generation)
          && (Finished(s, m) ==> m.reported == m.worker.success)
          && (m.active <==> !Finished(s, m) && m.worker.pc != Reporting))
    && (!InFrame(s.caller) ==>
          && !Busy(m) && !m.active && m.worker.observed == s.dispatches
          && (m.worker.pc == Exited ==> s.frame == ShuttingDown))
  }

  predicate CallerInv(s: State) {
    && (s.frame == ShuttingDown <==> s.caller == Joining || s.caller == Destroyed)
    && (s.caller == Checked ==> s.frame == Idle)
    && (s.caller == Outside ==> s.frame == Idle || s.frame == Poisoned)
    && (s.frame == Running <==> s.caller == Dispatched || s.caller == OpenGlFrame)
    && (s.frame == DeadlineExceeded <==> s.caller == Overdue)
    && s.generation == (if s.frame == ShuttingDown then s.dispatches + 1 else s.dispatches)
    && (s.abort <==> s.frame == DeadlineExceeded || s.frame == Poisoned || s.frame == ShuttingDown)
    && (InFrame(s.caller) ==>
          s.completed == (if Finished(s, s.m0) then 1 else 0) + (if Finished(s, s.m1) then 1 else 0))
  }

  predicate Inv(s: State) {
    CallerInv(s) && MachineInv(s, s.m0) && MachineInv(s, s.m1)
  }

  predicate OfWorker(step: Step) {
    step.Wake? || step.Resume? || step.Execute? || step.Report?
  }

  lemma CallerKeeps(s: State, step: Step)
    requires Inv(s) && Enabled(s, step) && !OfWorker(step)
    ensures Inv(Next(s, step))
  {
  }

  lemma WakeKeeps(s: State, step: Step)
    requires Inv(s) && Enabled(s, step) && (step.Wake? || step.Resume?)
    ensures Inv(Next(s, step))
  {
  }

  lemma ExecuteKeeps(s: State, step: Step)
    requires Inv(s) && Enabled(s, step) && step.Execute?
    ensures Inv(Next(s, step))
  {
  }

  lemma ReportKeeps(s: State, step: Step)
    requires Inv(s) && Enabled(s, step) && step.Report?
    ensures Inv(Next(s, step))
  {
  }

  lemma StepKeeps(s: State, step: Step)
    requires Inv(s) && Enabled(s, step)
    ensures Inv(Next(s, step))
  {
    match step
    case Wake(_) => WakeKeeps(s, step);
    case Resume(_) => WakeKeeps(s, step);
    case Execute(_, _) => ExecuteKeeps(s, step);
    case Report(_) => ReportKeeps(s, step);
    case _ => CallerKeeps(s, step);
  }

  // ---- Runs ----

  predicate Legal(s: State, steps: seq<Step>)
    decreases |steps|
  {
    steps == [] || (Enabled(s, steps[0]) && Legal(Next(s, steps[0]), steps[1..]))
  }

  function After(s: State, steps: seq<Step>): State
    requires Legal(s, steps)
    decreases |steps|
  {
    if steps == [] then s else After(Next(s, steps[0]), steps[1..])
  }

  lemma {:induction false} RunsKeep(s: State, steps: seq<Step>)
    requires Inv(s) && Legal(s, steps)
    ensures Inv(After(s, steps))
    decreases |steps|
  {
    if steps != [] {
      StepKeeps(s, steps[0]);
      RunsKeep(Next(s, steps[0]), steps[1..]);
    }
  }

  /** In every interleaving each worker has executed the dispatched generations 1, 2, ... once each
      and in order: all of them whenever no frame is in progress, and at most the current one is
      missing while one is. */
  lemma ExecutedExactlyOnce(steps: seq<Step>, second: bool)
    requires Legal(START, steps)
    ensures
      var s := After(START, steps);
      var executed := Get(s, second).worker.executed;
      && CountsTo(executed, |executed|)
      && s.dispatches - 1 <= |executed| <= s.dispatches
      && (!InFrame(s.caller) ==> |executed| == s.dispatches)
  {
    RunsKeep(START, steps);
  }

  /** Whenever the caller is outside the frame function, whatever way it returned, no worker is
      executing or about to, and the activity flags are down. */
  lemma ReturnsQuiescent(steps: seq<Step>, second: bool)
    requires Legal(START, steps) && !InFrame(After(START, steps).caller)
    ensures
      var s := After(START, steps);
      !Busy(Get(s, second)) && !Get(s, second).active
      && forall success :: !Enabled(s, Execute(second, success))
  {
    RunsKeep(START, steps);
  }

  /** A frame that ends in time returns success exactly when both workers' runs of the current
      generation succeeded; one that missed its deadline always fails and poisons the pair. */
  lemma FrameVerdict(steps: seq<Step>)
    requires Legal(START, steps) && Enabled(After(START, steps), Complete)
    ensures
      var s := After(START, steps);
      var t := Next(s, Complete);
      && CountsTo(s.m0.worker.executed, s.generation) && CountsTo(s.m1.worker.executed, s.generation)
      && t.returned == (s.caller == Dispatched && s.m0.worker.success && s.m1.worker.success)
      && t.frame == (if s.caller == Overdue then Poisoned else Idle)
  {
    RunsKeep(START, steps);
  }

  /** A poisoned pair stays poisoned until it is shut down, and a shut-down pair stays so. */
  lemma {:induction false} PoisonedUntilShutdown(s: State, steps: seq<Step>)
    requires Inv(s) && Legal(s, steps) && (s.frame == Poisoned || s.frame == ShuttingDown)
    ensures
      var t := After(s, steps);
      && (t.frame == Poisoned || t.frame == ShuttingDown)
      && (s.frame == ShuttingDown ==> t.frame == ShuttingDown)
      && t.dispatches == s.dispatches
    decreases |steps|
  {
    if steps != [] {
      StepKeeps(s, steps[0]);
      PoisonedUntilShutdown(Next(s, steps[0]), steps[1..]);
    }
  }

  /** In every run the abort flag is up exactly after a missed deadline, in a poisoned pair and in one that is being
      shut down; in particular no frame runs with it. */
  lemma AbortExactly(steps: seq<Step>)
    requires Legal(START, steps)
    ensures
      var s := After(START, steps);
      s.abort <==> s.frame == DeadlineExceeded || s.frame == Poisoned || s.frame == ShuttingDown
  {
    RunsKeep(START, steps);
  }

  /** The caller is never stuck: it can enter the frame function or is refused there, exactly according to the
      state; a waiting frame can complete, or else its deadline can pass; everything else can go on. */
  lemma CallerMoves(s: State)
    requires Inv(s)
    ensures s.caller == Outside ==> (Enabled(s, CheckIdle) <==> s.frame == Idle)
    ensures s.caller == Outside ==> (Enabled(s, RefuseFrame) <==> s.frame != Idle) && Enabled(s, Shutdown)
    ensures s.caller == Checked ==> Enabled(s, Dispatch) && Enabled(s, BeginOpenGl) && Enabled(s, RefuseFrame)
    ensures s.caller == Dispatched ==> (Enabled(s, Complete) <==> !Enabled(s, DeadlinePasses))
    ensures s.caller == OpenGlFrame ==> Enabled(s, EndOpenGl(true)) && Enabled(s, EndOpenGl(false))
    ensures s.caller == Overdue ==> (Enabled(s, Complete) <==> s.completed == 2)
  {
  }

  /** A pair that is poisoned between frames stays so for every continuation. */
  lemma PoisonTakes(steps: seq<Step>, later: seq<Step>)
    requires Legal(START, steps) && Enabled(After(START, steps), Poison)
    requires Legal(Next(After(START, steps), Poison), later)
    ensures
      var t := After(Next(After(START, steps), Poison), later);
      && (t.frame == Poisoned || t.frame == ShuttingDown) && t.dispatches == After(START, steps).dispatches
  {
    var s := After(START, steps);
    RunsKeep(START, steps);
    StepKeeps(s, Poison);
    PoisonedUntilShutdown(Next(s, Poison), later);
  }

  /** The debug hook: a worker that it was set for stops before its next run and cannot go on until it is released,
      or the pair is shut down. */
  lemma HoldHolds(s: State, second: bool)
    requires Inv(s) && Enabled(s, DebugHold(second))
    ensures
      var h := Next(s, DebugHold(second));
      Get(h, second).hold && Get(h, !second) == Get(s, !second)
  {
  }

  lemma HeldWorker(s: State, second: bool)
    requires Inv(s) && InFrame(s.caller) && Get(s, second).hold && Enabled(s, Wake(second))
    ensures
      var h := Next(s, Wake(second));
      var r := Next(h, DebugRelease(second));
      && Get(h, second).worker.pc == Held && !Enabled(h, Resume(second))
      && (forall success :: !Enabled(h, Execute(second, success)))
      && Enabled(r, Resume(second)) && Get(Next(r, Resume(second)), second).worker.pc == Executing
  {
  }

  /** An OpenGL frame returns its own verdict; one that fails poisons the pair, so that nothing but a shutdown
      follows: no frame of either kind begins any more. */
  lemma OpenGlVerdict(steps: seq<Step>, success: bool, later: seq<Step>)
    requires Legal(START, steps) && After(START, steps).caller == OpenGlFrame
    requires Legal(Next(After(START, steps), EndOpenGl(success)), later)
    ensures
      var t := Next(After(START, steps), EndOpenGl(success));
      var u := After(t, later);
      && t.returned == success && t.frame == (if success then Idle else Poisoned) && t.caller == Outside
      && (!success ==>
            && t.abort && u.dispatches == t.dispatches && u.caller != OpenGlFrame
            && (u.frame == Poisoned || u.frame == ShuttingDown))
  {
    var s := After(START, steps);
    RunsKeep(START, steps);
    StepKeeps(s, EndOpenGl(success));
    RunsKeep(Next(s, EndOpenGl(success)), later);
    if !success {
      PoisonedUntilShutdown(Next(s, EndOpenGl(success)), later);
    }
  }

  // ---- Progress ----

  /** Worker steps still to come before a machine has reported the current frame, or has left. */
  function Left(s: State, m: Machine): nat {
    match m.worker.pc
    case Exited => 0
    case Waiting => if s.frame == ShuttingDown then 1 else if m.worker.observed == s.generation then 0 else 4
    case Held => 3
    case Executing => 2
    case Reporting => 1
  }

  function Remaining(s: State): nat {
    Left(s, s.m0) + Left(s, s.m1)
  }

  lemma WorkerStepsProgress(s: State, step: Step)
    requires Inv(s) && Enabled(s, step)
    ensures OfWorker(step) ==> Remaining(Next(s, step)) < Remaining(s)
    ensures step == DeadlinePasses || step.DebugRelease? ==> Remaining(Next(s, step)) == Remaining(s)
  {
  }

  /** While a frame waits, either it can complete or some worker can move, unless the debug hook
      holds one; so a frame takes at most eight worker steps. */
  lemma FrameProgress(s: State)
    requires Inv(s) && InFrame(s.caller)
    ensures Remaining(s) <= 8 && (Remaining(s) == 0 <==> Enabled(s, Complete))
    ensures !Enabled(s, Complete) ==>
              exists second ::
                || Enabled(s, Wake(second)) || Enabled(s, Execute(second, true)) || Enabled(s, Report(second))
                || Enabled(s, Resume(second)) || Get(s, second).held
  {
    var second := Left(s, s.m0) == 0;
    var m := Get(s, second);
    assert !Enabled(s, Complete) ==> Left(s, m) != 0;
    assert !Enabled(s, Complete) ==>
        || Enabled(s, Wake(second)) || Enabled(s, Execute(second, true)) || Enabled(s, Report(second))
        || Enabled(s, Resume(second)) || m.held;
  }

  /** After shutdown every worker that is still there can leave, and once both left they are joined. */
  lemma ShutdownProgress(s: State)
    requires Inv(s) && s.caller == Joining
    ensures Remaining(s) <= 2 && (Remaining(s) == 0 <==> Enabled(s, Join))
    ensures !Enabled(s, Join) ==> Enabled(s, Wake(false)) || Enabled(s, Wake(true))
  {
  }

  lemma {:induction false} WaitsAreBounded(s: State, steps: seq<Step>)
    requires Inv(s) && Legal(s, steps)
    requires forall i :: 0 <= i < |steps| ==> OfWorker(steps[i])
    ensures |steps| <= Remaining(s)
    decreases |steps|
  {
    if steps != [] {
      StepKeeps(s, steps[0]);
      WorkerStepsProgress(s, steps[0]);
      WaitsAreBounded(Next(s, steps[0]), steps[1..]);
    }
  }
}
