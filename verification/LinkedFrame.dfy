/** The cooperative scheduler that runs both linked GBA machines for one video frame. */
module LinkedFrame {
  import opened Cycles
  import opened Lockstep
  import opened LockstepSafety
  import opened LockstepRuns

  const WATCHDOG: nat := 4_000_000

  /** What one `runLoop` call of a machine did: callbacks into the link, the frame counter
      afterwards, and whether the machine crashed. */
  datatype CoreReturn = CoreReturn(steps: seq<Step>, frame: Word, crashed: bool)

  /** One call and the machine it ran. */
  datatype Call = Call(machine: Side, result: CoreReturn)

  datatype Outcome = Running | FrameDone | Crashed | AllBlocked | WatchdogExpired

  /** The link after a sequence of callbacks. */
  function Perform(l: Link, steps: seq<Step>): (r: Link)
    requires Sound(l)
    ensures Sound(r)
    decreases |steps|
  {
    if steps == [] then l else
    ApplySound(l, steps[0]);
    Perform(Apply(l, steps[0]), steps[1..])
  }

  /** The link after a sequence of `runLoop` calls. */
  function Replay(l: Link, log: seq<Call>): (r: Link)
    requires Sound(l)
    ensures Sound(r)
    decreases |log|
  {
    if log == [] then l else Perform(Replay(l, log[..|log| - 1]), log[|log| - 1].result.steps)
  }

  predicate Blocked(l: Link, machine: Side) {
    Get(l, machine).asleep
  }

  predicate Pending(l: Link, machine: Side) {
    Get(l, machine).queue != []
  }

  /** Some call of this machine left its frame counter off the starting value. */
  ghost predicate Finished(log: seq<Call>, machine: Side, start: Word) {
    exists i :: 0 <= i < |log| && log[i].machine == machine && log[i].result.frame != start
  }

  lemma FinishedGrows(log: seq<Call>, call: Call, machine: Side, start: Word)
    ensures Finished(log + [call], machine, start) <==>
            Finished(log, machine, start) || (call.machine == machine && call.result.frame != start)
  {
    var longer := log + [call];
    assert longer[|log|] == call;
    if Finished(log, machine, start) {
      var i :| 0 <= i < |log| && log[i].machine == machine && log[i].result.frame != start;
      assert longer[i] == log[i];
    }
  }

  /** The log tells what the cores did: every call ran a machine that was not blocked, with the result that
      machine's core gives in the link as it was then, and only the last call may have crashed. */
  ghost predicate Traced(start: Link, cores: (nat, Side, Link) -> CoreReturn, log: seq<Call>)
    requires Sound(start)
  {
    forall i :: 0 <= i < |log| ==> TracedCall(Replay(start, log[..i]), cores, i, log[i])
  }

  ghost predicate TracedCall(l: Link, cores: (nat, Side, Link) -> CoreReturn, i: nat, call: Call) {
    !Get(l, call.machine).asleep && call.result == cores(i, call.machine, l)
  }

  /** All calls before the last one returned normally. */
  predicate CrashOnlyLast(log: seq<Call>) {
    forall i :: 0 <= i < |log| - 1 ==> !log[i].result.crashed
  }

  lemma TracedGrows(start: Link, cores: (nat, Side, Link) -> CoreReturn, log: seq<Call>, call: Call)
    requires Sound(start) && Traced(start, cores, log) && TracedCall(Replay(start, log), cores, |log|, call)
    ensures Traced(start, cores, log + [call])
  {
    var longer := log + [call];
    forall i | 0 <= i < |longer| ensures TracedCall(Replay(start, longer[..i]), cores, i, longer[i]) {
      assert longer[..i] == if i < |log| then log[..i] else log;
    }
  }

  /** Machine `machine` has a turn after the calls of `log`: it is not blocked, and it has not finished its
      frame, or has an event to handle, or some machine was blocked as the round began (`crowded`). */
  ghost predicate Turn(start: Link, log: seq<Call>, machine: Side, frame: Word, crowded: bool)
    requires Sound(start)
  {
    var l := Replay(start, log);
    !Get(l, machine).asleep && (!Finished(log, machine, frame) || Get(l, machine).queue != [] || crowded)
  }

  predicate Crowded(l: Link) {
    l.p0.asleep || l.p1.asleep
  }

  /** The calls of `log` from number `from` on are one round: first machine 0 is called if it has a turn, then
      machine 1 if it has one then, unless a crash or the watchdog ends the round before. */
  ghost predicate IsRound(start: Link, start0: Word, start1: Word, log: seq<Call>, from: nat)
    requires Sound(start) && from <= |log|
  {
    var crowded := Crowded(Replay(start, log[..from]));
    var turn0 := Turn(start, log[..from], 0, start0, crowded);
    var middle := from + if turn0 then 1 else 0;
    && from < |log| && middle <= |log|
    && (turn0 ==> log[from].machine == 0)
    && if !Cut(log[..middle]) && Turn(start, log[..middle], 1, start1, crowded)
       then |log| == middle + 1 && log[middle].machine == 1
       else |log| == middle
  }

  predicate Cut(log: seq<Call>) {
    Crash(log) || |log| >= WATCHDOG
  }

  /** Both machines have finished their frames and no link event is left. */
  ghost predicate Over(start: Link, start0: Word, start1: Word, log: seq<Call>)
    requires Sound(start)
  {
    var l := Replay(start, log);
    Finished(log, 0, start0) && Finished(log, 1, start1) && l.p0.queue == [] && l.p1.queue == []
  }

  /** Round number `k` runs from `rounds[k]` to `rounds[k + 1]`, and the frame was not over when it began. */
  ghost predicate RoundNumber(start: Link, start0: Word, start1: Word, log: seq<Call>, rounds: seq<nat>, k: nat)
    requires Sound(start) && k + 1 < |rounds|
  {
    && rounds[k] <= rounds[k + 1] <= |log|
    && IsRound(start, start0, start1, log[..rounds[k + 1]], rounds[k])
    && !Over(start, start0, start1, log[..rounds[k]])
  }

  /** The whole log in rounds. */
  ghost predicate InRounds(start: Link, start0: Word, start1: Word, log: seq<Call>, rounds: seq<nat>)
    requires Sound(start)
  {
    && |rounds| > 0 && rounds[0] == 0 && rounds[|rounds| - 1] == |log|
    && forall k: nat :: k + 1 < |rounds| ==> RoundNumber(start, start0, start1, log, rounds, k)
  }

  lemma RoundsGrow(start: Link, start0: Word, start1: Word, log: seq<Call>, rounds: seq<nat>, longer: seq<Call>)
    requires Sound(start) && InRounds(start, start0, start1, log, rounds) && !Over(start, start0, start1, log)
    requires log <= longer && IsRound(start, start0, start1, longer, |log|)
    ensures InRounds(start, start0, start1, longer, rounds + [|longer|])
  {
    var more := rounds + [|longer|];
    assert longer[..|log|] == log && longer[..|longer|] == longer;
    forall k: nat | k + 1 < |more| ensures RoundNumber(start, start0, start1, longer, more, k) {
      if k + 1 < |rounds| {
        assert RoundNumber(start, start0, start1, log, rounds, k);
        assert longer[..rounds[k + 1]] == log[..rounds[k + 1]] && longer[..rounds[k]] == log[..rounds[k]];
      }
    }
  }

  /** A round that begins before the frame is over has a turn for at least one machine. */
  lemma RoundRuns(start: Link, start0: Word, start1: Word, log: seq<Call>)
    requires Sound(start) && !Over(start, start0, start1, log)
    ensures
      var crowded := Crowded(Replay(start, log));
      Turn(start, log, 0, start0, crowded) || Turn(start, log, 1, start1, crowded)
  {
    assert Inv(0, Replay(start, log));
  }

  /** Log and link after some calls, none of which crashed except perhaps the last. */
  ghost predicate Logged(start: Link, cores: (nat, Side, Link) -> CoreReturn, log: seq<Call>, link: Link)
    requires Sound(start)
  {
    link == Replay(start, log) && Traced(start, cores, log) && CrashOnlyLast(log)
  }

  predicate Crash(log: seq<Call>) {
    log != [] && log[|log| - 1].result.crashed
  }

  /** One `runLoop` call of a machine that is not blocked. */
  method RunMachine(ghost start: Link, cores: (nat, Side, Link) -> CoreReturn, log: seq<Call>, link: Link,
                    machine: Side)
    returns (result: CoreReturn, longer: seq<Call>, after: Link)
    requires Sound(start) && Logged(start, cores, log, link) && !Crash(log) && !Blocked(link, machine)
    ensures longer == log + [Call(machine, result)] && Logged(start, cores, longer, after)
    ensures Crash(longer) == result.crashed
  {
    result := cores(|log|, machine, link);
    after := Perform(link, result.steps);
    longer := log + [Call(machine, result)];
    assert longer[..|log|] == log;
    TracedGrows(start, cores, log, Call(machine, result));
  }

  /** The turn of one machine in a round, if it has one. */
  method TakeTurn(ghost start: Link, cores: (nat, Side, Link) -> CoreReturn, log0: seq<Call>, link0: Link,
                  machine: Side, frame: Word, wasDone: bool, ghost other: Word, blockedCount: nat)
    returns (log: seq<Call>, link: Link, done: bool)
    requires Sound(start) && Logged(start, cores, log0, link0) && !Crash(log0)
    requires wasDone == Finished(log0, machine, frame)
    ensures Logged(start, cores, log, link) && done == Finished(log, machine, frame)
    ensures Finished(log, 1 - machine, other) == Finished(log0, 1 - machine, other)
    ensures if Turn(start, log0, machine, frame, blockedCount > 0)
            then |log| == |log0| + 1 && log[..|log0|] == log0 && log[|log0|].machine == machine
            else log == log0
  {
    log, link, done := log0, link0, wasDone;
    if !Blocked(link, machine) && !(done && blockedCount == 0 && !Pending(link, machine)) {
      var result;
      result, log, link := RunMachine(start, cores, log0, link0, machine);
      FinishedGrows(log0, Call(machine, result), machine, frame);
      FinishedGrows(log0, Call(machine, result), 1 - machine, other);
      done := done || result.frame != frame;
    }
  }

  /** One round of the scheduler: machine 0 and then machine 1, unless a crash or the watchdog intervenes. */
  method RunRound(ghost start: Link, start0: Word, start1: Word, cores: (nat, Side, Link) -> CoreReturn,
                  log0: seq<Call>, link0: Link, wasDone0: bool, wasDone1: bool)
    returns (log: seq<Call>, link: Link, done0: bool, done1: bool)
    requires Sound(start) && Logged(start, cores, log0, link0) && !Crash(log0) && |log0| < WATCHDOG
    requires wasDone0 == Finished(log0, 0, start0) && wasDone1 == Finished(log0, 1, start1)
    requires !Over(start, start0, start1, log0)
    ensures Logged(start, cores, log, link) && |log| <= WATCHDOG
    ensures log0 <= log && IsRound(start, start0, start1, log, |log0|)
    ensures done0 == Finished(log, 0, start0) && done1 == Finished(log, 1, start1)
  {
    var blockedCount := (if Blocked(link0, 0) then 1 else 0) + (if Blocked(link0, 1) then 1 else 0);
    RoundRuns(start, start0, start1, log0);
    ghost var turn0 := Turn(start, log0, 0, start0, blockedCount > 0);
    log, link, done0 := TakeTurn(start, cores, log0, link0, 0, start0, wasDone0, start1, blockedCount);
    done1 := wasDone1;
    ghost var middle, turn1 := log, !Cut(log) && Turn(start, log, 1, start1, blockedCount > 0);
    if !Cut(log) {
      log, link, done1 := TakeTurn(start, cores, log, link, 1, start1, done1, start0, blockedCount);
    }
    RoundMade(start, start0, start1, log0, middle, log, blockedCount > 0, turn0, turn1);
  }

  lemma RoundMade(start: Link, start0: Word, start1: Word, log0: seq<Call>, middle: seq<Call>, log: seq<Call>,
                  crowded: bool, turn0: bool, turn1: bool)
    requires Sound(start) && crowded == Crowded(Replay(start, log0)) && (turn0 || turn1)
    requires turn0 == Turn(start, log0, 0, start0, crowded)
    requires turn1 == (!Cut(middle) && Turn(start, middle, 1, start1, crowded))
    requires if turn0 then |middle| == |log0| + 1 && middle[..|log0|] == log0 && middle[|log0|].machine == 0
             else middle == log0
    requires if turn1 then |log| == |middle| + 1 && log[..|middle|] == middle && log[|middle|].machine == 1
             else log == middle
    ensures log0 <= log && IsRound(start, start0, start1, log, |log0|)
  {
    assert log[..|middle|] == middle;
    assert log[..|log0|] == middle[..|log0|] == log0;
  }

  /** How things stand after a round in which calls were made. */
  method AfterRound(ghost start: Link, ghost start0: Word, ghost start1: Word, log: seq<Call>, link: Link,
                    done0: bool, done1: bool, calls: nat)
    returns (outcome: Outcome)
    requires Sound(start) && link == Replay(start, log) && calls < |log| <= WATCHDOG
    requires done0 == Finished(log, 0, start0) && done1 == Finished(log, 1, start1)
    ensures outcome != AllBlocked && (outcome == Crashed <==> Crash(log))
    ensures outcome != Crashed ==> (outcome == FrameDone <==> Over(start, start0, start1, log))
    ensures outcome == WatchdogExpired ==> |log| == WATCHDOG
    ensures outcome == Running ==> |log| < WATCHDOG
  {
    outcome := if Crash(log) then Crashed
    else if |log| == calls then AllBlocked
    else if done0 && done1 && !Pending(link, 0) && !Pending(link, 1) then FrameDone
    else if |log| == WATCHDOG then WatchdogExpired
    else Running;
  }

  lemma NoRounds(start: Link, start0: Word, start1: Word, cores: (nat, Side, Link) -> CoreReturn)
    requires Sound(start)
    ensures InRounds(start, start0, start1, [], [0]) && Logged(start, cores, [], start)
    ensures !Over(start, start0, start1, [])
  {
  }

  /** Runs both machines to the end of a frame. `cores` gives what the n-th `runLoop` call does,
      for any behaviour of the two machines, and the log is what they did, in rounds that give every
      machine exactly the turns it is due. The machines are never all blocked, the call count is bounded,
      and success means that both frame counters moved and no link event is queued. */
  method RunLinkedFrame(start: Link, start0: Word, start1: Word, cores: (nat, Side, Link) -> CoreReturn)
    returns (outcome: Outcome, log: seq<Call>, link: Link, ghost rounds: seq<nat>)
    requires Sound(start)
    ensures |log| <= WATCHDOG && Traced(start, cores, log) && CrashOnlyLast(log)
    ensures InRounds(start, start0, start1, log, rounds)
    ensures link == Replay(start, log)
    ensures outcome != AllBlocked && outcome != Running
    ensures outcome == Crashed <==> log != [] && log[|log| - 1].result.crashed
    ensures outcome != Crashed ==> (outcome == FrameDone <==> Over(start, start0, start1, log))
    ensures outcome == WatchdogExpired ==> |log| == WATCHDOG
  {
    var done0, done1 := false, false;
    outcome, log, link, rounds := Running, [], start, [0];
    NoRounds(start, start0, start1, cores);
    while outcome == Running
      invariant |log| <= WATCHDOG && Logged(start, cores, log, link)
      invariant InRounds(start, start0, start1, log, rounds)
      invariant outcome == Running ==> |log| < WATCHDOG
      invariant done0 == Finished(log, 0, start0) && done1 == Finished(log, 1, start1)
      invariant outcome != Crashed ==> (outcome == FrameDone <==> Over(start, start0, start1, log))
      invariant outcome == WatchdogExpired ==> |log| == WATCHDOG
      invariant outcome == Crashed <==> Crash(log)
      invariant outcome != AllBlocked
      decreases WATCHDOG - |log|, if outcome == Running then 1 else 0
    {
      ghost var before := log;
      var calls := |log|;
      log, link, done0, done1 := RunRound(start, start0, start1, cores, log, link, done0, done1);
      RoundsGrow(start, start0, start1, before, rounds, log);
      rounds := rounds + [|log|];
      outcome := AfterRound(start, start0, start1, log, link, done0, done1, calls);
    }
  }
}
