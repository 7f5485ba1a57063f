/** Interleaved pacing of two Game Boys on one thread. */
module Pacing {

  const CALL_WATCHDOG: nat := 2_000_000
  const TICK_WATCHDOG: nat := 16_777_216

  /** What one call into an emulator core does: the ticks it took, and whether a frame ended. */
  datatype Slice = Slice(elapsed: nat, vblank: bool)

  datatype Outcome = Running | FrameDone | NoProgress | WatchdogExpired

  // ---- What a series of calls amounts to ----

  /** The lead of the second machine, and what each machine ran and finished since some point. */
  datatype Progress = Progress(skew: int, ticks0: nat, ticks1: nat, saw0: bool, saw1: bool)

  function From(skew: int): Progress {
    Progress(skew, 0, 0, false, false)
  }

  /** One call, by the machine that is behind. */
  function Next(p: Progress, slice: Slice): Progress {
    if p.skew < 0
    then p.(skew := p.skew + slice.elapsed, ticks1 := p.ticks1 + slice.elapsed, saw1 := p.saw1 || slice.vblank)
    else p.(skew := p.skew - slice.elapsed, ticks0 := p.ticks0 + slice.elapsed, saw0 := p.saw0 || slice.vblank)
  }

  /** A series of calls. */
  function After(skew: int, log: seq<Slice>): Progress {
    if log == [] then From(skew) else Next(After(skew, log[..|log| - 1]), log[|log| - 1])
  }

  lemma {:induction false} AfterNext(skew: int, log: seq<Slice>, slice: Slice)
    ensures After(skew, log + [slice]) == Next(After(skew, log), slice)
  {
    assert (log + [slice])[..|log|] == log;
  }

  /** The skew moves by exactly the difference of the ticks run. */
  lemma {:induction false} SkewIsLead(skew: int, log: seq<Slice>)
    ensures
      var p := After(skew, log);
      p.skew - skew == p.ticks1 - p.ticks0
  {
    if log != [] {
      SkewIsLead(skew, log[..|log| - 1]);
    }
  }

  predicate Bounded(log: seq<Slice>, bound: nat) {
    bound > 0 && forall i :: 0 <= i < |log| ==> log[i].elapsed <= bound
  }

  /** Neither machine ever leads by more than one call. */
  lemma {:induction false} SkewBounded(skew: int, log: seq<Slice>, bound: nat)
    requires Bounded(log, bound) && 0 - bound <= skew < bound
    ensures 0 - bound <= After(skew, log).skew < bound
  {
    if log != [] {
      SkewBounded(skew, log[..|log| - 1], bound);
    }
  }

  lemma {:induction false} SkewContinues(skew: int, a: seq<Slice>, b: seq<Slice>)
    ensures After(After(skew, a).skew, b).skew == After(skew, a + b).skew
    decreases |b|
  {
    if b == [] {
      assert a + b == a;
    } else {
      var c, slice := b[..|b| - 1], b[|b| - 1];
      SkewContinues(skew, a, c);
      assert a + b == (a + c) + [slice];
      AfterNext(skew, a + c, slice);
    }
  }

  // ---- When a frame is over ----

  /** How a frame stands after `n` calls, the last of which took time or was `stuck`. */
  function Judge(p: Progress, n: nat, stuck: bool): Outcome {
    if stuck then NoProgress
    else if n > CALL_WATCHDOG || p.ticks0 > TICK_WATCHDOG || p.ticks1 > TICK_WATCHDOG then WatchdogExpired
    else if p.saw0 && p.saw1 then FrameDone
    else Running
  }

  function Verdict(skew: int, log: seq<Slice>): Outcome {
    Judge(After(skew, log), |log|, log != [] && log[|log| - 1].elapsed == 0)
  }

  /** The frame is not over before all the calls were made. */
  ghost predicate Open(skew: int, log: seq<Slice>) {
    forall k :: 0 <= k < |log| ==> Verdict(skew, log[..k]) == Running
  }

  /** A frame that consists of the calls `log` and ends as `r`: no earlier moment could end it. */
  ghost predicate IsFrame(skew: int, log: seq<Slice>, r: Outcome) {
    r == Verdict(skew, log) && r != Running && Open(skew, log)
  }

  lemma OpenGrows(skew: int, log: seq<Slice>, slice: Slice)
    requires Open(skew, log) && Verdict(skew, log) == Running
    ensures Open(skew, log + [slice])
  {
    var longer := log + [slice];
    forall k | 0 <= k < |longer| ensures Verdict(skew, longer[..k]) == Running {
      assert longer[..k] == if k < |log| then log[..k] else log;
    }
  }

  /** What the cores would do decides alone how long a frame is and how it ends. */
  lemma FrameUnique(skew: int, slices: seq<Slice>, n: nat, r: Outcome, m: nat, s: Outcome)
    requires n <= m <= |slices| && IsFrame(skew, slices[..n], r) && IsFrame(skew, slices[..m], s)
    ensures n == m && r == s
  {
    assert slices[..m][..n] == slices[..n];
  }

  /** A frame is bounded in calls and in ticks. */
  lemma FrameBounded(skew: int, log: seq<Slice>, r: Outcome, bound: nat)
    requires IsFrame(skew, log, r) && Bounded(log, bound)
    ensures 0 < |log| <= CALL_WATCHDOG + 1
    ensures
      var p := After(skew, log);
      p.ticks0 <= TICK_WATCHDOG + bound && p.ticks1 <= TICK_WATCHDOG + bound
  {
    if log != [] {
      assert Verdict(skew, log[..|log| - 1]) == Running;
    }
  }

  // ---- The pair ----

  class Pair {
    var tickSkew: int
    var vblank0: bool
    var vblank1: bool
    /** All calls into the cores since the last reset. */
    ghost var history: seq<Slice>

    /** The skew is what the calls since the last reset made it. */
    ghost predicate Valid()
      reads this
    {
      tickSkew == After(0, history).skew
    }

    constructor ()
      ensures Valid() && history == []
    {
      tickSkew, vblank0, vblank1, history := 0, false, false, [];
    }

    method Reset()
      modifies this`tickSkew, this`history
      ensures Valid() && history == []
    {
      tickSkew, history := 0, [];
    }

    /** One call into the machine that is behind, which behaves as `slice`. */
    method RunSlice(slice: Slice, ghost p: Progress) returns (second: bool)
      requires p.skew == tickSkew && p.saw0 == vblank0 && p.saw1 == vblank1
      modifies this
      ensures second == (old(tickSkew) < 0) && history == old(history) + [slice]
      ensures
        var q := Next(p, slice);
        && tickSkew == q.skew && vblank0 == q.saw0 && vblank1 == q.saw1
        && q.ticks0 == p.ticks0 + (if second then 0 else slice.elapsed)
        && q.ticks1 == p.ticks1 + (if second then slice.elapsed else 0)
    {
      second := tickSkew < 0;
      vblank0, vblank1 := vblank0 || (!second && slice.vblank), vblank1 || (second && slice.vblank);
      tickSkew := if second then tickSkew + slice.elapsed else tickSkew - slice.elapsed;
      history := history + [slice];
    }

    /** What a frame has seen and counted so far is what its first `n` calls amount to. */
    ghost predicate Counts(skew: int, log: seq<Slice>, ticks0: nat, ticks1: nat)
      reads this
    {
      After(skew, log) == Progress(tickSkew, ticks0, ticks1, vblank0, vblank1) && Open(skew, log)
    }

    /** One pass of the frame loop: a call, and the tests that may end the frame. */
    method RunCall(slices: seq<Slice>, n: nat, ghost skew: int, ticks0: nat, ticks1: nat)
      returns (r: Outcome, newTicks0: nat, newTicks1: nat)
      requires n < |slices| && Counts(skew, slices[..n], ticks0, ticks1) && Verdict(skew, slices[..n]) == Running
      modifies this
      ensures Counts(skew, slices[..n + 1], newTicks0, newTicks1) && history == old(history) + [slices[n]]
      ensures
        var verdict := Verdict(skew, slices[..n + 1]);
        r == if verdict == FrameDone then Running else verdict
    {
      var slice := slices[n];
      ghost var p := After(skew, slices[..n]);
      CallMade(skew, slices, n, p);
      var second := RunSlice(slice, p);
      newTicks0 := ticks0 + if second then 0 else slice.elapsed;
      newTicks1 := ticks1 + if second then slice.elapsed else 0;
      r := if slice.elapsed == 0 then NoProgress
      else if n + 1 > CALL_WATCHDOG || (if second then newTicks1 else newTicks0) > TICK_WATCHDOG then WatchdogExpired
      else Running;
    }

    /** `sameboy_run_frame`, given what the next calls into the cores would do, whichever machine they
        run: it makes calls until the first moment at which the frame is over. */
    method RunFrame(slices: seq<Slice>) returns (r: Outcome, n: nat)
      requires Valid() && |slices| > CALL_WATCHDOG
      modifies this
      ensures Valid() && n <= |slices| && history == old(history) + slices[..n]
      ensures IsFrame(old(tickSkew), slices[..n], r)
      ensures
        var p := After(old(tickSkew), slices[..n]);
        tickSkew == p.skew && vblank0 == p.saw0 && vblank1 == p.saw1
    {
      vblank0, vblank1, n, r := false, false, 0, Running;
      var ticks0: nat, ticks1: nat := 0, 0;
      while r == Running && (!vblank0 || !vblank1)
        invariant n <= |slices| && history == old(history) + slices[..n]
        invariant Counts(old(tickSkew), slices[..n], ticks0, ticks1)
        invariant
          var verdict := Verdict(old(tickSkew), slices[..n]);
          r == if verdict == FrameDone then Running else verdict
        decreases CALL_WATCHDOG + 1 - n, if r == Running then 1 else 0
      {
        r, ticks0, ticks1 := RunCall(slices, n, old(tickSkew), ticks0, ticks1);
        n := n + 1;
      }
      r := if r == Running then FrameDone else r;
      SkewContinues(0, old(history), slices[..n]);
    }
  }

  /** One more call of an open frame. */
  lemma {:induction false} CallMade(skew: int, slices: seq<Slice>, n: nat, p: Progress)
    requires n < |slices| && Open(skew, slices[..n]) && p == After(skew, slices[..n])
    requires Verdict(skew, slices[..n]) == Running
    ensures slices[..n + 1] == slices[..n] + [slices[n]] && Open(skew, slices[..n + 1])
    ensures After(skew, slices[..n + 1]) == Next(p, slices[n])
    ensures Verdict(skew, slices[..n + 1]) == Judge(Next(p, slices[n]), n + 1, slices[n].elapsed == 0)
  {
    assert slices[..n + 1] == slices[..n] + [slices[n]];
    AfterNext(skew, slices[..n], slices[n]);
    OpenGrows(skew, slices[..n], slices[n]);
  }

  /** All calls of a series of frames. */
  function Joined(logs: seq<seq<Slice>>): seq<Slice> {
    if logs == [] then [] else Joined(logs[..|logs| - 1]) + logs[|logs| - 1]
  }

  /** Each frame makes the calls its cores were going to make, up to the moment at which it is over, and
      starts with the skew that all the frames before it left. */
  ghost predicate FramesOf(behaviour: seq<seq<Slice>>, logs: seq<seq<Slice>>, outcomes: seq<Outcome>) {
    && |logs| == |outcomes| <= |behaviour|
    && forall i :: 0 <= i < |logs| ==>
                     logs[i] <= behaviour[i] && IsFrame(After(0, Joined(logs[..i])).skew, logs[i], outcomes[i])
  }

  lemma {:induction false} FramesGrow(behaviour: seq<seq<Slice>>, logs: seq<seq<Slice>>, outcomes: seq<Outcome>,
                                      log: seq<Slice>, r: Outcome)
    requires FramesOf(behaviour, logs, outcomes) && |logs| < |behaviour| && log <= behaviour[|logs|]
    requires IsFrame(After(0, Joined(logs)).skew, log, r)
    ensures FramesOf(behaviour, logs + [log], outcomes + [r])
    ensures Joined(logs + [log]) == Joined(logs) + log
  {
    var longer := logs + [log];
    assert longer[..|logs|] == logs;
    forall i | 0 <= i < |longer|
      ensures longer[i] <= behaviour[i] && IsFrame(After(0, Joined(longer[..i])).skew, longer[i], (outcomes + [r])[i])
    {
      assert longer[..i] == if i < |logs| then logs[..i] else logs;
    }
  }

  /** From reset, over any number of frames and any behaviour of the cores: every frame makes exactly the
      calls that behaviour calls for, the skew is the second machine's total ticks minus the first's, and if
      no call takes more than `bound` ticks the skew stays below one call. */
  method RunFrames(behaviour: seq<seq<Slice>>) returns (p: Pair, logs: seq<seq<Slice>>, outcomes: seq<Outcome>)
    requires forall i :: 0 <= i < |behaviour| ==> |behaviour[i]| > CALL_WATCHDOG
    ensures |logs| == |behaviour| && FramesOf(behaviour, logs, outcomes)
    ensures
      var total := After(0, Joined(logs));
      p.tickSkew == total.skew == total.ticks1 - total.ticks0
    ensures forall bound: nat :: Bounded(Joined(logs), bound) ==> 0 - bound <= p.tickSkew < bound
  {
    p := new Pair();
    logs, outcomes := [], [];
    for i := 0 to |behaviour|
      invariant fresh(p) && p.Valid() && p.history == Joined(logs)
      invariant |logs| == i && FramesOf(behaviour, logs, outcomes)
    {
      var r, n := p.RunFrame(behaviour[i]);
      FramesGrow(behaviour, logs, outcomes, behaviour[i][..n], r);
      logs, outcomes := logs + [behaviour[i][..n]], outcomes + [r];
    }
    SkewIsLead(0, Joined(logs));
    forall bound: nat | Bounded(Joined(logs), bound) ensures 0 - bound <= p.tickSkew < bound {
      SkewBounded(0, Joined(logs), bound);
    }
  }
}
