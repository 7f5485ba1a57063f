/** Exclusive write ownership of save files between processes, at the grain of single locks. */
module SaveLocks {

  /** A manager is idle, has locked a prefix of its paths, is giving a prefix back from the front after
      a failure or at the end, or owns all of them. */
  datatype Phase = Idle | Acquiring(count: nat) | Releasing(from: nat, to: nat) | Owner

  datatype Manager = Manager(paths: seq<string>, phase: Phase)

  /** The lock table of the system, by lock file, and the managers of all processes. */
  datatype System = System(table: map<string, nat>, managers: seq<Manager>)

  const LOCK_SUFFIX: string := ".dualboy.lock"

  function LockPath(path: string): string {
    path + LOCK_SUFFIX
  }

  lemma LockPathInjective(a: string, b: string)
    requires LockPath(a) == LockPath(b)
    ensures a == b
  {
    assert |a| == |b|;
    assert a == LockPath(a)[..|a|] && b == LockPath(b)[..|b|];
  }

  predicate Distinct(paths: seq<string>) {
    forall i, j :: 0 <= i < j < |paths| ==> paths[i] != paths[j]
  }

  datatype Step =
    | Begin(who: nat)
    | TryLock(who: nat, opens: bool)
    | GiveUp(who: nat)
    | ReleaseOne(who: nat)

  predicate Enabled(s: System, step: Step) {
    && step.who < |s.managers|
    && var p := s.managers[step.who].phase;
    match step
    case Begin(_) => p.Idle?
    case TryLock(_, _) => p.Acquiring?
    case GiveUp(_) => p.Owner?
    case ReleaseOne(_) => p.Releasing?
  }

  /** After `count` locks: the last one makes the manager the owner. */
  function Progressed(m: Manager, count: nat): Phase {
    if count == |m.paths| then Owner else Acquiring(count)
  }

  function Released(from: nat, to: nat): Phase {
    if from >= to then Idle else Releasing(from, to)
  }

  function SetPhase(s: System, who: nat, phase: Phase): seq<Manager>
    requires who < |s.managers|
  {
    s.managers[who := s.managers[who].(phase := phase)]
  }

  /** One system call's worth of progress of one manager. A lock attempt fails when the file cannot
      be opened or someone holds the lock; then everything held is given back. */
  function Next(s: System, step: Step): System
    requires Inv(s) && Enabled(s, step)
  {
    assert ManagerInv(s, step.who);
    var m := s.managers[step.who];
    match step
    case Begin(who) => s.(managers := SetPhase(s, who, Progressed(m, 0)))
    case TryLock(who, opens) =>
      var k := m.phase.count;
      var lock := LockPath(m.paths[k]);
      if opens && lock !in s.table
      then System(s.table[lock := who], SetPhase(s, who, Progressed(m, k + 1)))
      else s.(managers := SetPhase(s, who, Released(0, k)))
    case GiveUp(who) => s.(managers := SetPhase(s, who, Released(0, |m.paths|)))
    case ReleaseOne(who) =>
      var k := m.phase.from;
      System(s.table - {LockPath(m.paths[k])}, SetPhase(s, who, Released(k + 1, m.phase.to)))
  }

  /** Whether a manager holds the lock of its k-th path. */
  predicate Holds(m: Manager, k: nat) {
    match m.phase
    case Idle => false
    case Acquiring(count) => k < count
    case Releasing(from, to) => from <= k < to
    case Owner => k < |m.paths|
  }

  predicate ManagerInv(s: System, who: nat)
    requires who < |s.managers|
  {
    var m := s.managers[who];
    && Distinct(m.paths)
    && (m.phase.Acquiring? ==> m.phase.count < |m.paths|)
    && (m.phase.Releasing? ==> m.phase.from < m.phase.to <= |m.paths|)
    && (forall k :: 0 <= k < |m.paths| ==>
                      (Holds(m, k) <==> LockPath(m.paths[k]) in s.table && s.table[LockPath(m.paths[k])] == who))
  }

  predicate Inv(s: System) {
    forall who :: 0 <= who < |s.managers| ==> ManagerInv(s, who)
  }

  lemma OtherKeeps(s: System, step: Step, other: nat)
    requires Inv(s) && Enabled(s, step) && other < |s.managers| && other != step.who
    ensures ManagerInv(Next(s, step), other)
  {
    var m, n := s.managers[step.who], s.managers[other];
    assert ManagerInv(s, step.who) && ManagerInv(s, other);
    assert Next(s, step).managers[other] == n;
    forall k | 0 <= k < |n.paths|
      ensures
        var lock := LockPath(n.paths[k]);
        Holds(n, k) <==> lock in Next(s, step).table && Next(s, step).table[lock] == other
    {
    }
  }

  lemma SelfKeeps(s: System, step: Step)
    requires Inv(s) && Enabled(s, step)
    ensures ManagerInv(Next(s, step), step.who)
  {
    var m := s.managers[step.who];
    assert ManagerInv(s, step.who);
    var t := Next(s, step);
    forall k | 0 <= k < |m.paths|
      ensures
        var lock := LockPath(m.paths[k]);
        Holds(t.managers[step.who], k) <==> lock in t.table && t.table[lock] == step.who
    {
      if step.TryLock? && LockPath(m.paths[k]) == LockPath(m.paths[m.phase.count]) {
        LockPathInjective(m.paths[k], m.paths[m.phase.count]);
      }
      if step.ReleaseOne? && LockPath(m.paths[k]) == LockPath(m.paths[m.phase.from]) {
        LockPathInjective(m.paths[k], m.paths[m.phase.from]);
      }
    }
  }

  lemma StepKeeps(s: System, step: Step)
    requires Inv(s) && Enabled(s, step)
    ensures Inv(Next(s, step))
  {
    forall who | 0 <= who < |Next(s, step).managers|
      ensures ManagerInv(Next(s, step), who)
    {
      if who == step.who { SelfKeeps(s, step); } else { OtherKeeps(s, step, who); }
    }
  }

  // ---- Runs ----

  /** Nobody holds anything and the managers want any duplicate-free paths. */
  predicate Fresh(s: System) {
    && s.table == map[]
    && forall who :: 0 <= who < |s.managers| ==> s.managers[who].phase == Idle && Distinct(s.managers[who].paths)
  }

  predicate Legal(s: System, steps: seq<Step>)
    requires Inv(s)
    decreases |steps|
  {
    steps == [] || (Enabled(s, steps[0]) && (StepKeeps(s, steps[0]); Legal(Next(s, steps[0]), steps[1..])))
  }

  function After(s: System, steps: seq<Step>): (t: System)
    requires Inv(s) && Legal(s, steps)
    ensures Inv(t)
    decreases |steps|
  {
    if steps == [] then s else
    StepKeeps(s, steps[0]);
    After(Next(s, steps[0]), steps[1..])
  }

  /** A manager's acquisition ends with all of its locks or none. */
  lemma AllOrNone(s: System, who: nat)
    requires Inv(s) && who < |s.managers|
    ensures
      var m := s.managers[who];
      && (m.phase == Owner ==>
            forall k :: 0 <= k < |m.paths| ==> LockPath(m.paths[k]) in s.table && s.table[LockPath(m.paths[k])] == who)
      && (m.phase == Idle ==>
            forall k :: 0 <= k < |m.paths| ==>
                          !(LockPath(m.paths[k]) in s.table && s.table[LockPath(m.paths[k])] == who))
  {
    assert ManagerInv(s, who);
  }

  lemma OwnersDisjoint(s: System, a: nat, b: nat, i: nat, j: nat)
    requires Inv(s) && a < |s.managers| && b < |s.managers| && a != b
    requires i < |s.managers[a].paths| && j < |s.managers[b].paths| && s.managers[a].paths[i] == s.managers[b].paths[j]
    ensures !(s.managers[a].phase == Owner && s.managers[b].phase == Owner)
  {
    AllOrNone(s, a);
    AllOrNone(s, b);
  }

  /** In every interleaving of any number of managers, with any failures to open a lock file, two
      managers that share a path are never both write owners. The run may start fresh or anywhere
      that satisfies the invariant. */
  lemma WriteExclusion(s: System, steps: seq<Step>, a: nat, b: nat, i: nat, j: nat)
    requires Inv(s) && Legal(s, steps)
    requires
      var t := After(s, steps);
      && a < |t.managers| && b < |t.managers| && a != b
      && i < |t.managers[a].paths| && j < |t.managers[b].paths|
      && t.managers[a].paths[i] == t.managers[b].paths[j]
    ensures !(After(s, steps).managers[a].phase == Owner && After(s, steps).managers[b].phase == Owner)
  {
    OwnersDisjoint(After(s, steps), a, b, i, j);
  }

  /** A run may start with nothing locked. */
  lemma FreshHolds(s: System)
    requires Fresh(s)
    ensures Inv(s)
  {
  }

  // ---- Acquisition and release ----

  /** The same step `n` times. */
  function Times(step: Step, n: nat): (r: seq<Step>)
    ensures |r| == n
  {
    if n == 0 then [] else [step] + Times(step, n - 1)
  }

  /** None of the manager's locks from the k-th on is held by anybody. */
  predicate FreeFrom(s: System, who: nat, k: nat)
    requires who < |s.managers|
  {
    forall i :: k <= i < |s.managers[who].paths| ==> LockPath(s.managers[who].paths[i]) !in s.table
  }

  lemma {:induction false} LocksAll(s: System, who: nat, k: nat)
    requires Inv(s) && who < |s.managers| && k <= |s.managers[who].paths| && FreeFrom(s, who, k)
    requires s.managers[who].phase == Progressed(s.managers[who], k)
    ensures
      var tries := Times(TryLock(who, true), |s.managers[who].paths| - k);
      Legal(s, tries) && After(s, tries).managers == SetPhase(s, who, Owner)
    decreases |s.managers[who].paths| - k
  {
    var m := s.managers[who];
    if k < |m.paths| {
      var step := TryLock(who, true);
      assert ManagerInv(s, who);
      StepKeeps(s, step);
      var t := Next(s, step);
      forall i | k + 1 <= i < |m.paths| ensures LockPath(m.paths[i]) !in t.table {
        if LockPath(m.paths[i]) == LockPath(m.paths[k]) {
          LockPathInjective(m.paths[i], m.paths[k]);
        }
      }
      LocksAll(t, who, k + 1);
      assert Times(step, |m.paths| - k)[1..] == Times(step, |m.paths| - k - 1);
    }
  }

  /** An idle manager whose lock files open and whose locks are all free becomes the owner, and nobody else is
      affected. */
  lemma AcquiresFree(s: System, who: nat)
    requires Inv(s) && who < |s.managers| && s.managers[who].phase == Idle && FreeFrom(s, who, 0)
    ensures
      var steps := [Begin(who)] + Times(TryLock(who, true), |s.managers[who].paths|);
      Legal(s, steps) && After(s, steps).managers == SetPhase(s, who, Owner)
  {
    var tries := Times(TryLock(who, true), |s.managers[who].paths|);
    StepKeeps(s, Begin(who));
    LocksAll(Next(s, Begin(who)), who, 0);
    assert ([Begin(who)] + tries)[1..] == tries;
  }

  lemma {:induction false} ReleasesRest(s: System, who: nat)
    requires Inv(s) && who < |s.managers| && s.managers[who].phase.Releasing?
    ensures
      assert ManagerInv(s, who);
      var releases := Times(ReleaseOne(who), s.managers[who].phase.to - s.managers[who].phase.from);
      Legal(s, releases) && After(s, releases).managers == SetPhase(s, who, Idle)
    decreases s.managers[who].phase.to - s.managers[who].phase.from
  {
    assert ManagerInv(s, who);
    var p, step := s.managers[who].phase, ReleaseOne(who);
    StepKeeps(s, step);
    assert Times(step, p.to - p.from)[1..] == Times(step, p.to - p.from - 1);
    if p.from + 1 < p.to {
      ReleasesRest(Next(s, step), who);
    } else {
      assert Times(step, 0) == [];
    }
  }

  /** A lock that cannot be opened or is held by somebody ends the attempt: everything locked so far is given
      back, and the manager is idle with none of its locks. */
  lemma RefusalReleases(s: System, who: nat, opens: bool)
    requires Inv(s) && who < |s.managers| && s.managers[who].phase.Acquiring?
    requires
      assert ManagerInv(s, who);
      !opens || LockPath(s.managers[who].paths[s.managers[who].phase.count]) in s.table
    ensures
      var steps := [TryLock(who, opens)] + Times(ReleaseOne(who), s.managers[who].phase.count);
      Legal(s, steps) && After(s, steps).managers == SetPhase(s, who, Idle)
  {
    var step, k := TryLock(who, opens), s.managers[who].phase.count;
    assert ManagerInv(s, who);
    StepKeeps(s, step);
    assert ([step] + Times(ReleaseOne(who), k))[1..] == Times(ReleaseOne(who), k);
    if k > 0 {
      ReleasesRest(Next(s, step), who);
    }
  }

  /** An owner that gives up is idle after releasing its locks one by one. */
  lemma GivesUp(s: System, who: nat)
    requires Inv(s) && who < |s.managers| && s.managers[who].phase == Owner
    ensures
      var steps := [GiveUp(who)] + Times(ReleaseOne(who), |s.managers[who].paths|);
      Legal(s, steps) && After(s, steps).managers == SetPhase(s, who, Idle)
  {
    var n := |s.managers[who].paths|;
    StepKeeps(s, GiveUp(who));
    assert ([GiveUp(who)] + Times(ReleaseOne(who), n))[1..] == Times(ReleaseOne(who), n);
    if n > 0 {
      ReleasesRest(Next(s, GiveUp(who)), who);
    }
  }

  /** The duplicate-free list of the paths to lock. */
  method CollectPaths(wanted: seq<string>) returns (paths: seq<string>)
    ensures Distinct(paths) && (forall p :: p in paths <==> p in wanted)
  {
    paths := [];
    for n := 0 to |wanted|
      invariant Distinct(paths)
      invariant forall p :: p in paths <==> p in wanted[..n]
    {
      var duplicate := false;
      for previous := 0 to |paths|
        invariant duplicate <==> wanted[n] in paths[..previous]
      {
        duplicate := duplicate || paths[previous] == wanted[n];
      }
      assert paths[..|paths|] == paths;
      assert wanted[..n + 1] == wanted[..n] + [wanted[n]];
      if !duplicate {
        paths := paths + [wanted[n]];
      }
    }
    assert wanted[..|wanted|] == wanted;
  }
}
