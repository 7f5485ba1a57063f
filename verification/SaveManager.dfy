/** The save manager's flush over all battery regions, against a ghost disk. */
module SaveManager {
  import opened Wrappers
  import opened Bytes
  import opened SaveHash
  import opened SaveTracking
  import Locks = SaveLocks

  /** What the engine answers about one region at a flush: whether it is managed here, whether it is
      still exposed, its live bytes, whether an extent could be reported, and its dirty flag. */
  datatype Region = Region(managed: bool, exposed: bool, live: seq<byte>, reported: bool, extent: Extent, dirty: bool)

  /** A managed region that the engine lost, or whose extent it does not report or reports too large. */
  predicate Refused(r: Region) {
    r.managed && (!r.exposed || (r.live != [] && (!r.reported || (r.extent.Known? && r.extent.size > |r.live|))))
  }

  /** A region the flush looks at. */
  predicate Examined(r: Region) {
    r.managed && r.exposed && r.live != [] && r.reported && (r.extent.Known? ==> r.extent.size <= |r.live|)
  }

  method BytesAreFill(data: seq<byte>, begin: nat, end: nat) returns (all: bool)
    requires begin <= end <= |data|
    ensures all == Filled(data, begin, end)
  {
    for index := begin to end
      invariant Filled(data, begin, index)
    {
      if data[index] != FILL {
        return false;
      }
    }
    all := true;
  }

  /** The record when the extent becomes known. */
  method NoteExtent(t: Tracking, data: seq<byte>, extent: nat) returns (u: Tracking)
    requires t.loaded <= |data| && extent <= |data| && t.preserved <= |data|
    ensures u == KnowExtent(t, data, extent)
  {
    u := t;
    if extent == 0 && u.loaded != 0 {
      u := u.(preserved := u.loaded);
    } else if u.loaded > extent {
      var blank := BytesAreFill(data, extent, u.loaded);
      if !blank {
        u := u.(preserved := u.loaded);
      }
    }
    var tracked := Max(extent, u.preserved);
    if u.loaded <= tracked {
      var hash := MemoryHash(data[..tracked]);
      u := u.(size := tracked, hash := hash);
    }
    u := u.(known := true, valid := true);
  }

  /** A region as it was filled from a file of `loaded` bytes. */
  datatype LoadedRegion = LoadedRegion(data: seq<byte>, loaded: nat, extent: Extent)

  predicate Loadable(r: LoadedRegion) {
    r.loaded <= |r.data| && (r.extent.Known? ==> r.extent.size <= |r.data|)
  }

  ghost predicate Recorded(r: LoadedRegion, t: Tracking, file: seq<byte>)
    requires Loadable(r)
  {
    t == Loaded(r.data, r.loaded, r.extent) && file == r.data[..r.loaded] && Tracked(t, file, |r.data|)
  }

  method LoadRecord(r: LoadedRegion) returns (t: Tracking)
    requires Loadable(r)
    ensures t == Loaded(r.data, r.loaded, r.extent)
  {
    var hash := MemoryHash(r.data[..r.loaded]);
    t := Tracking([], hash, r.loaded, r.loaded, 0, false, true);
    if r.extent.Known? {
      t := NoteExtent(t, r.data, r.extent.size);
    }
    t := t.(baseline := r.data);
  }

  class Manager {
    var tracked: seq<Tracking>
    var initialized: bool
    var owner: bool
    ghost var disk: seq<seq<byte>>
    ghost var writes: nat
    ghost var failedWrites: nat

    /** The records after loading every region. */
    constructor (regions: seq<LoadedRegion>, writeOwner: bool)
      requires forall i :: 0 <= i < |regions| ==> Loadable(regions[i])
      ensures owner == writeOwner && initialized && writes == failedWrites == 0 && |tracked| == |disk| == |regions|
      ensures forall i :: 0 <= i < |regions| ==> Recorded(regions[i], tracked[i], disk[i])
    {
      owner, initialized, writes, failedWrites := writeOwner, true, 0, 0;
      var records: seq<Tracking> := [];
      ghost var files: seq<seq<byte>> := [];
      for i := 0 to |regions|
        invariant |records| == |files| == i
        invariant forall k :: 0 <= k < i ==> Recorded(regions[k], records[k], files[k])
      {
        var r := regions[i];
        var t := LoadRecord(r);
        LoadTracks(r.data, r.loaded, r.extent);
        records, files := records + [t], files + [r.data[..r.loaded]];
      }
      tracked, disk := records, files;
    }

    ghost predicate Valid(regions: seq<Region>)
      reads this
    {
      && |tracked| == |disk| == |regions|
      && forall i :: 0 <= i < |regions| && Examined(regions[i]) ==> Tracked(tracked[i], disk[i], |regions[i].live|)
    }

    /** The atomic file replacement: it may fail, and then the file is as before. */
    method WriteFile(i: nat, bytes: seq<byte>) returns (ok: bool)
      requires i < |disk|
      modifies this`disk, this`writes, this`failedWrites
      ensures disk == if ok then old(disk)[i := bytes] else old(disk)
      ensures writes == old(writes) + if ok then 1 else 0
      ensures failedWrites == old(failedWrites) + if ok then 0 else 1
    {
      ok := *;
      if ok {
        disk, writes := disk[i := bytes], writes + 1;
      } else {
        failedWrites := failedWrites + 1;
      }
    }

    /** One region's part of the flush. */
    method FlushRegion(i: nat, r: Region) returns (ok: bool)
      requires i < |tracked| == |disk| && Examined(r) && Sized(tracked[i], |r.live|)
      modifies this`tracked, this`disk, this`writes, this`failedWrites
      ensures
        var f := Flush(old(tracked[i]), r.live, r.extent, r.dirty, ok);
        && tracked == old(tracked)[i := f.tracking]
        && disk == old(disk)[i := DiskAfter(old(disk[i]), f)]
        && writes == old(writes) + if f.write.Some? then 1 else 0
      // It fails exactly when a write that was due failed.
      ensures failedWrites == old(failedWrites) + if ok then 0 else 1
      ensures Flush(old(tracked[i]), r.live, r.extent, r.dirty, true).write.None? ==> ok
    {
      ok := true;
      if r.extent.Unknown? {
        return;
      }
      var t := tracked[i];
      if !t.known {
        var u := NoteExtent(t, r.live, r.extent.size);
        var n := Target(u, r.extent.size);
        t := u.(valid := !r.dirty && r.live[..n] == t.baseline[..n]);
        tracked := tracked[i := t];
      }
      var n := Target(t, r.extent.size);
      if t.valid && n > t.size && r.live[..n] == t.baseline[..n] {
        return;
      }
      var hash := MemoryHash(r.live[..n]);
      if t.valid && t.size == n && t.hash == hash {
        return;
      }
      ok := WriteFile(i, r.live[..n]);
      if ok {
        tracked := tracked[i := Tracking(r.live, hash, n, n, t.preserved, t.known, true)];
      }
    }

    /** The loop body of the flush: refused, skipped or flushed. */
    method Visit(i: nat, r: Region) returns (ok: bool)
      requires i < |tracked| == |disk| && (Examined(r) ==> Tracked(tracked[i], disk[i], |r.live|))
      modifies this`tracked, this`disk, this`writes, this`failedWrites
      ensures |tracked| == |old(tracked)| && |disk| == |old(disk)|
      ensures forall k :: 0 <= k < |tracked| && k != i ==> tracked[k] == old(tracked)[k] && disk[k] == old(disk)[k]
      ensures Examined(r) ==> Tracked(tracked[i], disk[i], |r.live|)
      ensures ok ==> Settled(old(tracked[i]), old(disk[i]), tracked[i], disk[i], r)
      ensures !Examined(r) ==> tracked[i] == old(tracked[i]) && disk[i] == old(disk[i])
      ensures writes == old(writes) + if ok && FlushOf(old(tracked[i]), r).write.Some? then 1 else 0
      ensures failedWrites == old(failedWrites) + if ok || Refused(r) then 0 else 1
      ensures Refused(r) ==> !ok
      ensures !Refused(r) && FlushOf(old(tracked[i]), r).write.None? ==> ok
    {
      if !r.managed {
        return true;
      }
      if !r.exposed {
        return false;
      }
      if r.live == [] {
        return true;
      }
      if !r.reported || (r.extent.Known? && r.extent.size > |r.live|) {
        return false;
      }
      FlushTracks(tracked[i], disk[i], r.live, r.extent, r.dirty, true);
      FlushTracks(tracked[i], disk[i], r.live, r.extent, r.dirty, false);
      ok := FlushRegion(i, r);
    }

    /** `dualboy_save_manager_flush`. */
    method FlushAll(regions: seq<Region>) returns (ok: bool)
      requires Valid(regions)
      modifies this`tracked, this`disk, this`writes, this`failedWrites
      ensures Valid(regions)
      // Without write ownership nothing is written.
      ensures !owner || !initialized ==> ok && disk == old(disk) && tracked == old(tracked) && writes == old(writes)
      // An owner's flush fails exactly when the engine refuses a region or a write fails.
      ensures owner && initialized ==>
                (ok <==> (forall i :: 0 <= i < |regions| ==> !Refused(regions[i])) && failedWrites == old(failedWrites))
      ensures Quiet(old(tracked), regions, |regions|) ==> failedWrites == old(failedWrites)
      // A successful flush settles every region as a lone flush of it does.
      ensures ok && owner && initialized ==>
                forall i :: 0 <= i < |regions|
                            ==> Settled(old(tracked)[i], old(disk)[i], tracked[i], disk[i], regions[i])
      ensures ok && owner && initialized ==> writes == old(writes) + Needed(old(tracked), regions, |regions|)
    {
      ok := true;
      if !initialized || !owner {
        return;
      }
      for i := 0 to |regions|
        invariant Valid(regions)
        invariant Progress(old(tracked), old(disk), tracked, disk, regions, i)
        invariant writes == old(writes) + Needed(old(tracked), regions, i)
        invariant failedWrites == old(failedWrites) && forall k :: 0 <= k < i ==> !Refused(regions[k])
      {
        ghost var t, d := tracked, disk;
        ok := Visit(i, regions[i]);
        if ok {
          ProgressStep(old(tracked), old(disk), t, d, tracked, disk, regions, i);
        }
        if !ok {
          return;
        }
      }
    }
  }

  /** The record and file of one region after a successful flush. */
  predicate Settled(t0: Tracking, d0: seq<byte>, t: Tracking, d: seq<byte>, r: Region) {
    t == FlushOf(t0, r).tracking && d == DiskAfter(d0, FlushOf(t0, r))
  }

  /** A flush that has settled the first `n` regions and not reached the others. */
  ghost predicate Progress(t0: seq<Tracking>, d0: seq<seq<byte>>, t: seq<Tracking>, d: seq<seq<byte>>,
                           regions: seq<Region>, n: nat) {
    && |t0| == |d0| == |t| == |d| == |regions| && n <= |regions|
    && (forall k :: n <= k < |regions| ==> t[k] == t0[k] && d[k] == d0[k])
    && (forall k :: 0 <= k < n ==> Settled(t0[k], d0[k], t[k], d[k], regions[k]))
  }

  lemma ProgressStep(t0: seq<Tracking>, d0: seq<seq<byte>>, t: seq<Tracking>, d: seq<seq<byte>>,
                     u: seq<Tracking>, e: seq<seq<byte>>, regions: seq<Region>, n: nat)
    requires Progress(t0, d0, t, d, regions, n) && n < |regions| && |u| == |t| && |e| == |d|
    requires forall k :: 0 <= k < |u| && k != n ==> u[k] == t[k] && e[k] == d[k]
    requires Settled(t[n], d[n], u[n], e[n], regions[n])
    ensures Progress(t0, d0, u, e, regions, n + 1)
  {
  }

  /** None of the first `n` regions needs writing. */
  predicate Quiet(tracked: seq<Tracking>, regions: seq<Region>, n: nat)
    requires n <= |tracked| && n <= |regions|
  {
    forall i :: 0 <= i < n ==> FlushOf(tracked[i], regions[i]).write.None?
  }

  /** How many of the first `n` regions need writing. */
  function Needed(tracked: seq<Tracking>, regions: seq<Region>, n: nat): nat
    requires n <= |tracked| && n <= |regions|
  {
    if n == 0 then 0
    else Needed(tracked, regions, n - 1) + if FlushOf(tracked[n - 1], regions[n - 1]).write.Some? then 1 else 0
  }

  lemma {:induction false} QuietNeedsNothing(tracked: seq<Tracking>, regions: seq<Region>, n: nat)
    requires n <= |tracked| && n <= |regions| && Quiet(tracked, regions, n)
    ensures Needed(tracked, regions, n) == 0
  {
    if n > 0 {
      QuietNeedsNothing(tracked, regions, n - 1);
    }
  }

  /** A lone successful flush of one region. */
  function FlushOf(t: Tracking, r: Region): Flushed
  {
    if Examined(r) && Sized(t, |r.live|) then Flush(t, r.live, r.extent, r.dirty, true) else Flushed(t, None)
  }

  /** After a successful flush a second one, with nothing changed, writes nothing. */
  lemma SettledIsQuiet(t0: Tracking, d0: seq<byte>, t: Tracking, d: seq<byte>, r: Region)
    requires Examined(r) ==> Tracked(t0, d0, |r.live|)
    requires Settled(t0, d0, t, d, r)
    ensures FlushOf(t, r).write.None? && FlushOf(t, r).tracking == t
  {
    if Examined(r) {
      SecondFlushIdle(t0, d0, r.live, r.extent, r.dirty, r.dirty, true);
    }
  }

  /** A second flush with nothing changed succeeds, writes nothing and leaves everything as one does. */
  method FlushTwice(m: Manager, regions: seq<Region>) returns (first: bool, second: bool)
    requires m.Valid(regions) && m.owner && m.initialized
    modifies m`tracked, m`disk, m`writes, m`failedWrites
    ensures first <==> second
    ensures first ==> SameAsOnce(old(m.tracked), old(m.disk), m.tracked, m.disk, regions)
    ensures first ==> m.writes == old(m.writes) + Needed(old(m.tracked), regions, |regions|)
    ensures first ==> m.failedWrites == old(m.failedWrites)
  {
    ghost var t0, d0 := m.tracked, m.disk;
    first := m.FlushAll(regions);
    second := false;
    if first {
      ghost var t1, d1 := m.tracked, m.disk;
      AllQuiet(t0, d0, t1, d1, regions);
      QuietNeedsNothing(t1, regions, |regions|);
      second := m.FlushAll(regions);
      SettledTwice(t0, d0, t1, d1, m.tracked, m.disk, regions);
    }
  }

  lemma SettledTwice(t0: seq<Tracking>, d0: seq<seq<byte>>, t1: seq<Tracking>, d1: seq<seq<byte>>,
                     t2: seq<Tracking>, d2: seq<seq<byte>>, regions: seq<Region>)
    requires SameAsOnce(t0, d0, t1, d1, regions) && SameAsOnce(t1, d1, t2, d2, regions) && Quiet(t1, regions, |regions|)
    requires forall i :: 0 <= i < |regions| ==> FlushOf(t1[i], regions[i]).tracking == t1[i]
    ensures t2 == t1 && d2 == d1
  {
    assert forall i :: 0 <= i < |regions| ==> Settled(t1[i], d1[i], t2[i], d2[i], regions[i]);
  }

  predicate SameAsOnce(t0: seq<Tracking>, d0: seq<seq<byte>>, t: seq<Tracking>, d: seq<seq<byte>>,
                       regions: seq<Region>) {
    && |t0| == |d0| == |t| == |d| == |regions|
    && forall i :: 0 <= i < |regions| ==> Settled(t0[i], d0[i], t[i], d[i], regions[i])
  }

  lemma AllQuiet(t0: seq<Tracking>, d0: seq<seq<byte>>, t: seq<Tracking>, d: seq<seq<byte>>, regions: seq<Region>)
    requires SameAsOnce(t0, d0, t, d, regions)
    requires forall i :: 0 <= i < |regions| && Examined(regions[i]) ==> Tracked(t0[i], d0[i], |regions[i].live|)
    ensures Quiet(t, regions, |regions|)
    ensures forall i :: 0 <= i < |regions| ==> FlushOf(t[i], regions[i]).tracking == t[i]
  {
    forall i | 0 <= i < |regions|
      ensures FlushOf(t[i], regions[i]).write.None? && FlushOf(t[i], regions[i]).tracking == t[i]
    {
      SettledIsQuiet(t0[i], d0[i], t[i], d[i], regions[i]);
    }
  }

  /** The manager's write ownership is what the lock protocol gave it. */
  ghost predicate OwnsAs(m: Manager, s: Locks.System, who: nat)
    reads m
  {
    who < |s.managers| && (m.owner ==> s.managers[who].phase == Locks.Owner)
  }

  /** Two managers that share a save path never both write: in every state the lock protocol reaches,
      of two flushes that follow one writes nothing and leaves its files alone. */
  method FlushShared(s: Locks.System, a: nat, b: nat, ghost i: nat, ghost j: nat,
                     first: Manager, second: Manager, regions0: seq<Region>, regions1: seq<Region>)
    requires Locks.Inv(s) && OwnsAs(first, s, a) && OwnsAs(second, s, b) && a != b && first != second
    requires i < |s.managers[a].paths| && j < |s.managers[b].paths| && s.managers[a].paths[i] == s.managers[b].paths[j]
    requires first.Valid(regions0) && second.Valid(regions1)
    modifies first`tracked, first`disk, first`writes, first`failedWrites
    modifies second`tracked, second`disk, second`writes, second`failedWrites
    ensures || (first.writes == old(first.writes) && first.disk == old(first.disk))
            || (second.writes == old(second.writes) && second.disk == old(second.disk))
  {
    Locks.OwnersDisjoint(s, a, b, i, j);
    var ok0 := first.FlushAll(regions0);
    var ok1 := second.FlushAll(regions1);
  }
}
