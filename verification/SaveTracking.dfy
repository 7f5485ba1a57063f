/** Change tracking of one battery region: when a flush writes it, and what. */
module SaveTracking {
  import opened Wrappers
  import opened Bytes
  import opened SaveHash

  /** The record kept per region. `baseline` is the region as last agreed with the file, `size` and
      `hash` describe its tracked prefix, `loaded` is the length of the file, and `preserved` keeps
      a longer old file from being cut. */
  datatype Tracking = Tracking(
    baseline: seq<byte>, hash: nat, size: nat, loaded: nat, preserved: nat, known: bool, valid: bool)

  /** How much of a region the engine wants on disk, once its save device is known. */
  datatype Extent = Unknown | Known(size: nat)

  datatype Flushed = Flushed(tracking: Tracking, write: Option<seq<byte>>)

  const FILL: byte := 0xff

  predicate Filled(data: seq<byte>, from: nat, to: nat)
    requires from <= to <= |data|
  {
    forall i :: from <= i < to ==> data[i] == FILL
  }

  /** The length to preserve when the extent becomes known. */
  function Preserved(t: Tracking, data: seq<byte>, extent: nat): nat
    requires t.loaded <= |data|
  {
    if t.loaded != 0 && extent == 0 then t.loaded
    else if t.loaded > extent && !Filled(data, extent, t.loaded) then t.loaded
    else t.preserved
  }

  /** `initialize_extent_tracking`. */
  function KnowExtent(t: Tracking, data: seq<byte>, extent: nat): Tracking
    requires t.loaded <= |data| && extent <= |data| && t.preserved <= |data|
  {
    var preserved := Preserved(t, data, extent);
    var tracked := Max(extent, preserved);
    var grow := t.loaded <= tracked;
    Tracking(t.baseline, if grow then Hash(data[..tracked]) else t.hash, if grow then tracked else t.size,
             t.loaded, preserved, true, true)
  }

  /** The record after loading a file of `loaded` bytes into the region. */
  function Loaded(data: seq<byte>, loaded: nat, extent: Extent): Tracking
    requires loaded <= |data| && (extent.Known? ==> extent.size <= |data|)
  {
    var t := Tracking(data, Hash(data[..loaded]), loaded, loaded, 0, false, true);
    if extent.Known? then KnowExtent(t, data, extent.size) else t
  }

  /** How much a flush would write. */
  function Target(t: Tracking, extent: nat): nat {
    Max(extent, t.preserved)
  }

  /** The record at a flush, where the extent may be known for the first time. */
  function Refresh(t: Tracking, live: seq<byte>, extent: nat, dirty: bool): Tracking
    requires Sized(t, |live|) && extent <= |live|
  {
    if t.known then t
    else
      var u := KnowExtent(t, live, extent);
      var n := Target(u, extent);
      u.(valid := !dirty && live[..n] == t.baseline[..n])
  }

  /** The tests that let a flush skip a region. */
  predicate Skips(t: Tracking, live: seq<byte>, n: nat)
    requires Sized(t, |live|) && n <= |live|
  {
    t.valid && ((n > t.size && live[..n] == t.baseline[..n]) || (n == t.size && t.hash == Hash(live[..n])))
  }

  function Rewritten(t: Tracking, live: seq<byte>, n: nat): Tracking
    requires n <= |live|
  {
    Tracking(live, Hash(live[..n]), n, n, t.preserved, t.known, true)
  }

  /** One region's part of a flush; a write that fails leaves only the refreshed record. */
  function Flush(t: Tracking, live: seq<byte>, extent: Extent, dirty: bool, writeOk: bool): Flushed
    requires Sized(t, |live|) && (extent.Known? ==> extent.size <= |live|)
  {
    if extent.Unknown? then Flushed(t, None)
    else
      var u := Refresh(t, live, extent.size, dirty);
      var n := Target(u, extent.size);
      if Skips(u, live, n) || !writeOk then Flushed(u, None) else Flushed(Rewritten(u, live, n), Some(live[..n]))
  }

  // ---- The record against the file ----

  predicate Sized(t: Tracking, capacity: nat) {
    |t.baseline| == capacity && t.size <= capacity && t.loaded <= capacity && t.preserved <= capacity
  }

  /** A valid record hashes its baseline's prefix, and the file is the baseline's loaded prefix. */
  predicate Tracked(t: Tracking, disk: seq<byte>, capacity: nat) {
    && Sized(t, capacity)
    && (t.valid ==> t.hash == Hash(t.baseline[..t.size]))
    && (!t.known ==> t.valid)
    && disk == t.baseline[..t.loaded]
  }

  function DiskAfter(disk: seq<byte>, f: Flushed): seq<byte> {
    if f.write.Some? then f.write.value else disk
  }

  lemma LoadTracks(data: seq<byte>, loaded: nat, extent: Extent)
    requires loaded <= |data| && (extent.Known? ==> extent.size <= |data|)
    ensures Tracked(Loaded(data, loaded, extent), data[..loaded], |data|)
  {
  }

  lemma FlushTracks(t: Tracking, disk: seq<byte>, live: seq<byte>, extent: Extent, dirty: bool, writeOk: bool)
    requires Tracked(t, disk, |live|) && (extent.Known? ==> extent.size <= |live|)
    ensures
      var f := Flush(t, live, extent, dirty, writeOk);
      Tracked(f.tracking, DiskAfter(disk, f), |live|)
  {
  }

  /** Two different images with the same hash. */
  predicate Collide(a: seq<byte>, b: seq<byte>) {
    a != b && Hash(a) == Hash(b)
  }

  /** A flush that may write leaves a known region unwritten only if it equals its baseline, up to
      the length it would write, or the two images collide; and it writes exactly the live bytes. */
  lemma FlushComplete(t: Tracking, disk: seq<byte>, live: seq<byte>, extent: nat, dirty: bool)
    requires Tracked(t, disk, |live|) && extent <= |live|
    ensures
      var f := Flush(t, live, Known(extent), dirty, true);
      var n := Target(f.tracking, extent);
      && n <= |live|
      && (f.write.Some? ==> f.write.value == live[..n] && f.tracking.baseline == live)
      && (f.write.None? ==> live[..n] == t.baseline[..n] || Collide(live[..n], t.baseline[..n]))
  {
  }

  /** A change of exactly one byte below the written length is always written. */
  lemma OneByteChangeWritten(t: Tracking, disk: seq<byte>, extent: nat, dirty: bool, i: nat, b: byte)
    requires Tracked(t, disk, |t.baseline|) && extent <= |t.baseline| && i < |t.baseline| && t.baseline[i] != b
    ensures
      var live := t.baseline[i := b];
      var f := Flush(t, live, Known(extent), dirty, true);
      var n := Target(f.tracking, extent);
      i < n ==> f.write == Some(live[..n])
  {
    var live := t.baseline[i := b];
    var n := Target(Flush(t, live, Known(extent), dirty, true).tracking, extent);
    FlushComplete(t, disk, live, extent, dirty);
    if i < n {
      var image := t.baseline[..n];
      assert live[..n] == image[i := b];
      OneByteNeverCollides(image, i, b);
    }
  }

  /** A second flush with nothing changed writes nothing and changes nothing. */
  lemma SecondFlushIdle(t: Tracking, disk: seq<byte>, live: seq<byte>, extent: Extent, dirty: bool, dirtyAgain: bool,
                        writeOk: bool)
    requires Tracked(t, disk, |live|) && (extent.Known? ==> extent.size <= |live|)
    ensures
      var f := Flush(t, live, extent, dirty, true);
      Sized(f.tracking, |live|) && Flush(f.tracking, live, extent, dirtyAgain, writeOk) == Flushed(f.tracking, None)
  {
    FlushTracks(t, disk, live, extent, dirty, true);
  }

  /** A flush of bytes that equal the baseline, up to the length it would write, leaves the file alone exactly
      when the record is valid and the file would not become shorter; so a save device that was merely promoted
      is not written. */
  lemma UnchangedUnwritten(t: Tracking, disk: seq<byte>, live: seq<byte>, extent: nat, dirty: bool)
    requires Tracked(t, disk, |live|) && extent <= |live|
    ensures
      var f := Flush(t, live, Known(extent), dirty, true);
      var n := Target(f.tracking, extent);
      var known := if t.known then t else KnowExtent(t, live, extent);
      live[..n] == t.baseline[..n] ==>
        (f.write.None? <==> (if t.known then t.valid else !dirty) && known.size <= n)
  {
  }

  /** The first flush after a load, of bytes that have not changed, with the extent known at load or only now
      and not smaller than first known: it writes nothing, except that a dirty flag counts as a change as long
      as the extent was unknown, and that a file longer than the device loses a tail that is all fill. */
  lemma FlushAfterLoad(data: seq<byte>, loaded: nat, known: Extent, extent: nat, dirty: bool)
    requires loaded <= |data| && extent <= |data| && (known.Known? ==> known.size <= extent)
    ensures
      var f := Flush(Loaded(data, loaded, known), data, Known(extent), dirty, true);
      var first := if known.Known? then known.size else extent;
      && (f.write.None? <==>
          (known.Known? || !dirty)
          && (loaded <= extent || first == 0 || exists i :: first <= i < loaded && data[i] != 0xff))
      && (f.write.Some? ==> f.write.value == data[..Max(extent, f.tracking.preserved)])
  {
    LoadTracks(data, loaded, known);
    var t := Loaded(data, loaded, known);
    UnchangedUnwritten(t, data[..loaded], data, extent, dirty);
  }

  // ---- Runs ----

  /** A flush attempt in the life of a region. */
  datatype Moment = Moment(live: seq<byte>, extent: Extent, dirty: bool, writeOk: bool)

  predicate Fits(m: Moment, capacity: nat) {
    |m.live| == capacity && (m.extent.Known? ==> m.extent.size <= capacity)
  }

  function FlushAt(t: Tracking, m: Moment): Flushed
    requires Fits(m, |t.baseline|) && Sized(t, |t.baseline|)
  {
    Flush(t, m.live, m.extent, m.dirty, m.writeOk)
  }

  /** Everything a run of flushes writes, in order. */
  function Writes(t: Tracking, capacity: nat, run: seq<Moment>): seq<seq<byte>>
    requires Sized(t, capacity) && forall i :: 0 <= i < |run| ==> Fits(run[i], capacity)
    decreases |run|
  {
    if run == [] then []
    else
      var f := FlushAt(t, run[0]);
      (if f.write.Some? then [f.write.value] else []) + Writes(f.tracking, capacity, run[1..])
  }

  /** Wherever the extent is known it is at least `least`. */
  predicate NeverBelow(run: seq<Moment>, least: nat) {
    forall i :: 0 <= i < |run| && run[i].extent.Known? ==> run[i].extent.size >= least
  }

  /** Once the extent is known, every write reaches the extent first known and the preserved length. */
  lemma {:induction false} WritesReach(t: Tracking, capacity: nat, run: seq<Moment>, least: nat, w: seq<byte>)
    requires Sized(t, capacity) && (forall i :: 0 <= i < |run| ==> Fits(run[i], capacity))
    requires t.known && NeverBelow(run, least) && w in Writes(t, capacity, run)
    ensures Max(least, t.preserved) <= |w| <= capacity
    decreases |run|
  {
    var f := FlushAt(t, run[0]);
    if !(f.write.Some? && w == f.write.value) {
      WritesReach(f.tracking, capacity, run[1..], least, w);
    }
  }

  /** What must not be lost of a file of `loaded` bytes when the extent becomes known over `data`. */
  predicate Covers(length: nat, data: seq<byte>, loaded: nat, extent: nat)
    requires loaded <= |data|
  {
    || length >= loaded
    || (0 < extent <= length && extent <= loaded && forall i :: extent <= i < loaded ==> data[i] == 0xff)
  }

  /** Flushes before the extent is known write nothing and leave the record alone. */
  lemma {:induction false} UnknownWritesNothing(t: Tracking, capacity: nat, before: seq<Moment>, run: seq<Moment>)
    requires Sized(t, capacity) && forall i :: 0 <= i < |before + run| ==> Fits((before + run)[i], capacity)
    requires forall i :: 0 <= i < |before| ==> before[i].extent.Unknown?
    ensures (forall i :: 0 <= i < |run| ==> Fits(run[i], capacity))
    ensures Writes(t, capacity, before + run) == Writes(t, capacity, run)
    decreases |before|
  {
    assert forall i :: 0 <= i < |run| ==> run[i] == (before + run)[|before| + i];
    if before == [] {
      assert before + run == run;
    } else {
      assert (before + run)[1..] == before[1..] + run;
      assert (before + run)[0] == before[0];
      UnknownWritesNothing(t, capacity, before[1..], run);
      assert [] + Writes(t, capacity, before[1..] + run) == Writes(t, capacity, before[1..] + run);
    }
  }

  /** No save is cut: in a run where the extent becomes known at `first`, over whatever bytes the
      region then holds, and does not shrink afterwards, every write fits the region and covers
      every loaded byte past that extent, unless that whole tail was 0xFF. */
  lemma NoTruncation(t: Tracking, capacity: nat, before: seq<Moment>, first: Moment, run: seq<Moment>, w: seq<byte>)
    requires Sized(t, capacity) && !t.known && t.preserved == 0
    requires first.extent.Known? && NeverBelow(run, first.extent.size)
    requires forall i :: 0 <= i < |before| ==> before[i].extent.Unknown?
    requires forall i :: 0 <= i < |before + ([first] + run)| ==> Fits((before + ([first] + run))[i], capacity)
    requires w in Writes(t, capacity, before + ([first] + run))
    ensures |w| <= capacity == |first.live| && Covers(|w|, first.live, t.loaded, first.extent.size)
  {
    var rest := [first] + run;
    UnknownWritesNothing(t, capacity, before, rest);
    assert rest[0] == first && rest[1..] == run;
    WritesCover(t, capacity, first, run, w);
  }

  lemma WritesCover(t: Tracking, capacity: nat, first: Moment, run: seq<Moment>, w: seq<byte>)
    requires Sized(t, capacity) && !t.known && t.preserved == 0 && Fits(first, capacity) && first.extent.Known?
    requires forall i :: 0 <= i < |[first] + run| ==> Fits(([first] + run)[i], capacity)
    requires NeverBelow(run, first.extent.size)
    requires w in Writes(t, capacity, [first] + run)
    ensures |w| <= capacity && Covers(|w|, first.live, t.loaded, first.extent.size)
  {
    var f := FlushAt(t, first);
    assert ([first] + run)[1..] == run;
    assert forall i :: 0 <= i < |run| ==> run[i] == ([first] + run)[i + 1];
    if !(f.write.Some? && w == f.write.value) {
      WritesReach(f.tracking, capacity, run, first.extent.size, w);
    }
  }

  /** The same for a region whose extent was already known when its file was loaded. */
  lemma NoTruncationFromLoad(data: seq<byte>, loaded: nat, extent: nat, run: seq<Moment>, w: seq<byte>)
    requires loaded <= |data| && extent <= |data|
    requires forall i :: 0 <= i < |run| ==> Fits(run[i], |data|)
    requires NeverBelow(run, extent)
    requires w in Writes(Loaded(data, loaded, Known(extent)), |data|, run)
    ensures |w| <= |data| && Covers(|w|, data, loaded, extent)
  {
    WritesReach(Loaded(data, loaded, Known(extent)), |data|, run, extent, w);
  }
}
