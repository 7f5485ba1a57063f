/** The save device of a GBA cartridge across state restores. */
module SaveDevice {
  import opened Bytes
  import opened Wrappers
  import opened SaveTracking

  datatype Device = Autodetect | ForceNone | Sram | Flash512 | Flash1M | Eeprom | Eeprom512 | Sram512

  /** What a device stores, as the engine reports its extent. */
  function ExtentOf(d: Device): Extent {
    match d
    case Autodetect => Unknown
    case ForceNone => Known(0)
    case Sram => Known(0x8000)
    case Flash512 => Known(0x1_0000)
    case Flash1M => Known(0x2_0000)
    case Eeprom => Known(0x2000)
    case Eeprom512 => Known(0x200)
    case Sram512 => Known(0x1_0000)
  }

  const KIB: nat := 1024

  /** The sizes of the devices: none, half a kibibyte to 128. */
  lemma DeviceSizes()
    ensures ExtentOf(Autodetect).Unknown? && ExtentOf(ForceNone) == Known(0) && ExtentOf(Sram) == Known(32 * KIB)
    ensures ExtentOf(Flash512) == ExtentOf(Sram512) == Known(64 * KIB) && ExtentOf(Flash1M) == Known(128 * KIB)
    ensures ExtentOf(Eeprom) == Known(8 * KIB) && ExtentOf(Eeprom512) == Known(512)
  {
  }

  predicate SameFamily(a: Device, b: Device) {
    || ((a == Flash512 || a == Flash1M) && (b == Flash512 || b == Flash1M))
    || ((a == Eeprom512 || a == Eeprom) && (b == Eeprom512 || b == Eeprom))
    || ((a == Sram || a == Sram512) && (b == Sram || b == Sram512))
  }

  /** `merge_savedata_type`. */
  function Merge(current: Device, restored: Device): Device {
    if current == Autodetect then restored
    else if restored == Autodetect || current == restored then current
    else if (current == Flash512 || current == Flash1M) && (restored == Flash512 || restored == Flash1M) then
      if current == Flash1M || restored == Flash1M then Flash1M else Flash512
    else if (current == Eeprom512 || current == Eeprom) && (restored == Eeprom512 || restored == Eeprom) then
      if current == Eeprom || restored == Eeprom then Eeprom else Eeprom512
    else if (current == Sram || current == Sram512) && (restored == Sram || restored == Sram512) then
      if current == Sram512 || restored == Sram512 then Sram512 else Sram
    else current
  }

  /** The devices after each of a series of restores. */
  function After(current: Device, restores: seq<Device>): Device
    decreases |restores|
  {
    if restores == [] then current else After(Merge(current, restores[0]), restores[1..])
  }

  /** Merging takes the larger device of one family and otherwise keeps a known one. */
  lemma MergeMeaning(current: Device, restored: Device)
    ensures
      var a, b, r := ExtentOf(current), ExtentOf(restored), ExtentOf(Merge(current, restored));
      && (a.Unknown? ==> r == b)
      && (a.Known? && SameFamily(current, restored) ==> b.Known? && r == Known(Max(a.size, b.size)))
      && (a.Known? && !SameFamily(current, restored) ==> r == a)
  {
  }

  /** Over any series of state restores a known extent stays known and never shrinks. */
  lemma {:induction false} RestoresNeverShrink(current: Device, restores: seq<Device>)
    ensures ExtentOf(current).Known? ==>
              ExtentOf(After(current, restores)).Known?
              && ExtentOf(After(current, restores)).size >= ExtentOf(current).size
    decreases |restores|
  {
    if restores != [] {
      MergeMeaning(current, restores[0]);
      RestoresNeverShrink(Merge(current, restores[0]), restores[1..]);
    }
  }

  lemma {:induction false} AfterSplit(current: Device, a: seq<Device>, b: seq<Device>)
    ensures After(current, a + b) == After(After(current, a), b)
    decreases |a|
  {
    if a == [] {
      assert a + b == b;
    } else {
      assert (a + b)[1..] == a[1..] + b;
      AfterSplit(Merge(current, a[0]), a[1..], b);
    }
  }

  /** Flush `k` happens after the first `at[k]` restores and sees the device they left. */
  predicate Follows(run: seq<Moment>, device: Device, restores: seq<Device>, at: seq<nat>) {
    && |at| == |run|
    && (forall k :: 0 <= k < |run|
                    ==> at[k] <= |restores| && run[k].extent == ExtentOf(After(device, restores[..at[k]])))
    && (forall j, k :: 0 <= j <= k < |run| ==> at[j] <= at[k])
  }

  lemma ExtentsGrow(run: seq<Moment>, device: Device, restores: seq<Device>, at: seq<nat>, f: nat, k: nat)
    requires Follows(run, device, restores, at) && f <= k < |run| && run[f].extent.Known?
    ensures run[k].extent.Known? && run[k].extent.size >= run[f].extent.size
  {
    var early, late := restores[..at[f]], restores[..at[k]];
    assert late == early + restores[at[f]..at[k]];
    AfterSplit(device, early, restores[at[f]..at[k]]);
    RestoresNeverShrink(After(device, early), restores[at[f]..at[k]]);
  }

  /** No save is cut in the life of a GBA cartridge: whatever states are restored between flushes,
      every write covers the loaded bytes past the extent first known, unless that tail was 0xFF. */
  lemma RestoresNeverTruncate(t: Tracking, capacity: nat, run: seq<Moment>, device: Device, restores: seq<Device>,
                              at: seq<nat>, f: nat, w: seq<byte>)
    requires Sized(t, capacity) && !t.known && t.preserved == 0
    requires Follows(run, device, restores, at) && forall i :: 0 <= i < |run| ==> Fits(run[i], capacity)
    requires f < |run| && run[f].extent.Known? && forall k :: 0 <= k < f ==> run[k].extent.Unknown?
    requires w in Writes(t, capacity, run)
    ensures |w| <= capacity == |run[f].live| && Covers(|w|, run[f].live, t.loaded, run[f].extent.size)
  {
    SplitRun(run, f);
    LaterExtents(run, device, restores, at, f);
    NoTruncation(t, capacity, run[..f], run[f], run[f + 1..], w);
  }

  lemma SplitRun(run: seq<Moment>, f: nat)
    requires f < |run|
    ensures run == run[..f] + ([run[f]] + run[f + 1..])
  {
  }

  lemma LaterExtents(run: seq<Moment>, device: Device, restores: seq<Device>, at: seq<nat>, f: nat)
    requires Follows(run, device, restores, at) && f < |run| && run[f].extent.Known?
    ensures NeverBelow(run[f + 1..], run[f].extent.size)
  {
    var rest := run[f + 1..];
    forall i | 0 <= i < |rest| && rest[i].extent.Known?
      ensures rest[i].extent.size >= run[f].extent.size
    {
      ExtentsGrow(run, device, restores, at, f, f + 1 + i);
    }
  }
}
