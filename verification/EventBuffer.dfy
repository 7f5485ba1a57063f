/** The event buffer of one link player: eight slots threaded into a queue and a free list. */
module EventBuffers {
  import opened Cycles
  import opened Lockstep

  const NULL: int := -1

  /** First slot of a list, or NULL. */
  function Head(list: seq<int>): int {
    if list == [] then NULL else list[0]
  }

  /** What the slot at position `i` of a list points to. */
  function After(list: seq<int>, i: int): int
    requires 0 <= i < |list|
  {
    if i + 1 < |list| then list[i + 1] else NULL
  }

  /** Following `next` from the head visits exactly `list`. */
  ghost predicate Threads(next: seq<int>, head: int, list: seq<int>) {
    && head == Head(list)
    && (forall i :: 0 <= i < |list| ==> 0 <= list[i] < |next|)
    && (forall i :: 0 <= i < |list| ==> next[list[i]] == After(list, i))
  }

  ghost predicate NoRepeats(list: seq<int>) {
    forall i, j :: 0 <= i < j < |list| ==> list[i] != list[j]
  }

  /** Every slot is in exactly one of the three lists, once. */
  ghost predicate Partition(queued: seq<int>, free: seq<int>, flying: seq<int>) {
    && NoRepeats(queued) && NoRepeats(free) && NoRepeats(flying)
    && (forall s :: s in queued ==> s !in free && s !in flying)
    && (forall s :: s in free ==> s !in flying)
    && (forall s :: 0 <= s < CAPACITY <==> s in queued || s in free || s in flying)
    && |queued| + |free| + |flying| == CAPACITY
  }

  predicate InRange(list: seq<int>, size: nat) {
    forall i :: 0 <= i < |list| ==> 0 <= list[i] < size
  }

  /** The events stored along a list of slots. */
  function Read(events: seq<Event>, list: seq<int>): (r: seq<Event>)
    requires InRange(list, |events|)
    ensures |r| == |list| && forall i :: 0 <= i < |list| ==> r[i] == events[list[i]]
  {
    seq(|list|, i requires 0 <= i < |list| => events[list[i]])
  }

  lemma ReadTail(events: seq<Event>, list: seq<int>)
    requires list != [] && InRange(list, |events|)
    ensures InRange(list[1..], |events|) && Read(events, list[1..]) == Read(events, list)[1..]
  {
  }

  lemma ReadSpliced(events: seq<Event>, list: seq<int>, k: nat, slot: int, e: Event)
    requires k <= |list| && 0 <= slot < |events| && InRange(list, |events|) && slot !in list
    ensures
      var r := list[..k] + [slot] + list[k..];
      && InRange(r, |events|)
      && Read(events[slot := e], r) == Read(events, list)[..k] + [e] + Read(events, list)[k..]
  {
    var r := list[..k] + [slot] + list[k..];
    assert forall i :: 0 <= i < |r| ==> r[i] == if i < k then list[i] else if i == k then slot else list[i - 1];
  }

  lemma InsertIndexUnique(q: seq<Event>, e: Event, k: nat)
    requires k <= |q|
    requires forall i :: 0 <= i < k ==> Delta(e.timestamp, q[i].timestamp) >= 0
    requires k < |q| ==> Delta(e.timestamp, q[k].timestamp) < 0
    ensures InsertIndex(q, e) == k
  {
  }

  /** The links after `slot` was threaded in at position `k` of `list`. */
  function Spliced(next: seq<int>, list: seq<int>, k: nat, slot: int): (r: seq<int>)
    requires k <= |list| && 0 <= slot < |next| && (forall i :: 0 <= i < |list| ==> 0 <= list[i] < |next|)
    ensures |r| == |next|
  {
    var pointed := next[slot := if k < |list| then list[k] else NULL];
    if k == 0 then pointed else pointed[list[k - 1] := slot]
  }

  /** Position by position, a list with `slot` spliced in at `k`. */
  lemma SplicedAt(list: seq<int>, k: nat, slot: int, i: nat)
    requires k <= |list| && i <= |list|
    ensures (list[..k] + [slot] + list[k..])[i] == if i < k then list[i] else if i == k then slot else list[i - 1]
  {
  }

  lemma SpliceLink(next: seq<int>, list: seq<int>, k: nat, slot: int, i: nat)
    requires k <= |list| && 0 <= slot < |next| && slot !in list && NoRepeats(list) && Threads(next, Head(list), list)
    requires i <= |list|
    ensures
      var r := list[..k] + [slot] + list[k..];
      0 <= r[i] < |next| && Spliced(next, list, k, slot)[r[i]] == After(r, i)
  {
    SplicedAt(list, k, slot, i);
    if i < |list| {
      SplicedAt(list, k, slot, i + 1);
    }
    if i < k {
      assert i < k - 1 ==> list[i] != list[k - 1];
      assert list[i] in list;
    } else if i > k {
      assert k > 0 ==> list[k - 1] != list[i - 1];
      assert list[i - 1] in list;
    } else if k > 0 {
      assert list[k - 1] in list;
    }
  }

  lemma SpliceThreads(next: seq<int>, list: seq<int>, k: nat, slot: int)
    requires k <= |list| && 0 <= slot < |next| && slot !in list && NoRepeats(list) && Threads(next, Head(list), list)
    ensures
      var r := list[..k] + [slot] + list[k..];
      Threads(Spliced(next, list, k, slot), Head(r), r)
  {
    var r := list[..k] + [slot] + list[k..];
    forall i | 0 <= i < |r| ensures 0 <= r[i] < |next| && Spliced(next, list, k, slot)[r[i]] == After(r, i) {
      SpliceLink(next, list, k, slot, i);
    }
  }

  /** Threading a free slot into the queue leaves the rest of the free list alone. */
  lemma SpliceKeepsOther(next: seq<int>, list: seq<int>, k: nat, slot: int, other: seq<int>)
    requires k <= |list| && 0 <= slot < |next| && (forall i :: 0 <= i < |list| ==> 0 <= list[i] < |next|)
    requires NoRepeats(other) && other != [] && other[0] == slot && (forall s :: s in list ==> s !in other)
    requires Threads(next, Head(other), other)
    ensures Threads(Spliced(next, list, k, slot), Head(other[1..]), other[1..])
    ensures Head(other[1..]) == next[slot]
  {
    var rest := other[1..];
    var next' := Spliced(next, list, k, slot);
    forall i | 0 <= i < |rest| ensures next'[rest[i]] == After(rest, i) {
      assert rest[i] == other[i + 1] && other[0] != other[i + 1];
      assert rest[i] in other;
      assert k > 0 ==> list[k - 1] in list;
      assert next'[rest[i]] == next[rest[i]];
      assert i + 1 < |rest| ==> rest[i + 1] == other[i + 2];
    }
  }

  lemma SplicePartition(queued: seq<int>, free: seq<int>, flying: seq<int>, k: nat)
    requires Partition(queued, free, flying) && free != [] && k <= |queued|
    ensures Partition(queued[..k] + [free[0]] + queued[k..], free[1..], flying)
  {
    var slot := free[0];
    var r, rest := queued[..k] + [slot] + queued[k..], free[1..];
    assert queued == queued[..k] + queued[k..];
    assert forall s :: s in r <==> s == slot || s in queued;
    assert free == [slot] + rest;
    assert slot !in rest by { assert forall i :: 0 <= i < |rest| ==> rest[i] == free[i + 1]; }
    forall i, j | 0 <= i < j < |r| ensures r[i] != r[j] {
      assert slot !in queued;
      var a := if i < k then i else i - 1;
      var b := if j < k then j else j - 1;
      assert i != k ==> r[i] == queued[a];
      assert j != k ==> r[j] == queued[b];
    }
  }

  /** The links and heads realise the three lists. */
  ghost predicate Laid(next: seq<int>, queue: int, freeList: int, queued: seq<int>, free: seq<int>, flying: seq<int>) {
    Partition(queued, free, flying) && Threads(next, queue, queued) && Threads(next, freeList, free)
  }

  lemma SpliceAll(next: seq<int>, events: seq<Event>, queue: int, freeList: int,
                  queued: seq<int>, free: seq<int>, flying: seq<int>, k: nat, e: Event)
    requires |next| == CAPACITY && |events| == CAPACITY && free != [] && k <= |queued|
    requires Laid(next, queue, freeList, queued, free, flying)
    ensures freeList == free[0] && queue == Head(queued)
    ensures 0 <= freeList < CAPACITY && freeList !in queued && InRange(queued, CAPACITY)
    ensures
      var r, next' := queued[..k] + [freeList] + queued[k..], Spliced(next, queued, k, freeList);
      && InRange(r, CAPACITY)
      && Laid(next', Head(r), next[freeList], r, free[1..], flying)
      && Read(events[freeList := e], r) == Read(events, queued)[..k] + [e] + Read(events, queued)[k..]
  {
    assert free[0] in free;
    SpliceThreads(next, queued, k, free[0]);
    SpliceKeepsOther(next, queued, k, free[0], free);
    SplicePartition(queued, free, flying, k);
    ReadSpliced(events, queued, k, free[0], e);
  }

  lemma TailThreads(next: seq<int>, list: seq<int>)
    requires list != [] && Threads(next, Head(list), list)
    ensures Threads(next, next[list[0]], list[1..])
  {
    var rest := list[1..];
    forall i | 0 <= i < |rest| ensures next[rest[i]] == After(rest, i) {
      assert rest[i] == list[i + 1];
    }
  }

  lemma TakePartition(queued: seq<int>, free: seq<int>)
    requires queued != [] && Partition(queued, free, [])
    ensures Partition(queued[1..], free, [queued[0]])
  {
    var rest := queued[1..];
    assert queued == [queued[0]] + rest;
    assert queued[0] !in rest by { assert forall i :: 0 <= i < |rest| ==> rest[i] == queued[i + 1]; }
    assert NoRepeats(rest);
  }

  lemma PushThreads(next: seq<int>, queued: seq<int>, free: seq<int>, slot: int)
    requires 0 <= slot < |next| && slot !in queued && slot !in free
    requires Threads(next, Head(queued), queued) && Threads(next, Head(free), free)
    ensures Threads(next[slot := Head(free)], Head(queued), queued)
    ensures Threads(next[slot := Head(free)], slot, [slot] + free)
  {
    var next' := next[slot := Head(free)];
    var pushed := [slot] + free;
    forall i | 0 <= i < |pushed| ensures 0 <= pushed[i] < |next'| && next'[pushed[i]] == After(pushed, i) {
      assert i > 0 ==> pushed[i] == free[i - 1];
    }
  }

  lemma PushPartition(queued: seq<int>, free: seq<int>, slot: int)
    requires Partition(queued, free, [slot])
    ensures Partition(queued, [slot] + free, [])
  {
    assert slot in [slot];
    assert forall s :: s in [slot] + free <==> s == slot || s in free;
  }

  /** The event buffer embedded in a player: eight slots with their events and links, the heads of
      queue and free list, and the counted depth. The ghost fields name the slots of the three lists
      and the queued events, first to last. */
  datatype SlotTable = SlotTable(
    events: seq<Event>, next: seq<int>, queue: int, freeList: int, depth: nat,
    ghost queued: seq<int>, ghost free: seq<int>, ghost flying: seq<int>, ghost contents: seq<Event>)

  /** Queue, free list and at most one slot in flight partition the eight slots, the links realise
      the lists, and the depth counts the queued and the one in flight. */
  ghost predicate Sound(s: SlotTable) {
    && |s.events| == CAPACITY && |s.next| == CAPACITY && |s.flying| <= 1
    && Laid(s.next, s.queue, s.freeList, s.queued, s.free, s.flying)
    && s.depth == |s.queued| + |s.flying|
    && InRange(s.queued, CAPACITY) && s.contents == Read(s.events, s.queued)
  }

  /** All eight slots on the free list, in order. */
  function AllFree(): SlotTable {
    SlotTable(seq(CAPACITY, _ => Event(Attach, 0, 0)), seq(CAPACITY, i => if i + 1 < CAPACITY then i + 1 else NULL),
              NULL, 0, 0, [], seq(CAPACITY, i => i), [], [])
  }

  lemma EverySlotFree(list: seq<int>)
    requires |list| == CAPACITY && forall i :: 0 <= i < CAPACITY ==> list[i] == i
    ensures Partition([], list, [])
  {
    forall x ensures 0 <= x < CAPACITY <==> x in list {
      if 0 <= x < CAPACITY {
        assert list[x] == x;
      }
    }
  }

  lemma EverySlotThreaded(next: seq<int>, list: seq<int>)
    requires |list| == |next| == CAPACITY && forall i :: 0 <= i < CAPACITY ==> list[i] == i
    requires forall i :: 0 <= i < CAPACITY ==> next[i] == if i + 1 < CAPACITY then i + 1 else NULL
    ensures Threads(next, 0, list)
  {
    forall i | 0 <= i < |list| ensures next[list[i]] == After(list, i) {
      assert list[i] == i;
    }
  }

  lemma AllFreeSound()
    ensures Sound(AllFree())
  {
    EverySlotFree(AllFree().free);
    EverySlotThreaded(AllFree().next, AllFree().free);
  }

  /** A slot lies in exactly one of the three lists. */
  ghost predicate InOneList(s: SlotTable, slot: int) {
    && (slot in s.queued || slot in s.free || slot in s.flying)
    && (slot in s.queued ==> slot !in s.free && slot !in s.flying)
    && (slot in s.free ==> slot !in s.flying)
  }

  /** What a sound table says apart from where its slots lie. */
  ghost predicate Linked(s: SlotTable) {
    && |s.events| == CAPACITY && |s.next| == CAPACITY && |s.flying| <= 1
    && NoRepeats(s.queued) && NoRepeats(s.free)
    && InRange(s.queued, CAPACITY) && InRange(s.free, CAPACITY) && InRange(s.flying, CAPACITY)
    && Threads(s.next, s.queue, s.queued) && Threads(s.next, s.freeList, s.free)
    && |s.queued| + |s.free| + |s.flying| == CAPACITY && s.depth == |s.queued| + |s.flying|
    && s.contents == Read(s.events, s.queued)
  }

  /** Soundness, slot by slot. */
  ghost predicate SlotBySlot(s: SlotTable, n: nat) {
    if n == 0 then Linked(s) else InOneList(s, n - 1) && SlotBySlot(s, n - 1)
  }

  lemma {:induction false} SlotsInLists(s: SlotTable, n: nat)
    ensures SlotBySlot(s, n) <==> Linked(s) && forall x :: 0 <= x < n ==> InOneList(s, x)
  {
    if n > 0 {
      SlotsInLists(s, n - 1);
      assert (forall x :: 0 <= x < n ==> InOneList(s, x)) <==>
             InOneList(s, n - 1) && forall x :: 0 <= x < n - 1 ==> InOneList(s, x);
    }
  }

  lemma SoundSlotBySlot(s: SlotTable)
    ensures Sound(s) <==> SlotBySlot(s, CAPACITY)
  {
    SlotsInLists(s, CAPACITY);
    if Sound(s) {
      SoundIsLinked(s);
    }
    if SlotBySlot(s, CAPACITY) {
      LinkedIsSound(s);
    }
  }

  lemma SoundIsLinked(s: SlotTable)
    requires Sound(s)
    ensures Linked(s) && forall x :: 0 <= x < CAPACITY ==> InOneList(s, x)
  {
    assert forall i :: 0 <= i < |s.flying| ==> s.flying[i] in s.flying;
  }

  lemma LinkedIsSound(s: SlotTable)
    requires Linked(s) && forall x :: 0 <= x < CAPACITY ==> InOneList(s, x)
    ensures Sound(s)
  {
    forall x ensures 0 <= x < CAPACITY <==> x in s.queued || x in s.free || x in s.flying {
      if 0 <= x < CAPACITY {
        assert InOneList(s, x);
      }
    }
    forall x | x in s.queued ensures x !in s.free && x !in s.flying {
      assert InOneList(s, x);
    }
    forall x | x in s.free ensures x !in s.flying {
      assert InOneList(s, x);
    }
  }

  lemma AllFreeSlotBySlot()
    ensures SlotBySlot(AllFree(), CAPACITY)
  {
    AllFreeSound();
    SoundSlotBySlot(AllFree());
  }

  /** An event buffer in order. Every player always holds one. */
  type Slots = s: SlotTable | SlotBySlot(s, CAPACITY) ghost witness (AllFreeSlotBySlot(); AllFree())

  lemma QueueHead(s: Slots)
    ensures s.queue != NULL <==> s.contents != []
    ensures s.contents != [] ==> 0 <= s.queue < CAPACITY && |s.events| == CAPACITY && s.contents[0] == s.events[s.queue]
  {
    SoundSlotBySlot(s);
  }

  /** All eight slots free, in order. */
  method EmptySlots() returns (r: Slots)
    ensures r.contents == [] && r.queued == [] && |r.free| == CAPACITY && r.flying == [] && r.depth == 0
  {
    AllFreeSlotBySlot();
    r := AllFree();
  }

  function HasEvent(s: Slots): (b: bool)
    ensures b == (s.contents != [])
  {
    QueueHead(s);
    s.queue != NULL
  }

  function FirstEvent(s: Slots): (e: Event)
    requires HasEvent(s)
    ensures s.contents != [] && e == s.contents[0]
  {
    QueueHead(s);
    s.events[s.queue]
  }

  /** Walks the queue past everything that is not later than `e`. */
  method FindPlace(s: Slots, e: Event) returns (previous: int, cursor: int, ghost k: nat)
    ensures k == InsertIndex(s.contents, e) && k <= |s.queued|
    ensures cursor == if k < |s.queued| then s.queued[k] else NULL
    ensures previous == if k > 0 then s.queued[k - 1] else NULL
  {
    SoundSlotBySlot(s);
    previous, cursor, k := NULL, s.queue, 0;
    while cursor != NULL && Delta(e.timestamp, s.events[cursor].timestamp) >= 0
      invariant 0 <= k <= |s.queued|
      invariant cursor == if k < |s.queued| then s.queued[k] else NULL
      invariant previous == if k > 0 then s.queued[k - 1] else NULL
      invariant forall i :: 0 <= i < k ==> Delta(e.timestamp, s.contents[i].timestamp) >= 0
      decreases |s.queued| - k
    {
      assert s.contents[k] == s.events[cursor];
      previous := cursor;
      cursor := s.next[cursor];
      k := k + 1;
    }
    assert k < |s.queued| ==> s.contents[k] == s.events[cursor];
    InsertIndexUnique(s.contents, e, k);
  }

  /** The links after `slot` was threaded in between `previous` and `cursor`. */
  method ThreadSlot(next: seq<int>, slot: int, previous: int, cursor: int, ghost list: seq<int>, ghost k: nat)
    returns (r: seq<int>)
    requires k <= |list| && 0 <= slot < |next| && (forall i :: 0 <= i < |list| ==> 0 <= list[i] < |next|)
    requires cursor == if k < |list| then list[k] else NULL
    requires previous == if k > 0 then list[k - 1] else NULL
    ensures r == Spliced(next, list, k, slot)
  {
    r := next[slot := cursor];
    if previous != NULL {
      r := r[previous := slot];
    }
  }

  /** Takes the first free slot and links it in between `previous` and `cursor`. */
  method LinkIn(s: Slots, e: Event, previous: int, cursor: int, ghost k: nat) returns (r: Slots)
    requires s.free != [] && k <= |s.queued| && k <= |s.contents|
    requires cursor == if k < |s.queued| then s.queued[k] else NULL
    requires previous == if k > 0 then s.queued[k - 1] else NULL
    ensures r.contents == s.contents[..k] + [e] + s.contents[k..]
    ensures r.queued == s.queued[..k] + [s.freeList] + s.queued[k..]
    ensures r.free == s.free[1..] && r.flying == s.flying && r.depth == s.depth + 1
  {
    SoundSlotBySlot(s);
    SplicedSound(s, k, e);
    ghost var after := SpliceTable(s, k, e);
    var slot := s.freeList;
    var next := ThreadSlot(s.next, slot, previous, cursor, s.queued, k);
    SpliceHead(s.queued, k, slot);
    var queue := if previous == NULL then slot else s.queue;
    SoundSlotBySlot(after);
    r := SlotTable(s.events[slot := e], next, queue, s.next[slot], s.depth + 1,
                   after.queued, after.free, after.flying, after.contents);
  }

  lemma SpliceHead(list: seq<int>, k: nat, slot: int)
    requires k <= |list|
    ensures Head(list[..k] + [slot] + list[k..]) == if k == 0 then slot else Head(list)
  {
  }

  /** The table after an event was linked in at position `k`. */
  ghost function SpliceTable(s: SlotTable, k: nat, e: Event): SlotTable
    requires Sound(s) && s.free != [] && k <= |s.queued| && 0 <= s.freeList < CAPACITY
  {
    var list := s.queued[..k] + [s.freeList] + s.queued[k..];
    SlotTable(s.events[s.freeList := e], Spliced(s.next, s.queued, k, s.freeList), Head(list), s.next[s.freeList],
              s.depth + 1,
              list, s.free[1..], s.flying, s.contents[..k] + [e] + s.contents[k..])
  }

  lemma SplicedSound(s: SlotTable, k: nat, e: Event)
    requires Sound(s) && s.free != [] && k <= |s.queued|
    ensures 0 <= s.freeList < CAPACITY && s.freeList !in s.queued && s.queue == Head(s.queued)
    ensures Sound(SpliceTable(s, k, e))
  {
    SpliceAll(s.next, s.events, s.queue, s.freeList, s.queued, s.free, s.flying, k, e);
  }

  /** Queues an event before the first later one, if a slot is free. */
  method Enqueue(s: Slots, e: Event) returns (ok: bool, r: Slots)
    ensures ok == (s.free != []) && r.flying == s.flying
    ensures ok ==> r.contents == Insert(s.contents, e) && r.free == s.free[1..] && r.depth == s.depth + 1
    ensures !ok ==> r == s
  {
    SoundSlotBySlot(s);
    ok, r := s.freeList != NULL, s;
    assert s.free != [] ==> s.free[0] in s.free;
    if ok {
      var previous, cursor, k := FindPlace(s, e);
      r := LinkIn(s, e, previous, cursor, k);
    }
  }

  /** Unlinks the first event; its slot is in flight until it is released. */
  method TakeHead(s: Slots) returns (slot: int, e: Event, r: Slots)
    requires s.flying == [] && s.contents != []
    ensures r.flying == [slot] && e == s.contents[0]
    ensures r.contents == s.contents[1..] && r.free == s.free && r.depth == s.depth
  {
    QueueHead(s);
    SoundSlotBySlot(s);
    slot := s.queue;
    e := s.events[slot];
    TailThreads(s.next, s.queued);
    TakePartition(s.queued, s.free);
    ReadTail(s.events, s.queued);
    var table := SlotTable(s.events, s.next, s.next[slot], s.freeList, s.depth, s.queued[1..], s.free, [slot],
                           s.contents[1..]);
    SoundSlotBySlot(table);
    r := table;
  }

  /** Puts the slot in flight on the free list. */
  method Release(s: Slots, slot: int) returns (r: Slots)
    requires s.flying == [slot]
    ensures r.flying == [] && r.contents == s.contents && |r.free| == |s.free| + 1
    ensures s.depth > 0 && r.depth == s.depth - 1
  {
    SoundSlotBySlot(s);
    assert slot in s.flying;
    PushThreads(s.next, s.queued, s.free, slot);
    PushPartition(s.queued, s.free, slot);
    var table := SlotTable(s.events, s.next[slot := s.freeList], s.queue, slot, s.depth - 1,
                           s.queued, [slot] + s.free, [], s.contents);
    SoundSlotBySlot(table);
    r := table;
  }

  /** Rebuilds the buffer from saved events, each linked behind the last. */
  method LoadSlots(events: seq<Event>) returns (r: Slots)
    requires |events| <= CAPACITY
    ensures r.contents == events && r.flying == [] && r.depth == |events| && |r.free| == CAPACITY - |events|
  {
    r := EmptySlots();
    var last := NULL;
    for i := 0 to |events|
      invariant r.contents == events[..i] && r.flying == [] && r.depth == i && |r.free| == CAPACITY - i
      invariant |r.queued| == i && last == if i > 0 then r.queued[i - 1] else NULL
    {
      var slot := r.freeList;
      r := LinkIn(r, events[i], last, NULL, i);
      last := slot;
    }
  }

  /** Walks the queue and collects its events. */
  method QueuedEvents(s: Slots) returns (q: seq<Event>)
    ensures q == s.contents
  {
    SoundSlotBySlot(s);
    q := [];
    var cursor := s.queue;
    while |q| < CAPACITY && cursor != NULL
      invariant |q| <= |s.contents| && q == s.contents[..|q|]
      invariant cursor == if |q| < |s.queued| then s.queued[|q|] else NULL
      decreases CAPACITY - |q|
    {
      q := q + [s.events[cursor]];
      cursor := s.next[cursor];
    }
  }
}
