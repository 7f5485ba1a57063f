/** Transactional restore of a paired savestate over an engine that may fail at any call. */
module StateRestore {
  import opened Wrappers
  import opened Bytes
  import opened StateContainer
  import opened StateWriter

  /** What an emulator pair serialises, apart from its battery memory. */
  datatype PairState = PairState(machine0: seq<byte>, machine1: seq<byte>, link: seq<byte>, joined: bool)

  function StateOf(p: Payload): PairState {
    PairState(p.machine0, p.machine1, p.link, p.linkEnabled)
  }

  function PayloadOf(s: PairState, linkEnabled: bool): Payload {
    Payload(s.machine0, s.machine1, s.link, linkEnabled)
  }

  /** The bytes are a savestate padded with zeros. */
  predicate WrittenAs(bytes: seq<byte>, id: Identity, p: Payload) {
    Total(p) <= |bytes| && bytes == Encode(id, p) + Zeros(|bytes| - Total(p))
  }

  /** `dualboy_state_size` of a usable session: zero when the sum of the capacities overflows. */
  function StateSize(caps: Capacities): nat {
    if Bound(caps) < SIZE_LIMIT then Bound(caps) else 0
  }

  /** The reported size holds the largest savestate that the capacities allow, exactly when their sum does
      not overflow. */
  lemma SizeHoldsLargest(caps: Capacities) returns (largest: PairState)
    requires caps.machine0 > 0 && caps.machine1 > 0
    ensures Storable(largest, caps) && Total(PayloadOf(largest, false)) == Bound(caps)
    ensures forall s: PairState :: Storable(s, caps) ==> Total(PayloadOf(s, false)) <= Bound(caps)
    ensures Total(PayloadOf(largest, false)) <= StateSize(caps) <==> Bound(caps) < SIZE_LIMIT
  {
    largest := PairState(Zeros(caps.machine0), Zeros(caps.machine1), Zeros(caps.link), false);
  }

  /** The state fits the buffer, either because the size test says so or because it happens to. */
  predicate Room(caps: Capacities, s: PairState, link: bool, length: nat) {
    Bound(caps) < SIZE_LIMIT || Total(PayloadOf(s, link)) <= length
  }

  lemma RoomSuffices(caps: Capacities, s: PairState, link: bool, length: nat)
    requires Room(caps, s, link, length) && StateSize(caps) <= length && Storable(s, caps)
    ensures Total(PayloadOf(s, link)) <= length
  {
  }

  /** The buffer size that a savestate within the capacities may need. */
  function Bound(caps: Capacities): nat {
    HEADER + caps.machine0 + caps.machine1 + caps.link
  }

  datatype Call =
    | SerializeMachine(second: bool)
    | SerializeLink
    | SetLink(enabled: bool)
    | UnserializeMachine(second: bool, data: seq<byte>)
    | UnserializeLink(data: seq<byte>)

  /** How the engine answers a call: its verdict, and what it leaves wherever it is free to. */
  datatype Reaction = Reaction(ok: bool, state: PairState, battery: seq<seq<byte>>)

  /** The state the engine would serialise now fits the reported capacities. */
  predicate Storable(s: PairState, caps: Capacities) {
    && caps.machine0 > 0 && |s.machine0| <= caps.machine0
    && caps.machine1 > 0 && |s.machine1| <= caps.machine1
    && |s.link| <= caps.link
  }

  /** The engine contract: reading changes nothing, a failed change leaves anything, a successful
      one sets its own part, and only `set_link` may touch both machines. */
  function Effect(s: PairState, call: Call, r: Reaction): PairState {
    match call
    case SetLink(enabled) => if r.ok then r.state.(joined := enabled) else r.state
    case UnserializeMachine(second, data) =>
      if !r.ok then r.state
      else if second then s.(machine1 := data, link := r.state.link)
      else s.(machine0 := data, link := r.state.link)
    case UnserializeLink(data) => if r.ok then s.(link := data) else r.state
    case _ => s
  }

  predicate Changes(call: Call) {
    call.SetLink? || call.UnserializeMachine? || call.UnserializeLink?
  }

  /** Battery regions keep their place and size; a changing call may leave any bytes in them. */
  function Scribbled(battery: seq<seq<byte>>, noise: seq<seq<byte>>): (r: seq<seq<byte>>)
    ensures |r| == |battery| && forall i :: 0 <= i < |r| ==> |r[i]| == |battery[i]|
  {
    seq(|battery|, i requires 0 <= i < |battery| =>
      if i < |noise| && |noise[i]| == |battery[i]| then noise[i] else battery[i])
  }

  /** Every region that the engine exposes has the bytes it had. */
  predicate Protected(before: seq<seq<byte>>, after: seq<seq<byte>>, hidden: set<nat>) {
    |before| == |after| && forall i :: 0 <= i < |after| && i !in hidden ==> after[i] == before[i]
  }

  /** A copy of every exposed region among the first ones. */
  predicate CopyOf(copies: seq<Option<seq<byte>>>, battery: seq<seq<byte>>, hidden: set<nat>) {
    && |copies| <= |battery|
    && forall i :: 0 <= i < |copies| ==> copies[i] == if i in hidden then None else Some(battery[i])
  }

  /** The calls that put a state into the engine, in order. */
  function Restoring(link: bool, machine0: seq<byte>, machine1: seq<byte>, linkState: seq<byte>): seq<Call> {
    [SetLink(link), UnserializeMachine(false, machine0), UnserializeMachine(true, machine1), UnserializeLink(linkState)]
  }

  class Engine {
    var state: PairState
    var battery: seq<seq<byte>>
    /** Calls made so far; the next one is answered by `script(calls)`. */
    var calls: nat
    /** Changing calls that failed so far. */
    ghost var failures: nat
    /** Reading calls that failed so far. */
    ghost var refusals: nat
    /** All state calls so far, in order. */
    ghost var trace: seq<Call>
    const script: nat -> Reaction
    /** Regions that the engine does not expose. */
    const hidden: set<nat>

    constructor (start: PairState, regions: seq<seq<byte>>, unexposed: set<nat>, behaviour: nat -> Reaction)
      ensures state == start && battery == regions && hidden == unexposed && script == behaviour
      ensures calls == failures == refusals == 0
    {
      state, battery, hidden, script, calls, failures, refusals := start, regions, unexposed, behaviour, 0, 0, 0;
      trace := [];
    }

    /** Asks for a region: it may not be exposed, or exposed in a way that cannot be copied. */
    method MemoryInfo(i: nat) returns (exposed: bool, ok: bool)
      modifies this`calls, this`refusals
      ensures exposed == (i !in hidden) && calls == old(calls) + 1
      ensures !exposed ==> ok
      ensures refusals == old(refusals) + if ok then 0 else 1
    {
      exposed := i !in hidden;
      ok := !exposed || script(calls).ok;
      calls := calls + 1;
      refusals := if ok then refusals else refusals + 1;
    }

    method Invoke(call: Call) returns (ok: bool)
      modifies this
      ensures ok == script(old(calls)).ok && calls == old(calls) + 1 && trace == old(trace) + [call]
      ensures failures == if Changes(call) && !ok then old(failures) + 1 else old(failures)
      ensures refusals == if Changes(call) || ok then old(refusals) else old(refusals) + 1
      ensures state == Effect(old(state), call, script(old(calls)))
      ensures battery == if Changes(call) then Scribbled(old(battery), script(old(calls)).battery) else old(battery)
    {
      var reaction := script(calls);
      ok := reaction.ok;
      state := Effect(state, call, reaction);
      battery := if Changes(call) then Scribbled(battery, reaction.battery) else battery;
      failures := if Changes(call) && !ok then failures + 1 else failures;
      refusals := if Changes(call) || ok then refusals else refusals + 1;
      calls, trace := calls + 1, trace + [call];
    }

    method WriteRegion(i: nat, bytes: seq<byte>)
      requires i < |battery|
      modifies this`battery
      ensures battery == old(battery)[i := bytes]
    {
      battery := battery[i := bytes];
    }
  }

  method WriteState(buffer: array<byte>, id: Identity, p: Payload)
    requires Total(p) <= buffer.Length
    modifies buffer
    ensures WrittenAs(buffer[..], id, p)
  {
    Serialize(buffer, id, p);
  }

  datatype RestoreResult = RestoreOk | RestoreRejected | RestoreFatal

  class Session {
    const id: Identity
    const caps: Capacities
    /** The engine offers every state operation. */
    const complete: bool
    const engine: Engine
    var loaded: bool
    var linkEnabled: bool

    constructor (identity: Identity, capacities: Capacities, operations: bool, pair: Engine, link: bool)
      ensures id == identity && caps == capacities && complete == operations && engine == pair && linkEnabled == link
              && loaded
    {
      id, caps, complete, engine, linkEnabled, loaded := identity, capacities, operations, pair, link, true;
    }

    predicate Usable()
      reads this
    {
      loaded && complete && caps.machine0 > 0 && caps.machine1 > 0
    }

    /** `dualboy_state_serialize` on this session. */
    method Save(buffer: array<byte>) returns (ok: bool)
      requires Room(caps, engine.state, linkEnabled, buffer.Length)
      modifies engine, buffer
      ensures engine.state == old(engine.state) && engine.battery == old(engine.battery)
      ensures ok <==>
              && Usable() && StateSize(caps) <= buffer.Length
              && engine.refusals == old(engine.refusals) && Storable(engine.state, caps)
      ensures ok ==> WrittenAs(buffer[..], id, PayloadOf(engine.state, linkEnabled))
    {
      ok := false;
      if Usable() && StateSize(caps) <= buffer.Length {
        var snapshot;
        ok, snapshot := Snapshot();
        if ok {
          RoomSuffices(caps, snapshot, linkEnabled, buffer.Length);
          WriteState(buffer, id, PayloadOf(snapshot, linkEnabled));
        }
      }
    }

    method Snapshot() returns (ok: bool, snapshot: PairState)
      modifies engine
      ensures engine.state == old(engine.state) && engine.battery == old(engine.battery)
      ensures engine.failures == old(engine.failures) && engine.calls > old(engine.calls)
      ensures engine.refusals >= old(engine.refusals)
      ensures ok <==> engine.refusals == old(engine.refusals) && Storable(engine.state, caps)
      ensures ok ==> snapshot == old(engine.state)
      ensures ok ==>
                engine.trace == old(engine.trace) + [SerializeMachine(false), SerializeMachine(true), SerializeLink]
    {
      snapshot := engine.state;
      var done := engine.Invoke(SerializeMachine(false));
      ok := caps.machine0 > 0 && done && |snapshot.machine0| <= caps.machine0;
      if ok {
        done := engine.Invoke(SerializeMachine(true));
        ok := caps.machine1 > 0 && done && |snapshot.machine1| <= caps.machine1;
      }
      if ok {
        done := engine.Invoke(SerializeLink);
        ok := done && |snapshot.link| <= caps.link;
      }
    }

    /** Copies every exposed battery region, skipping the others; a failure leaves only the first few. */
    method CopyBattery() returns (ok: bool, copies: seq<Option<seq<byte>>>)
      modifies engine
      ensures engine.state == old(engine.state) && engine.battery == old(engine.battery)
      ensures engine.failures == old(engine.failures) && engine.calls >= old(engine.calls)
      ensures CopyOf(copies, engine.battery, engine.hidden) && (ok ==> |copies| == |engine.battery|)
      ensures engine.trace == old(engine.trace)
      ensures engine.refusals == old(engine.refusals) + if ok then 0 else 1
    {
      ok, copies := true, [];
      while ok && |copies| < |engine.battery|
        invariant engine.state == old(engine.state) && engine.battery == old(engine.battery)
        invariant engine.failures == old(engine.failures) && engine.calls >= old(engine.calls)
        invariant engine.refusals == old(engine.refusals) + if ok then 0 else 1
        invariant CopyOf(copies, engine.battery, engine.hidden) && engine.trace == old(engine.trace)
        decreases |engine.battery| - |copies|, ok
      {
        var exposed;
        exposed, ok := engine.MemoryInfo(|copies|);
        if ok {
          copies := copies + [if exposed then Some(engine.battery[|copies|]) else None];
        }
      }
    }

    method RestoreBattery(copies: seq<Option<seq<byte>>>)
      requires |copies| <= |engine.battery|
      modifies engine`battery
      ensures |engine.battery| == |old(engine.battery)|
      ensures forall i :: 0 <= i < |engine.battery| ==>
                            engine.battery[i] == if i < |copies| && copies[i].Some? then copies[i].value
                            else old(engine.battery)[i]
    {
      for i := 0 to |copies|
        invariant |engine.battery| == |old(engine.battery)|
        invariant forall k :: 0 <= k < |engine.battery| ==>
                                engine.battery[k] == if k < i && copies[k].Some? then copies[k].value
                                else old(engine.battery)[k]
      {
        if copies[i].Some? {
          engine.WriteRegion(i, copies[i].value);
        }
      }
    }

    /** Hands the payload to the engine, stopping at the first refusal. */
    method Apply(p: Payload) returns (ok: bool)
      modifies engine, this`linkEnabled
      ensures engine.failures == old(engine.failures) + if ok then 0 else 1
      ensures engine.calls > old(engine.calls) && |engine.battery| == |old(engine.battery)|
      ensures ok ==> engine.state == StateOf(p)
      ensures linkEnabled == if ok then p.linkEnabled else old(linkEnabled)
      ensures engine.refusals == old(engine.refusals)
      // The link flag first, then the machines and the link state, up to the first refusal.
      ensures
        var all := old(engine.trace) + Restoring(p.linkEnabled, p.machine0, p.machine1, p.link);
        engine.trace <= all && (ok ==> engine.trace == all)
    {
      ok := engine.Invoke(SetLink(p.linkEnabled));
      if ok { ok := engine.Invoke(UnserializeMachine(false, p.machine0)); }
      if ok { ok := engine.Invoke(UnserializeMachine(true, p.machine1)); }
      if ok { ok := engine.Invoke(UnserializeLink(p.link)); }
      linkEnabled := if ok then p.linkEnabled else linkEnabled;
    }

    /** Puts the snapshot back, attempting every step even after one has failed. */
    method Rollback(snapshot: PairState, link: bool) returns (ok: bool)
      modifies engine, this`linkEnabled
      ensures engine.calls == old(engine.calls) + 4 && engine.failures >= old(engine.failures)
      ensures ok <==> engine.failures == old(engine.failures)
      ensures ok ==> engine.state == snapshot.(joined := link)
      ensures engine.refusals == old(engine.refusals)
      ensures linkEnabled == link && |engine.battery| == |old(engine.battery)|
      ensures engine.trace
           == old(engine.trace) + Restoring(link, snapshot.machine0, snapshot.machine1, snapshot.link)
    {
      var a := engine.Invoke(SetLink(link));
      var b := engine.Invoke(UnserializeMachine(false, snapshot.machine0));
      var c := engine.Invoke(UnserializeMachine(true, snapshot.machine1));
      var d := engine.Invoke(UnserializeLink(snapshot.link));
      linkEnabled := link;
      ok := a && b && c && d;
    }

    /** The part of a restore after the savestate was read. A restore that applies makes no failing
        change; one that is rejected after it started makes one; a fatal one makes another during
        rollback. */
    method Transact(parsed: Parsed) returns (r: RestoreResult)
      modifies engine, this`linkEnabled
      // An unusable session or an unacceptable savestate reaches no engine call.
      ensures old(engine.calls) <= engine.calls
      ensures engine.calls == old(engine.calls) <==>
              !(loaded && complete && caps.machine0 > 0 && caps.machine1 > 0) || parsed == Rejected
      ensures !Usable() || parsed == Rejected ==> r == RestoreRejected && engine.failures == old(engine.failures)
      // Success is exactly the encoded machines, link state and flag.
      ensures r == RestoreOk ==> Usable() && parsed.Accepted? && engine.state == StateOf(parsed.payload)
      ensures r == RestoreOk ==> linkEnabled == engine.state.joined && engine.failures == old(engine.failures)
      ensures (Usable() && parsed.Accepted? && Storable(old(engine.state), caps)
               && engine.failures == old(engine.failures) && engine.refusals == old(engine.refusals)) ==> r == RestoreOk
      // A rejection leaves everything as it was.
      ensures r == RestoreRejected ==> linkEnabled == old(linkEnabled)
      ensures r == RestoreRejected ==>
                engine.state == if engine.failures == old(engine.failures) then old(engine.state)
                else old(engine.state).(joined := linkEnabled)
      // Only a failed rollback call is fatal.
      ensures old(engine.failures) <= engine.failures
      ensures r == RestoreFatal <==> engine.failures > old(engine.failures) + 1
      // Exposed battery memory never changes.
      ensures Protected(old(engine.battery), engine.battery, engine.hidden)
    {
      if !Usable() || parsed.Rejected? {
        r := RestoreRejected;
        return;
      }
      var ok, snapshot := Snapshot();
      var copies: seq<Option<seq<byte>>> := [];
      if ok {
        ok, copies := CopyBattery();
      }
      if !ok {
        RestoreBattery(copies);
        r := RestoreRejected;
        return;
      }
      var link := linkEnabled;
      ok := Apply(parsed.payload);
      var undone := true;
      if !ok {
        undone := Rollback(snapshot, link);
      }
      RestoreBattery(copies);
      r := if ok then RestoreOk else if undone then RestoreRejected else RestoreFatal;
    }

    /** `dualboy_state_unserialize_ex`. */
    method Restore(bytes: seq<byte>) returns (r: RestoreResult)
      modifies engine, this`linkEnabled
      ensures old(engine.calls) <= engine.calls && old(engine.failures) <= engine.failures
      ensures engine.calls == old(engine.calls) <==> !Usable() || Parse(id, caps, bytes) == Rejected
      ensures engine.calls == old(engine.calls) ==> r == RestoreRejected && engine.failures == old(engine.failures)
      ensures r == RestoreOk ==>
                Usable() && Parse(id, caps, bytes).Accepted? && engine.state == StateOf(Parse(id, caps, bytes).payload)
      // Without a failing engine call an accepted savestate is applied.
      ensures (Usable() && Parse(id, caps, bytes).Accepted? && Storable(old(engine.state), caps)
               && engine.failures == old(engine.failures) && engine.refusals == old(engine.refusals)) ==> r == RestoreOk
      ensures r == RestoreOk ==> linkEnabled == engine.state.joined && engine.failures == old(engine.failures)
      ensures r == RestoreRejected ==> linkEnabled == old(linkEnabled)
      ensures r == RestoreRejected ==>
                engine.state == if engine.failures == old(engine.failures) then old(engine.state)
                else old(engine.state).(joined := linkEnabled)
      ensures r == RestoreFatal <==> engine.failures > old(engine.failures) + 1
      ensures Protected(old(engine.battery), engine.battery, engine.hidden)
    {
      var parsed := Parse(id, caps, bytes);
      r := Transact(parsed);
    }
  }

  method ReadBack(bytes: seq<byte>, ghost id: Identity, other: Identity, caps: Capacities, ghost p: Payload)
    returns (parsed: Parsed)
    requires Sized(id) && Total(p) < SIZE_LIMIT && WrittenAs(bytes, id, p)
    ensures parsed == if SameCartridges(id, other) && Fits(p, caps) then Accepted(p) else Rejected
  {
    RoundTrip(id, other, caps, p, Zeros(|bytes| - Total(p)));
    parsed := Parse(other, caps, bytes);
  }

  /** Saving a session and reading the buffer back in one with the cartridges `other`. */
  method SaveAndRead(from: Session, other: Identity, caps: Capacities, buffer: array<byte>)
    returns (saved: bool, parsed: Parsed)
    requires Sized(from.id) && Bound(from.caps) < SIZE_LIMIT
    modifies from.engine, buffer
    ensures from.engine.state == old(from.engine.state)
    ensures
      var p := PayloadOf(from.engine.state, from.linkEnabled);
      saved ==> parsed == if SameCartridges(from.id, other) && Fits(p, caps) then Accepted(p) else Rejected
  {
    saved := from.Save(buffer);
    parsed := Rejected;
    if saved {
      ghost var p := PayloadOf(from.engine.state, from.linkEnabled);
      parsed := ReadBack(buffer[..], from.id, other, caps, p);
    }
  }

  /** Saving one session and restoring the state into another, whatever that one was doing. If the
      savestate could be written and no engine call fails, the second pair ends in exactly the state of the
      first, provided that both have the same engine and cartridges and that the machine states are not
      empty and fit; otherwise the state is rejected before it reaches the engine. */
  method SaveThenRestore(from: Session, to: Session, buffer: array<byte>) returns (saved: bool, r: RestoreResult)
    requires Sized(from.id) && Bound(from.caps) < SIZE_LIMIT
    requires from.engine != to.engine && to.Usable() && Storable(to.engine.state, to.caps)
    requires from.engine.state.joined == from.linkEnabled
    modifies from.engine, to.engine, to`linkEnabled, buffer
    ensures
      var payload := PayloadOf(old(from.engine.state), from.linkEnabled);
      var acceptable := SameCartridges(from.id, to.id) && Fits(payload, to.caps);
      var undisturbed := to.engine.failures == old(to.engine.failures) && to.engine.refusals == old(to.engine.refusals);
      && (saved && acceptable && undisturbed ==> r == RestoreOk)
      && (!acceptable ==> r == RestoreRejected && to.engine.calls == old(to.engine.calls))
    ensures saved && r == RestoreOk ==> to.engine.state == old(from.engine.state) && to.linkEnabled == from.linkEnabled
    ensures Protected(old(to.engine.battery), to.engine.battery, to.engine.hidden)
  {
    var parsed;
    saved, parsed := SaveAndRead(from, to.id, to.caps, buffer);
    r := RestoreRejected;
    if saved {
      r := to.Transact(parsed);
    }
  }

  /** The frontend's part: the session it holds and the ownership of save files. */
  class Frontend {
    const session: Session
    const hasEnvironment: bool
    var savesOpen: bool
    var flushes: nat
    var shutdownRequested: bool
    var linkOption: bool
    var linkRequestPending: bool
    /** The save files, region by region. */
    ghost var disk: seq<seq<byte>>
    /** The savestates that `retro_unserialize` was asked to restore. */
    ghost var asked: seq<seq<byte>>

    constructor (s: Session, environment: bool)
      ensures session == s && hasEnvironment == environment && savesOpen
      ensures flushes == 0 && !shutdownRequested && !linkRequestPending && linkOption == s.linkEnabled
      ensures asked == [] && disk == []
    {
      session, hasEnvironment, savesOpen := s, environment, true;
      flushes, shutdownRequested, linkOption, linkRequestPending := 0, false, s.linkEnabled, false;
      disk, asked := [], [];
    }

    /** `unload_current`: the ordinary way out writes the saves first. */
    method UnloadCurrent()
      modifies this`savesOpen, this`flushes, this`disk, session`loaded
      ensures !session.loaded && !savesOpen
      ensures flushes == old(flushes) + if old(savesOpen && session.loaded) then 1 else 0
      ensures disk == if old(savesOpen && session.loaded) then session.engine.battery else old(disk)
    {
      if savesOpen && session.loaded {
        flushes, disk := flushes + 1, session.engine.battery;
      }
      savesOpen := false;
      session.loaded := false;
    }

    /** Releases the session without mirroring or writing its memory. */
    method DiscardCurrent()
      modifies this`savesOpen, session`loaded
      ensures !session.loaded && !savesOpen
    {
      savesOpen := false;
      session.loaded := false;
    }

    /** What `retro_unserialize` does with the outcome. */
    method Conclude(r: RestoreResult) returns (ok: bool)
      modifies this, session`loaded
      ensures flushes == old(flushes) && disk == old(disk) && asked == old(asked) && ok == (r == RestoreOk)
      ensures session.loaded == (old(session.loaded) && r != RestoreFatal)
      ensures savesOpen == (old(savesOpen) && r != RestoreFatal)
      ensures shutdownRequested == (old(shutdownRequested) || (r == RestoreFatal && hasEnvironment))
      ensures linkOption == if ok then session.linkEnabled else old(linkOption)
      ensures linkRequestPending == (old(linkRequestPending) && !ok)
    {
      ok := r == RestoreOk;
      if r == RestoreFatal {
        DiscardCurrent();
        shutdownRequested := shutdownRequested || hasEnvironment;
      }
      linkOption := if ok then session.linkEnabled else linkOption;
      linkRequestPending := linkRequestPending && !ok;
    }

    /** `retro_unserialize` after the savestate was read. */
    method RestoreParsed(parsed: Parsed) returns (ok: bool)
      modifies this, session, session.engine
      ensures flushes == old(flushes) && disk == old(disk) && asked == old(asked)
      ensures session.engine.failures >= old(session.engine.failures)
      ensures Protected(old(session.engine.battery), session.engine.battery, session.engine.hidden)
      // The session is given up exactly when a rollback call failed, and nothing is written then.
      ensures
        var given := session.engine.failures > old(session.engine.failures) + 1;
        && session.loaded == (old(session.loaded) && !given)
        && savesOpen == (old(savesOpen) && !given)
        && shutdownRequested == (old(shutdownRequested) || (given && hasEnvironment))
      ensures ok ==> linkOption == session.linkEnabled == session.engine.state.joined && !linkRequestPending
      ensures !ok ==> linkOption == old(linkOption) && linkRequestPending == old(linkRequestPending)
      ensures ok ==> parsed.Accepted? && session.engine.state == StateOf(parsed.payload)
      // Without a failing engine call an accepted savestate is applied.
      ensures (old(session.Usable()) && parsed.Accepted? && Storable(old(session.engine.state), session.caps)
               && session.engine.failures == old(session.engine.failures)
               && session.engine.refusals == old(session.engine.refusals)) ==> ok
    {
      var r := session.Transact(parsed);
      ok := Conclude(r);
    }

    /** `retro_unserialize`. */
    method Unserialize(bytes: seq<byte>) returns (ok: bool)
      modifies this, session, session.engine
      ensures flushes == old(flushes) && disk == old(disk)
      ensures session.engine.failures >= old(session.engine.failures)
      ensures Protected(old(session.engine.battery), session.engine.battery, session.engine.hidden)
      // The session is given up exactly when a rollback call failed, and nothing is written then.
      ensures
        var given := session.engine.failures > old(session.engine.failures) + 1;
        && session.loaded == (old(session.loaded) && !given)
        && savesOpen == (old(savesOpen) && !given)
        && shutdownRequested == (old(shutdownRequested) || (given && hasEnvironment))
      ensures ok ==> linkOption == session.linkEnabled == session.engine.state.joined && !linkRequestPending
      ensures !ok ==> linkOption == old(linkOption) && linkRequestPending == old(linkRequestPending)
      ensures
        var parsed := Parse(session.id, session.caps, bytes);
        ok ==> parsed.Accepted? && session.engine.state == StateOf(parsed.payload)
      // Without a failing engine call an accepted savestate is applied.
      ensures (old(session.Usable()) && Parse(session.id, session.caps, bytes).Accepted?
               && Storable(old(session.engine.state), session.caps)
               && session.engine.failures == old(session.engine.failures)
               && session.engine.refusals == old(session.engine.refusals)) ==> ok
      ensures asked == old(asked) + [bytes]
    {
      var parsed := Parse(session.id, session.caps, bytes);
      ok := RestoreParsed(parsed);
      asked := asked + [bytes];
    }
  }

  /** One state out of a series. */
  method RestoreNext(f: Frontend, bytes: seq<byte>)
    modifies f, f.session, f.session.engine
    ensures f.asked == old(f.asked) + [bytes] && f.flushes == old(f.flushes) && f.disk == old(f.disk)
    ensures f.session.engine.failures >= old(f.session.engine.failures)
    ensures Protected(old(f.session.engine.battery), f.session.engine.battery, f.session.engine.hidden)
    ensures
      var given := f.session.engine.failures > old(f.session.engine.failures) + 1;
      && f.session.loaded == (old(f.session.loaded) && !given)
      && f.savesOpen == (old(f.savesOpen) && !given)
      && f.shutdownRequested == (old(f.shutdownRequested) || (given && f.hasEnvironment))
  {
    var ok := f.Unserialize(bytes);
  }

  /** Savestates never reach the save files: whatever states are restored, in any number and with any
      engine failures, unloading then writes exactly the exposed battery memory the session had before
      them - unless a rollback failed on the way, and then nothing is written at all. */
  method RestoreThenUnload(f: Frontend, states: seq<seq<byte>>) returns (givenUp: bool, n: nat)
    requires f.session.loaded && f.savesOpen
    modifies f, f.session, f.session.engine
    ensures !f.session.loaded && !f.savesOpen
    // All the states are restored, unless the session is given up on the way.
    ensures n <= |states| && f.asked == old(f.asked) + states[..n] && (!givenUp ==> n == |states|)
    ensures givenUp ==> f.flushes == old(f.flushes) && f.disk == old(f.disk)
    ensures !givenUp ==> f.flushes == old(f.flushes) + 1
    ensures !givenUp ==> Protected(old(f.session.engine.battery), f.disk, f.session.engine.hidden)
    ensures givenUp ==> f.session.engine.failures > old(f.session.engine.failures) + 1
    ensures givenUp && f.hasEnvironment ==> f.shutdownRequested
  {
    n := 0;
    while n < |states| && f.session.loaded
      invariant n <= |states| && f.asked == old(f.asked) + states[..n]
      invariant f.session.loaded == f.savesOpen
      invariant f.flushes == old(f.flushes) && f.disk == old(f.disk)
      invariant Protected(old(f.session.engine.battery), f.session.engine.battery, f.session.engine.hidden)
      invariant f.session.engine.failures >= old(f.session.engine.failures)
      invariant !f.session.loaded ==> f.session.engine.failures > old(f.session.engine.failures) + 1
      invariant !f.session.loaded && f.hasEnvironment ==> f.shutdownRequested
    {
      RestoreNext(f, states[n]);
      assert states[..n + 1] == states[..n] + [states[n]];
      n := n + 1;
    }
    givenUp := !f.session.loaded;
    f.UnloadCurrent();
  }
}
