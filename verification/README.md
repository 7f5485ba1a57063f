# DualBoy coordination, verified

DualBoy runs two emulated handhelds in one process. The emulators are upstream libraries; what is
written here is the coordination around them. This project models that coordination in Dafny and
proves what it promises, over every run, every input and every failure of the parts it drives.
`dafny verify dfyconfig.toml` checks everything.

| area | modules |
|---|---|
| GBA link lockstep | `Cycles`, `Lockstep`, `LockstepSafety`, `LockstepState`, `LockstepRuns`, `LockstepWake`, `LockstepOrder`, `LockstepData`, `LockstepSync`, `LockstepModes`, `EventBuffers`, `LinkCoordinators`, `LinkedFrame` |
| Paired savestates | `Bytes`, `Checksum`, `LittleEndian`, `StateContainer`, `StateWriter`, `StateRestore`, `NdsHeader` |
| Battery persistence | `SaveHash`, `SaveTracking`, `SaveManager`, `SaveDevice`, `SaveLocks`, `SavePaths` |
| Paths and playlists | `PathNormalizer`, `PathBuffer`, `PlaylistParser`, `PlaylistResolution`, `PlaylistRoundTrip`, `PlaylistReader` |
| Nintendo DS pair | `FrameProtocol`, `RendererLink`, `SaveShadow` |
| SameBoy pair, compositor | `Pacing`, `SerialLinkState`, `AudioRing`, `Compositor` |
| Shared | `Wrappers` |

How the models are built:

* The lockstep protocol is a value (`Lockstep.Link`) with one function per driver callback. The
  invariant and its preservation are proved on that value. `LinkCoordinators` holds the same state in
  objects, each player with the eight-slot buffer of `EventBuffers`; their callbacks are proved to keep
  slot partition and invariant and to follow the value, over every run (`LinkCoordinators.RunLink`).
* A run may call back in any order, may move either clock anywhere between callbacks, and may be
  restored to a state saved in any run. Callbacks are also allowed from a machine that was just put to
  sleep. So nothing depends on the emulator cores beyond the callbacks they make.
* Emulator cores, graphics workers and file writes are adversaries: a call may fail at any time. In the
  restore a failing engine call leaves any state behind. A successful `set_link` may change both machines, a
  successful machine restore sets its machine and may disturb the link state, and battery regions keep
  place and size but not contents; this is what the engine interface (`src/frontend/engine.h`) grants.
* The two-worker frame protocol and the lock acquisition are state machines over every interleaving; a
  section under the mutex, a finished wait or one lock call is one step.
* Characters of paths and playlists stand for bytes. 32-bit and 64-bit wrap-around is written out where
  the code relies on it.

Where code and documentation differ, or where a property holds only under a condition:

* A savestate with an empty machine payload is written but never accepted again; `StateContainer.RoundTrip`
  states the exact condition.
* `normalize_path` reports too-long for an empty input in a one-character buffer; for every other input a
  buffer longer than the input suffices (`PathNormalizer.NeverTooLong`).
* The composite's dimensions wrap for frames of 2^31 pixels in one direction;
  `Compositor.CompleteIffNoOverflow` states that the maps are complete exactly without that wrap, and
  `Compositor.ComposeFrame` requires it, for by `Compositor.CopyFitsIffNoOverflow` the copy otherwise leaves the buffer.
* A flush decides by a 64-bit hash; `SaveTracking.FlushComplete` names the collision case, which cannot
  occur for one-byte changes.
* A mode change of the primary asserts in debug builds that no transfer is active. That holds whenever the
  primary is awake (an active transfer implies a barrier, and a barrier keeps the primary asleep); the
  model also allows the call while it is asleep.
* `_advanceCycle` asserts in debug builds that the primary's time is not behind the shared clock
  (`src/engines/mgba/mgba_lockstep.c:987`). The periodic callback tests this before it calls; a mode change, a
  transfer start and a finish that wait reach it through `_waitOnPlayers` (line 1391) without a test, so there
  the assertion holds exactly when the primary's clock is not behind the shared one as the callback begins
  (`LockstepData.ModeChangeWaits`, `StartWaits`, `FinishWaits`).
  Runs may move the clock back; without the assertion the code then leaves the shared clock alone, as the
  model does, so `LockstepData.SharedClockForward` needs no condition.
* A transfer does not always exchange both words: a barrier event still queued before its start event ends it
  early. `LockstepData.EarlyRelease` is such a run, and `LockstepData.TransferExchanges` states exactly when
  the secondary's word is part of the transfer.
* The reported savestate size is zero when the capacities overflow, so that the size test then accepts every
  buffer. `StateRestore.Session.Save` requires that the sum does not overflow or that the state fits anyway;
  `StateRestore.SizeHoldsLargest` shows that without overflow the test is enough.
* An unchanged save is not always left alone by the first flush after a load: a file longer than its save device
  is written without its tail when that is all fill. `SaveTracking.FlushAfterLoad` states the exact condition.
* The eight reserved header bytes of a savestate are written as zero and not checked when it is read
  (`StateContainer.AcceptedExactly`).
* A reset moves a player's offset under a pending wake, which may then come after the first queued event;
  `LockstepWake.ResetCovers` states exactly when it does not.

## Model

| member | source | states |
|---|---|---|
| `Cycles.WindowOrder` | src/engines/mgba/mgba_lockstep.c:159-172 | Inside one half of the 32-bit circle the wrapping comparison is the ordinary order of distances from the start of that half. |
| `Cycles.AddThenDelta` | src/engines/mgba/mgba_lockstep.c:170-176 | A delay scheduled on the wrapping clock reads back as that delay. |
| `Cycles.DeltaOfDelta` | src/engines/mgba/mgba_lockstep.c:170-172 | An offset chosen so that a clock shows a given shared time makes it show that time. |
| `Cycles.BitsRoundTrip` | src/engines/mgba/mgba_lockstep.c:163-168 | Signed and unsigned views of a 32-bit word are inverse. |
| `Lockstep.InsertIndex` | src/engines/mgba/mgba_lockstep.c:1229-1239 | A new event goes after every queued event that is not later and before the first later one: first in, first out among equal times. |
| `Lockstep.DrainProgress` | src/engines/mgba/mgba_lockstep.c:1289-1356 | Each pass of the drain loop lowers the queue's weight (attach and detach count two, others one) although a pass may queue a reply to the player itself; hence the loop ends. |
| `LockstepSafety.InsertSorted` | src/engines/mgba/mgba_lockstep.c:1229-1242 | Queueing keeps every stretch of timestamps that shares a half circle in order. |
| `LockstepSafety.SetModeKeeps` | src/engines/mgba/mgba_lockstep.c:719-763 | A mode change keeps the invariant that ties barrier mask, sleep flags and queues together. |
| `LockstepSafety.StartKeeps` | src/engines/mgba/mgba_lockstep.c:804-849 | Starting a transfer keeps the invariant, whether it waits at once or a barrier is already pending. |
| `LockstepSafety.FinishKeeps` | src/engines/mgba/mgba_lockstep.c:851-937 | The three finish callbacks keep the invariant. |
| `LockstepSafety.HardSyncKeeps` | src/engines/mgba/mgba_lockstep.c:1155-1168 | A hard sync keeps the invariant; a full peer queue skips the barrier instead of waiting for nothing. |
| `LockstepSafety.DrainOneKeeps` | src/engines/mgba/mgba_lockstep.c:1297-1355 | Handling one event keeps the invariant, and any event the secondary handles clears the barrier in the step that removes it. |
| `LockstepSafety.LockstepEventKeeps` | src/engines/mgba/mgba_lockstep.c:1259-1377 | The periodic callback keeps the invariant for either player. |
| `LockstepSafety.ResetKeeps` | src/engines/mgba/mgba_lockstep.c:263-327 | A machine reset keeps the invariant. |
| `LockstepSafety.AttachedInv` | src/engines/mgba/mgba_adapter.c:760-795 | A freshly attached pair satisfies the invariant, for all clocks and modes. |
| `LockstepRuns.State` | src/engines/mgba/mgba_lockstep.c:719-1377 | Every run of an attached pair - callbacks in any order, clocks moved anywhere, saved states restored - stays in states that satisfy the invariant from every point of the circle; in particular the preconditions that stand for the wait assertions hold at every call. |
| `LockstepRuns.NoDeadlock` | src/engines/mgba/mgba_lockstep.c:1383-1461 | In every run the primary sleeps exactly while the wait mask is non-zero, an active transfer implies a pending barrier, a player whose wait bit is set is awake and has a barrier event queued, and the two machines never sleep at the same time. |
| `LockstepRuns.QueuesConsistent` | src/engines/mgba/mgba_lockstep.c:1198-1257 | In every run queue and free list account for the eight slots, the depth counter is the queue length, only events that travel towards a player are queued for it, and timestamps within half the range are sorted; the slots themselves and the order among equal times are in `LinkCoordinators.RunLink` and `LockstepOrder.FirstInFirstOut`. |
| `LockstepRuns.BarrierReleased` | src/engines/mgba/mgba_lockstep.c:1315-1333 | A callback of the secondary at or after the time of its first queued event releases the barrier, ends the transfer and wakes the primary. |
| `LockstepRuns.WakeReachesHead` | src/engines/mgba/mgba_lockstep.c:1357-1376 | A player's own callback in any run leaves a wake set for it, at least one cycle ahead and no later than its first queued event. |
| `LockstepRuns.SavedRunRestores` | src/engines/mgba/mgba_adapter.c:1676-1823 | A state saved in any run and restored into any other run reproduces modes, offsets, sleep flags, queues in order and the coordinator fields exactly. |
| `LockstepWake.TimerMeaning` | src/engines/mgba/mgba_lockstep.c:1170-1196 | Rescheduling for the queue head keeps a pending wake pending, never moves it back, leaves it no later than the head, and moves it only to the head's own time. |
| `LockstepWake.TimersScheduled` | src/engines/mgba/mgba_lockstep.c:1170-1376 | In every run both players have a wake scheduled after every callback. |
| `LockstepWake.WakeCovers` | src/engines/mgba/mgba_lockstep.c:1198-1257 | In every run, after every callback that queues something for a player, that player's wake comes no later than its first event; a wake that covered the queue still does; a player's own callback always leaves it so. |
| `LockstepWake.ResetCovers` | src/engines/mgba/mgba_lockstep.c:263-327 | A reset keeps queue and wake and moves the player to the shared time; the wake then covers the queue exactly when it comes no later than the first event counted from the shared time. |
| `LockstepWake.TickCovers` | src/engines/mgba/mgba_lockstep.c:1170-1196 | Time that passes without wrapping keeps a covering wake in front of the queue. |
| `LockstepWake.RestoredCovers` | src/engines/mgba/mgba_lockstep.c:521-640 | After a restore at any clocks both wakes cover their queues. |
| `LockstepOrder.StepFollows` | src/engines/mgba/mgba_lockstep.c:719-1377 | Every callback changes a queue by exactly the events it sends to that player while there is room, in sending order, and by the departures of the player's own drain loop. |
| `LockstepOrder.OnlyOwnDeparts` | src/engines/mgba/mgba_lockstep.c:1289-1351 | Nothing but a player's own periodic callback takes an event out of its queue. |
| `LockstepOrder.QueueOfHistory` | src/engines/mgba/mgba_lockstep.c:719-1377 | In every run, restores included, each queue is the outcome of the run's own history of events sent and handled. |
| `LockstepOrder.OpsInOrder` | src/engines/mgba/mgba_lockstep.c:1216-1242 | Any series of arrivals and departures keeps a queue sorted within half the range, and in arrival order among equal times. |
| `LockstepOrder.FirstInFirstOut` | src/engines/mgba/mgba_lockstep.c:1216-1242 | Numbering the events of a run's own history in the order in which they were sent, each queued event stands beside its number, and every stretch of the queue within half the range is sorted by time and, among equal times, by that number. |
| `LockstepData.TransferExchanges` | src/engines/mgba/mgba_lockstep.c:804-937 | In every run, whatever is queued or pending: after a transfer start and the secondary's next callback at any time, nothing due leaves the transfer pending; otherwise it is over for both machines, in multiplayer mode both receive the primary's word and the secondary's exactly when a transfer start was among the events due (else 0xFFFF), and in the normal modes the secondary receives the primary's byte or word. |
| `LockstepData.EarlyRelease` | src/engines/mgba/mgba_lockstep.c:1315-1333 | A run in which the transfer ends without the secondary's word, because a mode change of the primary was still queued before the start event. |
| `LockstepData.NothingReceived` | src/engines/mgba/mgba_lockstep.c:851-937 | A machine that has received nothing, or finishes in a mode the link is not in, is handed all ones. |
| `LockstepData.StartPublishes` | src/engines/mgba/mgba_lockstep.c:804-849 | A start succeeds exactly when no transfer is active and the secondary's buffer has room; then exactly the primary's data is published, the start event is inserted and the primary sleeps behind the barrier, whatever was pending. |
| `LockstepData.SecondaryAnswers` | src/engines/mgba/mgba_lockstep.c:1289-1351 | The secondary's drain loop handles exactly the events that are due; the first of them clears the barrier, ends the transfer for both machines and wakes the primary, and a transfer start among them adds the secondary's data. |
| `LockstepData.SharedClockForward` | src/engines/mgba/mgba_lockstep.c:984-993 | No callback in any run moves the shared clock back, and it only ever moves to the primary's time. |
| `LockstepData.ModeChangeWaits` | src/engines/mgba/mgba_lockstep.c:719-763 | A mode change that waits meets the debug assertion of the shared clock exactly when it would have held as the callback began. |
| `LockstepData.StartWaits` | src/engines/mgba/mgba_lockstep.c:804-849 | The same for a transfer start. |
| `LockstepData.FinishWaits` | src/engines/mgba/mgba_lockstep.c:851-937 | The same for a finish that starts a hard sync. |
| `LockstepData.HardSyncWaits` | src/engines/mgba/mgba_lockstep.c:1270-1287 | The hard sync of the periodic callback always meets it, because the clock was advanced just before. |
| `LockstepSync.StartCounts` | src/engines/mgba/mgba_lockstep.c:833-849 | A start that succeeds in multiplayer mode arms the hard sync with a full interval, from which the wait takes the shared time it lets pass; any other start leaves it armed or not as it was. |
| `LockstepSync.ArmedByStart` | src/engines/mgba/mgba_lockstep.c:804-849 | In every run the hard sync is armed exactly when a multiplayer start succeeded since the attach or the last reset. |
| `LockstepSync.FinishCounts` | src/engines/mgba/mgba_lockstep.c:851-937 | A finish that meets a pending barrier makes the hard sync due at once; otherwise the countdown loses exactly the shared time that passes. |
| `LockstepSync.CallbackCounts` | src/engines/mgba/mgba_lockstep.c:1273-1287 | A callback of the primary past the interval adds one interval to the countdown; every other callback takes exactly the shared time that passes from it. |
| `LockstepSync.CallbackSyncs` | src/engines/mgba/mgba_lockstep.c:1281-1285 | A callback of the primary sends a hard sync, before anything else, exactly when it is armed and past the interval, no barrier is pending and the secondary has room. |
| `LockstepSync.SyncsInRun` | src/engines/mgba/mgba_lockstep.c:1155-1168 | In every run with a multiplayer start since the attach or the last reset, a callback of the primary past the interval leaves a hard sync queued for the secondary and the primary asleep behind it, unless a barrier is pending or the secondary has no room. |
| `LockstepSync.IdleCallback` | src/engines/mgba/mgba_lockstep.c:1357-1376 | With nothing queued a callback wakes every interval while no sync is armed; else the primary one interval past the shared time and the secondary at the shared time; the secondary falls asleep unless it is more than one interval behind. |
| `LockstepModes.AttachedMeaning` | src/engines/mgba/mgba_adapter.c:760-795 | A fresh pair shows one shared time on both machines, with nobody asleep and the first wakes set. |
| `LockstepModes.SetModeMeaning` | src/engines/mgba/mgba_lockstep.c:719-763 | A mode change sets the player's mode, its own entry and, for the primary, the mode of transfers, and nothing about the other player. |
| `LockstepModes.FinishMeaning` | src/engines/mgba/mgba_lockstep.c:851-937 | A finish of the current mode takes back the player's receive flag; a finish of another mode does nothing. |
| `LockstepModes.CallbackLearns` | src/engines/mgba/mgba_lockstep.c:1289-1351 | A callback handles exactly the due events, and the player then lists for the other one what the last of them told about its mode. |
| `LockstepModes.ModesInRun` | src/engines/mgba/mgba_lockstep.c:719-763 | In every run the mode of transfers is the primary's mode, and each player lists its own mode. |
| `LockstepModes.LastAnnounced` | src/engines/mgba/mgba_lockstep.c:719-763 | In every run in which no announcement met a full buffer, the last mode sent to the secondary is the primary's mode. |
| `LockstepModes.WokenInRun` | src/engines/mgba/mgba_lockstep.c:1273-1280 | In every run a sleeping secondary is woken by the primary's next callback at or past the shared time, unless a transfer is active, and then it is awake already. |
| `LockstepModes.AckSleeps` | src/engines/mgba/mgba_lockstep.c:1421-1449 | A secondary that acknowledges the barrier sleeps after its callback. |
| `LockstepModes.TransferWake` | src/engines/mgba/mgba_lockstep.c:1318-1327 | A secondary that has handled a transfer start wakes when the transfer is to finish, less the lateness of the callback. |
| `LockstepModes.SendCounts` | src/engines/mgba/mgba_lockstep.c:1198-1257 | Sending counts one drop for every attached target without room, succeeds exactly when there is none, and keeps the high-water marks above the queue depths. |
| `LockstepState.UnpackPack` | src/engines/mgba/mgba_lockstep.c:391-519 | The bit-packed flag word gives back every field. |
| `LockstepState.EventRoundTrip` | src/engines/mgba/mgba_lockstep.c:642-717 | An event of either player, of every kind it can send, survives its serialised form and passes the event checks. |
| `LockstepState.SavedValid` | src/engines/mgba/mgba_lockstep.c:391-519 | Every driver state saved from a link that satisfies the invariant passes validation. |
| `LockstepState.AlienRefused` | src/engines/mgba/mgba_lockstep.c:391-519 | A state of another version or player, with too many events, an unknown mode or event, a barrier event of the secondary or a barrier for anybody but the secondary is refused and changes nothing. |
| `LockstepState.PairRefused` | src/engines/mgba/mgba_adapter.c:1676-1823 | A pair is restored as a whole: if either driver state must be refused, nothing changes. |
| `LockstepState.AcceptedSane` | src/engines/mgba/mgba_lockstep.c:391-640 | Any accepted state fills the player's slots consistently with events of the two players; only the primary's touches the coordinator. |
| `LockstepState.SaveLoadRoundTrip` | src/engines/mgba/mgba_lockstep.c:521-717 | Loading the secondary, then the primary, reproduces the saved link in every field but the clocks of the restored pair, the depth statistics and the next wake. |
| `LockstepState.RestoredWake` | src/engines/mgba/mgba_lockstep.c:521-640 | The restored wake is the saved one clamped to at least one cycle, or the queue head when that is earlier. |
| `EventBuffers.Enqueue` | src/engines/mgba/mgba_lockstep.c:1216-1242 | In the eight-slot buffer, threading a free slot into the linked queue realises exactly the ordered insertion; queue, free list and the slot in flight go on partitioning the slots; a full buffer changes nothing. |
| `EventBuffers.FindPlace` | src/engines/mgba/mgba_lockstep.c:1229-1239 | The walk along the links stops between the last event that is not later and the first that is. |
| `EventBuffers.TakeHead` | src/engines/mgba/mgba_lockstep.c:1290-1297 | Unlinking the head leaves the rest of the queue and puts exactly that slot in flight. |
| `EventBuffers.Release` | src/engines/mgba/mgba_lockstep.c:1347-1350 | The slot in flight returns to the free list and the depth counter drops by one. |
| `EventBuffers.EmptySlots` | src/engines/mgba/mgba_lockstep.c:278-283 | All eight slots start on the free list. |
| `EventBuffers.LoadSlots` | src/engines/mgba/mgba_lockstep.c:578-621 | Rebuilding the buffer from saved events yields those events in order, with every other slot free. |
| `EventBuffers.QueuedEvents` | src/engines/mgba/mgba_lockstep.c:675-697 | Walking the links collects exactly the queued events in order. |
| `LinkCoordinators.LinkCoordinator.SetMode` | src/engines/mgba/mgba_lockstep.c:719-763 | On the objects with their slot buffers a mode change equals the value-level one and keeps slot partition, empty flight and link invariant. |
| `LinkCoordinators.LinkCoordinator.Start` | src/engines/mgba/mgba_lockstep.c:804-849 | The same for a transfer start and its result. |
| `LinkCoordinators.LinkCoordinator.Finish` | src/engines/mgba/mgba_lockstep.c:851-937 | The same for the finish callbacks. |
| `LinkCoordinators.LinkCoordinator.LockstepEvent` | src/engines/mgba/mgba_lockstep.c:1259-1377 | The same for the periodic callback, with the drain loop run in place. |
| `LinkCoordinators.LinkCoordinator.Reset` | src/engines/mgba/mgba_lockstep.c:263-327 | The same for a reset. |
| `LinkCoordinators.LinkCoordinator.DrainQueue` | src/engines/mgba/mgba_lockstep.c:1289-1356 | The in-place drain loop ends, equals the recursive one, and leaves no slot in flight. |
| `LinkCoordinators.LinkCoordinator.DrainOne` | src/engines/mgba/mgba_lockstep.c:1289-1351 | One pass takes a slot into flight, handles its event, possibly queueing a reply into the same buffer, and puts exactly that slot back. |
| `LinkCoordinators.LinkCoordinator.EnqueueEvent` | src/engines/mgba/mgba_lockstep.c:1198-1257 | Delivery into the slot buffers of the attached targets, with drop counting and depth high-water marks, equals the value-level delivery and leaves slots in flight alone. |
| `LinkCoordinators.LinkCoordinator.SaveDriver` | src/engines/mgba/mgba_lockstep.c:642-717 | The state written by walking the slots is the saved state of the link. |
| `LinkCoordinators.LinkCoordinator.LoadDriver` | src/engines/mgba/mgba_lockstep.c:521-640 | Loading into the objects rebuilds the slots, sleeps or wakes the player, and equals the value-level load; a refused state changes nothing. |
| `LinkCoordinators.LinkCoordinator.CopyFrom` | src/engines/mgba/mgba_adapter.c:1676-1823 | Saving one pair of objects and restoring another, at any clocks, keeps slot partition and link invariant of the restored pair. |
| `LinkCoordinators.RunLink` | src/engines/mgba/mgba_lockstep.c:263-1377 | For every run, restores included, the objects reach exactly the run's state; no slot is in flight, in both buffers queue and free list partition the eight slots, and the link invariant holds. |
| `LockstepSafety.WaitKeeps` | src/engines/mgba/mgba_lockstep.c:1383-1398 | Waiting for the secondary keeps the invariant when a barrier event has just been queued for it. |
| `LockstepSafety.AckKeeps` | src/engines/mgba/mgba_lockstep.c:1421-1449 | An acknowledgement keeps the invariant, and one by the secondary clears the barrier, ends the transfer and wakes the primary. |
| `LinkedFrame.RoundRuns` | src/engines/mgba/mgba_adapter.c:1149-1163 | A scheduling round that begins before the frame is over has a turn for at least one machine. |
| `LinkedFrame.RunLinkedFrame` | src/engines/mgba/mgba_adapter.c:1131-1201 | For every behaviour of the two cores: the log holds exactly what the cores did, in rounds that call machine 0 and then machine 1 exactly if it is not blocked and has not finished its frame, or has a queued event, or some machine was blocked as the round began; no round begins once both have finished and nothing is queued; at most 4,000,000 calls are made; the outcome is a crash exactly when the last call crashed, never the all-blocked error, and otherwise success exactly when the frame is over; a watchdog error means all calls were used. |
| `Checksum.ComputeCrc32` | src/frontend/state.c:82-97 | The mask-and-shift loop computes the bitwise reflected CRC-32. |
| `Checksum.Crc32ByteInjective` | src/frontend/state.c:82-97 | One CRC-32 step is injective in the register and in the data byte. |
| `Checksum.Crc32DetectsOneByte` | src/frontend/state.c:82-97 | Changing exactly one byte of a message of any length changes its CRC-32. |
| `LittleEndian.GetPut` | src/frontend/state.c:48-80 | Reading back a stored little-endian number gives the number. |
| `LittleEndian.PutGet` | src/frontend/state.c:48-80 | Storing a number that was read gives the same bytes. |
| `StateContainer.RoundTrip` | src/frontend/state.c:272-483 | A serialised state is accepted by a session exactly when its engine family, both platforms, both cartridge sizes and both cartridge checksums are those of the session that wrote it, both machine payloads are non-empty and all payloads fit; then every payload and the link flag come back unchanged, whatever padding follows. |
| `StateContainer.AcceptedExactly` | src/frontend/state.c:398-483 | Exactly the savestates of the session's own cartridges are accepted, up to the reserved header bytes and the padding, each as the payload it encodes; no other bytes are. |
| `StateContainer.OtherCartridgeRejected` | src/frontend/state.c:440-448 | A state is refused by a session with a cartridge of another size, or with one that differs in exactly one byte. |
| `StateContainer.OneByteCorruptionRejected` | src/frontend/state.c:427-483 | Changing exactly one byte anywhere in the used part of an accepted savestate, header or payload of any length, makes it rejected by the checks that precede every engine call. |
| `StateWriter.Serialize` | src/frontend/state.c:292-347 | Clearing the buffer, writing the payloads back to back, the header fields in place and the checksum over the written header yields exactly the encoded savestate followed by zeros. |
| `StateWriter.StoreHeader` | src/frontend/state.c:321-345 | The in-place field writes leave the header bytes in order and touch nothing behind them. |
| `StateRestore.Session.Snapshot` | src/frontend/state.c:160-210 | The snapshot is the engine's state, read machine by machine and then the link, and changes nothing; it succeeds exactly when no read fails and everything fits. |
| `StateRestore.Session.CopyBattery` | src/frontend/state.c:212-256 | Exposed regions are copied, hidden ones skipped; a failed copy leaves a prefix, and nothing changes. |
| `StateRestore.Session.RestoreBattery` | src/frontend/state.c:258-270 | Copied regions get their copied bytes back, the others are left alone. |
| `StateRestore.Session.Rollback` | src/frontend/state.c:368-396 | All four rollback calls are made, in order and with the snapshot's data; it reports success exactly when none failed, and then the snapshot is back. |
| `StateRestore.Session.Transact` | src/frontend/state.c:485-530 | Over an engine whose failing calls leave arbitrary state: success gives exactly the encoded state and flag, rejection leaves everything as it was, fatal happens exactly when a rollback call failed, exposed battery regions keep their bytes in all three outcomes, and with no failing call an accepted state is applied. |
| `StateRestore.Session.Restore` | src/frontend/state.c:398-531 | The same from raw bytes; engine calls are made exactly when the session is usable and the savestate is accepted, and with no failing call it is applied. |
| `StateRestore.Session.Save` | src/frontend/state.c:272-348 | A save succeeds exactly when the session is usable, the buffer holds the reported size, no engine read fails and the state fits; it then holds the encoding of the engine's state, and engine and battery are left alone. |
| `StateRestore.SizeHoldsLargest` | src/frontend/state.c:123-145 | The reported state size holds the largest savestate that the capacities allow exactly when their sum does not overflow. |
| `StateRestore.SaveThenRestore` | src/frontend/state.c:272-531 | Saving one session and restoring into another, whatever it was doing: with the same engine and cartridges it reproduces the first pair's state and flag if no engine call fails; with others, or with empty or too large payloads, it is rejected without an engine call. |
| `StateRestore.RestoreThenUnload` | src/libretro/libretro_core.c:532-565 | Savestates never reach the save files: after restoring all the given states with whatever engine failures, unloading writes the exposed battery memory the session had before them; if a failed rollback stops the series, nothing is written at all. |
| `StateRestore.Frontend.Unserialize` | src/libretro/libretro_core.c:1773-1802 | An accepted savestate is applied when no engine call fails; the session is given up, its save ownership released without a flush and a shutdown requested, exactly when a rollback call failed; on success options and session agree. |
| `Checksum.ComputeCrc16` | src/frontend/content.c:92-108 | The loop computes the bitwise CRC-16. |
| `Checksum.Crc16DetectsOneByte` | src/frontend/content.c:92-108 | Changing exactly one byte of a message of any length changes its CRC-16. |
| `NdsHeader.OneByteChangeRejected` | src/frontend/content.c:119-137 | Any one-byte change in the first 0x160 bytes of a valid Nintendo DS header makes the header check fail. |
| `NdsHeader.Recognise` | src/frontend/content.c:119-137 | The header test with its two checksum loops accepts exactly the valid headers. |
| `SaveHash.MemoryHash` | src/frontend/save_manager.c:33-44 | The loop computes FNV-1a modulo 2^64. |
| `SaveHash.TimesPrimeInjective` | src/frontend/save_manager.c:39-42 | Multiplying by the FNV prime modulo 2^64 is injective. |
| `SaveHash.OneByteNeverCollides` | src/frontend/save_manager.c:33-44 | Images of any length that differ in exactly one byte never collide. |
| `SaveTracking.LoadTracks` | src/frontend/save_manager.c:697-716 | After loading, a valid record hashes its baseline's prefix and the file is the baseline's loaded prefix. |
| `SaveTracking.FlushTracks` | src/frontend/save_manager.c:797-863 | Every flush attempt of a region, with any write outcome, keeps that relation to the file. |
| `SaveTracking.FlushComplete` | src/frontend/save_manager.c:797-858 | A successful flush of a known region writes exactly the live bytes, or the region equals its baseline up to the written length, or the two images collide. |
| `SaveTracking.OneByteChangeWritten` | src/frontend/save_manager.c:842-848 | A region that differs from its baseline in one byte below the written length is always written. |
| `SaveTracking.SecondFlushIdle` | src/frontend/save_manager.c:829-846 | A second flush with nothing changed writes nothing and changes nothing. |
| `SaveTracking.UnchangedUnwritten` | src/frontend/save_manager.c:829-846 | Bytes that equal the baseline are left unwritten exactly when the record is valid and the file would not become shorter; in particular after a mere promotion of the save device. |
| `SaveTracking.FlushAfterLoad` | src/frontend/save_manager.c:697-846 | The first flush after a load with unchanged bytes writes nothing, except for a dirty flag while the extent was unknown, and except that a file longer than the device loses a tail that is all fill. |
| `SaveTracking.NoTruncation` | src/frontend/save_manager.c:393-420 | In every run where the known extent does not shrink, each write fits the region and covers every loaded byte past the first known extent, unless that whole tail was 0xFF. |
| `SaveTracking.NoTruncationFromLoad` | src/frontend/save_manager.c:697-709 | The same when the extent is known at load. |
| `SaveManager.NoteExtent` | src/frontend/save_manager.c:393-420 | The in-place record update computes the specified record, with the fill test as a loop. |
| `SaveManager.Manager.constructor` | src/frontend/save_manager.c:648-718 | After initialisation every record describes its loaded region and is tied to its file. |
| `SaveManager.Manager.FlushRegion` | src/frontend/save_manager.c:797-863 | One region's flush changes record, file and write count exactly as specified; it fails exactly when a write that was due failed. |
| `SaveManager.Manager.FlushAll` | src/frontend/save_manager.c:756-871 | An owner's flush fails exactly when the engine refuses a region or a write fails; a successful one settles every region as a lone flush would and writes exactly the regions that needed it; every record stays tied to its file even when it stops early; without write ownership nothing is written. |
| `SaveManager.AllQuiet` | src/frontend/save_manager.c:756-871 | After a successful flush of all regions none of them needs writing. |
| `SaveManager.FlushTwice` | src/frontend/save_manager.c:756-871 | After a successful flush a second one with nothing changed succeeds, writes nothing, and leaves records and files as one does. |
| `SaveManager.FlushShared` | src/frontend/save_manager.c:497-871 | Two managers that share a save path never both write: in every state the lock protocol reaches, one of two flushes that follow writes nothing and leaves its files alone. |
| `SaveDevice.MergeMeaning` | src/engines/mgba/mgba_adapter.c:459-499 | Merging a restored save type takes the larger device of one family and otherwise keeps a known one. |
| `SaveDevice.RestoresNeverShrink` | src/engines/mgba/mgba_adapter.c:459-499 | Over any series of state restores a known extent stays known and never shrinks. |
| `SaveDevice.RestoresNeverTruncate` | src/engines/mgba/mgba_adapter.c:459-499 | Whatever states are restored between flushes of a GBA cartridge, every write covers the loaded bytes past the extent first known, unless that tail was all 0xFF. |
| `SaveLocks.AllOrNone` | src/frontend/save_manager.c:497-592 | A manager that owns holds all its locks, one that is idle holds none. |
| `SaveLocks.OwnersDisjoint` | src/frontend/save_manager.c:497-592 | In every state that satisfies the lock invariant two write owners share no path. |
| `SaveLocks.FreshHolds` | src/frontend/save_manager.c:497-514 | The invariant of the lock table holds when nobody holds anything. |
| `SaveLocks.WriteExclusion` | src/frontend/save_manager.c:497-592 | In every interleaving, lock by lock, of any number of managers with any failures, two managers that share a path are never both write owners. |
| `SaveLocks.AcquiresFree` | src/frontend/save_manager.c:538-592 | An idle manager whose lock files open and whose locks are free becomes the owner after locking them one by one, and nobody else is affected. |
| `SaveLocks.RefusalReleases` | src/frontend/save_manager.c:551-579 | A lock that cannot be opened or is held by somebody makes the manager give back what it locked and end idle. |
| `SaveLocks.GivesUp` | src/frontend/save_manager.c:583-592 | An owner that gives up releases its locks one by one and is idle. |
| `SaveLocks.CollectPaths` | src/frontend/save_manager.c:516-537 | The list of lock paths is duplicate-free and names exactly the managed paths. |
| `SavePaths.ContentStem` | src/frontend/persistence.c:56-97 | The two scans find the base name without its extension, or the error the source reports. |
| `SavePaths.JoinSavePath` | src/frontend/persistence.c:99-148 | Directory without trailing separators, one separator, stem and suffix, or the error the source reports. |
| `SavePaths.PathsDistinct` | src/frontend/persistence.c:181-237 | For every directory and every pair of content names all derived save paths are pairwise distinct, and the suffix is used exactly for equal stems. |
| `SavePaths.PathsNamed` | src/frontend/persistence.c:181-237 | The six file names outright: directory prefix, the stem of the machine's own content, and .srm, .rtc or .firmware.bin, with .2 behind the second machine's exactly for equal stems. |
| `SavePaths.BuildExactly` | src/frontend/persistence.c:181-237 | All names can be built exactly when both contents have stems, there is a directory and the longest names fit. |
| `SavePaths.PrefixMeaning` | src/frontend/persistence.c:113-135 | What stands in front of a file name is the directory without its trailing separators and one slash, or the one separator that is the directory. |
| `SavePaths.StemOfExtension` | src/frontend/persistence.c:56-97 | The stem of a content with an extension is the name in front of its last dot, refused if that is a dot component and too long if it does not fit. |
| `SavePaths.StemOfName` | src/frontend/persistence.c:56-97 | A content without an extension is its own stem; a leading dot starts none. |
| `SavePaths.StemRefused` | src/frontend/persistence.c:74-77 | A path that ends in a separator or a dot component has no stem. |
| `SavePaths.PathsInside` | src/frontend/persistence.c:99-148 | Every derived file lies directly in the save directory. |
| `PathNormalizer.MeaningPreserved` | src/frontend/playlist.c:107-186 | From every working directory the normalised path leads to the same place as the input, and nowhere exactly when the input does. |
| `PathNormalizer.UnsafeIffClimbs` | src/frontend/playlist.c:154-163 | A path is refused as unsafe exactly when it is absolute and climbs above the root. |
| `PathNormalizer.ResultShape` | src/frontend/playlist.c:107-186 | The result is '.' or has no empty or '.' component, '..' only as a relative prefix, single slashes, the input's kind, and fits its buffer. |
| `PathNormalizer.Idempotent` | src/frontend/playlist.c:107-186 | Normalising a result again changes nothing. |
| `PathNormalizer.NeverTooLong` | src/frontend/playlist.c:80-105 | With a buffer longer than the input the too-long error occurs exactly for the empty input in a one-character buffer. |
| `PathBuffer.AppendComponent` | src/frontend/playlist.c:80-105 | Separator, component and terminator are appended exactly when they fit; otherwise the buffer is untouched. |
| `PathBuffer.Builder.Pop` | src/frontend/playlist.c:154-158 | Undoing a component by its restore length leaves the rendering of the shorter list. |
| `PathBuffer.NormalizePath` | src/frontend/playlist.c:107-186 | The in-place algorithm with its undo stack leaves exactly the component-list normal form and a terminator, or the same error. |
| `PlaylistParser.DirectoryMeaning` | src/frontend/playlist.c:188-236 | Entering the playlist's last component from the computed directory leads to the playlist. |
| `PlaylistParser.ResolveMeaning` | src/frontend/playlist.c:238-285 | A resolved entry leads where its components lead from the playlist's directory, or from the root if absolute. |
| `PlaylistResolution.ForeignExactly` | src/frontend/playlist.c:26-78 | Refused as foreign are exactly backslash paths, network paths and paths that begin with a scheme. |
| `PlaylistResolution.ResolveExactly` | src/frontend/playlist.c:238-285 | Exactly when an entry resolves, and with which error it is refused otherwise: empty, too long, foreign, not naming a file, too long below its directory, or climbing above the root. |
| `PlaylistResolution.DirectoryExactly` | src/frontend/playlist.c:188-236 | Exactly when a playlist path has a directory, and with which error it is refused otherwise. |
| `PlaylistResolution.RelativeResolves` | src/frontend/playlist.c:265-285 | A relative entry of plain names under a playlist in directory d becomes d/entry. |
| `PlaylistRoundTrip.ParserRoundTrip` | src/frontend/playlist.c:287-360 | Two file paths, absolute and normalised or relative and of plain names, written one per line with blank and comment lines, indentation, any line endings and an optional byte order mark, parse back to exactly those files, relative ones below the playlist's directory; any other number is refused. |
| `PlaylistRoundTrip.NulRefused` | src/frontend/playlist.c:318-324 | A NUL in a line is refused. |
| `PlaylistReader.StartsScheme` | src/frontend/playlist.c:32-60 | The scan finds a scheme exactly where one stands. |
| `PlaylistReader.PlaylistDirectory` | src/frontend/playlist.c:188-236 | The buffer-based directory computation equals the specified one, errors included. |
| `PlaylistReader.ResolveEntry` | src/frontend/playlist.c:238-285 | The buffer-based resolution equals the specified one, errors included. |
| `PlaylistReader.ReadLine` | src/frontend/playlist.c:315-340 | One line is split off, trimmed, and the position moves behind its terminator; a NUL is reported. |
| `PlaylistReader.ReadEntries` | src/frontend/playlist.c:314-357 | The cursor loop over the whole data equals the recursive parse. |
| `PlaylistReader.ParsePlaylist` | src/frontend/playlist.c:287-360 | The caller's record becomes the parsed entries on success and is unchanged on every failure. |
| `FrameProtocol.RunsKeep` | src/engines/melonds/nds_adapter.cpp:198-318 | Every interleaving of the caller's and the workers' steps keeps the protocol invariant. |
| `FrameProtocol.ExecutedExactlyOnce` | src/engines/melonds/nds_adapter.cpp:274-318 | In every interleaving each worker has executed the dispatched generations once each and in order, all of them whenever no frame is in progress. |
| `FrameProtocol.ReturnsQuiescent` | src/engines/melonds/nds_adapter.cpp:1344-1407 | Whenever the frame function is not waiting for workers - after success, worker failure or deadline - no worker is executing or about to. |
| `FrameProtocol.FrameVerdict` | src/engines/melonds/nds_adapter.cpp:1379-1406 | A frame in time succeeds exactly when both workers' runs of this generation did; one past its deadline fails and poisons the pair. |
| `FrameProtocol.OpenGlVerdict` | src/engines/melonds/nds_adapter.cpp:1294-1342 | An OpenGL frame returns its own verdict, and one that fails poisons the pair for every continuation: no frame of either kind begins any more. |
| `FrameProtocol.PoisonTakes` | src/engines/melonds/nds_adapter.cpp:198-216 | A pair that is poisoned between frames stays so for every continuation. |
| `FrameProtocol.AbortExactly` | src/engines/melonds/nds_adapter.cpp:1344-1380 | In every run the abort flag is up exactly after a missed deadline, in a poisoned pair and during shutdown; no frame runs with it. |
| `FrameProtocol.CallerMoves` | src/engines/melonds/nds_adapter.cpp:1255-1380 | The caller is never stuck: it enters the frame function or is refused there exactly according to the state, and a waiting frame can complete or its deadline can pass. |
| `FrameProtocol.HeldWorker` | src/engines/melonds/nds_adapter.cpp:274-318 | A worker that the debug hook stops cannot run its frame until it is released, and then it can. |
| `FrameProtocol.PoisonedUntilShutdown` | src/engines/melonds/nds_adapter.cpp:198-216 | Poisoned is left only for shutting down, which is never left, and no frame is dispatched from either. |
| `FrameProtocol.FrameProgress` | src/engines/melonds/nds_adapter.cpp:1361-1378 | While a frame waits it can complete or some worker can move, unless the debug hook holds one. |
| `FrameProtocol.ShutdownProgress` | src/engines/melonds/nds_adapter.cpp:198-216 | After shutdown every worker can leave, and the join succeeds exactly when both have. |
| `FrameProtocol.WaitsAreBounded` | src/engines/melonds/nds_adapter.cpp:274-318 | Worker steps in a row are bounded by the remaining work, so no wait is endless. |
| `RendererLink.NdsPair.SetVideoRenderer` | src/engines/melonds/nds_adapter.cpp:939-1056 | A transition with any failing task ends with both machines on the requested renderer, with a sound software pair, or with a poisoned pair that reports OpenGL. |
| `RendererLink.NdsPair.Activate` | src/engines/melonds/nds_adapter.cpp:960-1022 | Activation reaches OpenGL on both machines, or restores software on both, or poisons. |
| `RendererLink.NdsPair.Deactivate` | src/engines/melonds/nds_adapter.cpp:1024-1055 | Teardown reaches software on both machines or poisons. |
| `RendererLink.NdsPair.RestoreOrTerminalize` | src/engines/melonds/nds_adapter.cpp:904-927 | A machine is back on software or destroyed. |
| `RendererLink.NdsPair.SetLink` | src/engines/melonds/nds_adapter.cpp:218-243 | The link is refused while OpenGL is in use, and a refusal changes nothing. |
| `RendererLink.Core.ActivateLoaded` | src/libretro/libretro_core.c:272-300 | Activation fails only for a pair that became unusable; a fallback is reflected in the options; without a failure OpenGL is reached. |
| `RendererLink.Core.DeactivateLoaded` | src/libretro/libretro_core.c:302-324 | Deactivation fails only for a pair that became unusable. |
| `RendererLink.Core.Load` | src/libretro/libretro_core.c:709-769 | A load that succeeds ends with options, session and engine in agreement; one that fails leaves no session; without a failure it succeeds with the requested options, the link given up for OpenGL. |
| `RendererLink.Core.SelectOpenGl` | src/libretro/libretro_core.c:1280-1330 | The OpenGL branch keeps agreement through every failure; the session survives exactly when its pair does; a refused link change alone leaves everything as it was, and a fallback to software keeps the link unless the engine refuses it. |
| `RendererLink.Core.SelectSoftware` | src/libretro/libretro_core.c:1332-1379 | The software branch keeps agreement through every failure; the session survives exactly when its pair does; unless the engine refuses the link it ends as asked, and a refusal alone leaves everything as it was. |
| `RendererLink.Core.UpdateOptions` | src/libretro/libretro_core.c:1219-1411 | Without a failure a Nintendo DS session takes the values over as read, a value not given keeping the remembered one; if OpenGL and the link are both asked for, the link wins when it alone is new, and OpenGL otherwise. A refused link change alone changes nothing, a fallback keeps the link, and agreement and exclusion always hold. Without such a session the renderer is remembered and a new link value is tried until it is accepted. |
| `RendererLink.Core.RestoreState` | src/libretro/libretro_core.c:1773-1802 | A savestate restore applies the saved link flag to engine, session and options, or puts the old one back, or gives the session up, which takes a failure; agreement and exclusion are kept. |
| `RendererLink.Core.Handle` | src/libretro/libretro_core.c:1219-1411 | One event - load, update, savestate restore, frame failure, unload - keeps agreement and exclusion and, without a failure, has exactly the effect it asks for. |
| `RendererLink.Drive` | src/libretro/libretro_core.c:1219-1411 | After handling all of any sequence of loads, updates, savestate restores, frame failures and unloads with arbitrary failures, a session that was loaded and neither unloaded nor lost to a failed rollback is still there unless its pair is poisoned, agrees with its engine, and never has OpenGL and Local Link both on. |
| `SaveShadow.Shadow.Write` | src/engines/melonds/nds_adapter.cpp:1693-1727 | Exactly the bytes of the circular range are taken over; zero length means the whole device. |
| `SaveShadow.Follow` | src/engines/melonds/nds_adapter.cpp:1693-1727 | While every change of the live save lies in a reported range, the mirror equals the live save after any series of callbacks. |
| `Pacing.Pair.RunFrame` | src/engines/sameboy/sameboy_adapter.c:590-634 | Whatever the next calls into the cores do, a frame makes exactly the calls up to the first moment at which a call made no progress, a watchdog expired or both machines finished a frame, reports which of these it was, and leaves the skew and the finished flags those calls amount to. |
| `Pacing.FrameUnique` | src/engines/sameboy/sameboy_adapter.c:590-634 | The cores' behaviour alone decides how many calls a frame makes and how it ends. |
| `Pacing.FrameBounded` | src/engines/sameboy/sameboy_adapter.c:590-634 | A frame makes between one and 2,000,001 calls, and each machine runs at most one call past the tick watchdog. |
| `Pacing.SkewIsLead` | src/engines/sameboy/sameboy_adapter.c:611-622 | Over any series of calls the skew moves by exactly the difference of the machines' ticks. |
| `Pacing.SkewBounded` | src/engines/sameboy/sameboy_adapter.c:602-622 | If no call takes more than E ticks, a skew in [-E, E) stays there. |
| `Pacing.RunFrames` | src/engines/sameboy/sameboy_adapter.c:590-634 | From reset, over any number of frames: each frame makes exactly the calls its cores call for from the skew that all earlier frames left, the skew is machine 1's total ticks minus machine 0's, and it lies in [-E, E), where E bounds one call. |
| `SerialLinkState.SkewRoundTrip` | src/engines/sameboy/sameboy_adapter.c:920-936 | Decoding inverts encoding for exactly the skews up to 2^20 in magnitude. |
| `SerialLinkState.RoundTrip` | src/engines/sameboy/sameboy_adapter.c:887-980 | A saved link state comes back exactly when its skew is in range and a linked state meets a loaded pair. |
| `SerialLinkState.Canonical` | src/engines/sameboy/sameboy_adapter.c:938-980 | Only the encoding of a state is accepted as that state. |
| `AudioRing.Ring.Push` | src/engines/sameboy/sameboy_adapter.c:132-150 | Pushing appends to a bounded queue that drops its oldest frame when full. |
| `AudioRing.Ring.Read` | src/engines/sameboy/sameboy_adapter.c:664-691 | Reading takes the oldest frames, as many as fit, and leaves the rest. |
| `AudioRing.KeepsNewest` | src/engines/sameboy/sameboy_adapter.c:132-150 | After any series of pushes the ring holds the newest frames of everything pushed. |
| `Compositor.ProjectMap` | src/frontend/compositor.c:74-172 | Every composite pixel names a displayed source pixel, which projects back to it. |
| `Compositor.MapProject` | src/frontend/compositor.c:74-172 | Every displayed source pixel projects to a composite pixel, which names it. |
| `Compositor.CompleteIffNoOverflow` | src/frontend/compositor.c:39-72 | All displayed pixels have a place exactly when the composite's dimensions fit an unsigned integer. |
| `Compositor.CopyFitsIffNoOverflow` | src/frontend/compositor.c:267-316 | The row-wise copy stays inside every buffer that passes the size test exactly when the composite's dimensions fit. |
| `Compositor.PixelsMapped` | src/frontend/compositor.c:267-316 | The pixel at every coordinate of the composed image is the source pixel that the point map names. |
| `Compositor.ComposeFrame` | src/frontend/compositor.c:267-316 | The row-wise copy, for every mode, layout, swap and pitch, leaves exactly the mapped rows, and refuses without writing when geometry or size does not allow it. |

## Left out

- The emulator cores, their timing queues and tables, LocalMP and EGL: foreign code; they appear as clocks, callbacks, scripts and tasks that may fail.
- Three and four players, detaching and attaching again on one coordinator: the adapter only builds a fresh two-player coordinator. Detach events are handled by the model but never sent in its runs.
- The ready and slave bits of the serial registers and the completion event of the serial hardware: they do not influence the protocol.
- EventBuffers.Enqueue: the eight slots are sequences inside the player object; each operation stores a new value instead of writing through a pointer.
- LockstepWake.WakeCovers: a clock moved arbitrarily between callbacks may pass the wake; only steps that leave clocks and offsets alone are claimed, with `TickCovers` and `ResetCovers` for the other two.
- LockstepRuns.SavedRunRestores: restored link states are limited to states saved in runs; validation of foreign states is modelled, but nothing is claimed about runs that continue from forged ones. The adapter's container around the two driver states (magic, sizes, flags) is left out.
- LockstepState.UnpackPack: the serialised driver state is a record of words; its byte order and the numeric values of the serial mode enumeration, which come from an upstream header, are not part of this model.
- StateRestore.Session.Transact: a failed memory allocation counts as a failed read of the engine; the machine states exclude the battery regions, which are tracked separately.
- LockstepData.TransferExchanges: covers the start and the secondary's next callback; what further callbacks before the finish do to the data is left to the callback rows.
- StateRestore.Session.Save: requires, if the sum of the capacities overflows a 64-bit size, that the state fits the buffer; the source would write past the buffer.
- StateWriter.Serialize: the engine's payloads are given; the failing engine calls around it are in StateRestore.Session.Save.
- The GB and GBA header checks and the choice between platforms: easy.
- SaveManager.Manager.FlushAll: clearing the engine's dirty flags and the frame counter of the periodic flush are not modelled; the file replacement is one atomic step that succeeds or changes nothing.
- Legacy save import and the reading of save files: a loaded region is given by its bytes and the length of its file.
- SaveDevice.RestoresNeverShrink: the sizes of the save devices are those of the upstream library, which is not part of this model.
- SaveLocks.WriteExclusion: the acquisition is a state machine over values, since processes interleave; the sort of the lock paths is not modelled, since any duplicate-free order gives the result; two spellings of one file count as two paths.
- PlaylistReader.ParsePlaylist: reading the file from disk is left out.
- PathBuffer.NormalizePath: failing allocations are left out.
- FrameProtocol.RunsKeep: the state is a value and its steps are functions, since caller and workers interleave; failures to start a worker thread and memory-order effects are left out.
- RendererLink.Drive: other engines appear only as sessions without renderer rules; of a savestate restore only the link part is kept here, the rest is in StateRestore.
- Pacing.Pair.RunFrame: the core's calls are given as a sequence that is longer than any frame; the skew after a state restore starts a new count; totals are those since reset.
- AudioRing.Ring.Read: the frames are returned as a sequence instead of an interleaved output buffer.
- Compositor.ComposeFrame: requires that the composite's dimensions do not wrap, since with a wrap the copy leaves the buffer that the size test accepted (`CopyFitsIffNoOverflow`), and that the frames' memory holds every row; the aspect ratio and the output pixel pointer are left out.
- Reticle drawing, touch cursors, input mapping, resampling, colour conversion, option tables, logging and error texts.
