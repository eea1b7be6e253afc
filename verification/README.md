# Verified model of vinput's concurrent and parsing core

This project models, in Dafny, the parts of the voice input system whose correctness is hardest to see
from the code, and proves properties of them for all inputs, all interleavings or all event sequences.

* **The lock-free queue family** (`SpscQueue`, `SpscInvariant`, `SpscFrames`, `SpscProducer`,
  `SpscConsumer`, `SpscRuns`, `SpscRoom`, `SpscProgress`, `SpscZero`, `Semaphore`, `BlockingQueue`, `CircularBuffer`, with `Bits` and
  `Modular` for the arithmetic). `ReaderWriterQueue` is a transition system of one producer and one
  consumer; every program counter stands before one shared load or store or one access to slot memory,
  and a run is any interleaving. `Inv` is an invariant indexed by the two program counters; `SpscFrames`
  holds what each thread guarantees to the other. The semaphore, the blocking queue and the blocking
  circular buffer are composed from the same kind of steps.
* **The voice-session protocol of the Fcitx addon** (`StatusPollGate`, `VoiceSession`, `VoiceProofs`,
  `VoiceEffects`, `VoiceStuck`, `VinputEngine`). `VinputEngine` is the object with its handlers, holding the
  gate object. The contract of each handler states its effect on the session, the polling and the timers
  (`VoiceEffects`), and that it takes the state where a function of `VoiceSession` takes it; `VoiceProofs`
  shows what every sequence of events keeps, and `VoiceStuck` exactly when push-to-talk gets stuck.
  The daemon, the clock, the configuration and the file system answer arbitrarily (`Env`, `Event`).
* **Parsers, printers and rewriters**: the single-JSON-value check (`JsonScanner`), the migration of
  `config.json` (`Migration`, `MigrationEffect`,
  `MigrationRun`), the strict UTF-8 and UTF-16 codecs (`Utf8`, `Utf16`), the
  protobuf reader and vocabulary exporter (`Protobuf`, `BpeVocab`), the line framer and the start
  reservations of client processes (`StdoutFramer`, `ClientStarts`), and the background context writer
  (`ContextWriter`).

`dafny verify dfyconfig.toml` checks everything.

Auxiliary fields (histories, counters, stamps, sets of live contexts) are marked as such where they are
declared; no branch of a modelled operation reads them.

## Findings

* A `ReaderWriterQueue` built for zero elements gets a block of one slot. Once that block is reused its tail
  wraps to its front, and `assert(nextBlockFront != nextBlockTail)` fails while an element is queued.
  `SpscZero.SafeExactlyFromOneOn` proves that every run is safe exactly when `size >= 1`, so the other
  theorems about the queue ask for that.
* `LightweightSemaphore::signal(0)` wakes a blocked waiter without a unit (`Semaphore.SignalZeroWakes`);
  `Semaphore.SignalKeepsIff` gives the exact condition.
* Push-to-talk can go on recording with its trigger up and no timer to stop it, in three ways. The release may be
  swallowed: postprocessing waits for the release of the Escape or Enter it took, compares syms only, and forgets
  it neither at the end of the session nor with the focus (`VoiceStuck.WaitsUntilReleased`), so that a trigger of the
  same sym, pressed later, is not seen going up (`VoiceStuck.LostReleaseSticks`, a session that was never busy);
  `VoiceStuck.ReleaseSeenIff` gives the exact condition. And once a released session was busy, the daemon can bring
  it back to recording: by a late `StatusChanged(recording)` (`VoiceStuck.LateSignalSticks`), or by the answer to a
  poll that was under way when the recording was stopped, since stopping does not outdate it
  (`VoiceStuck.LateReplySticks`). For a session whose release was seen, `VoiceStuck.SticksExactlyWhen` proves that
  nothing but these two does it, and `VoiceProofs.ReleaseStopsRecording` that it cannot happen before the session
  first turns busy.
* The branch of the release handler for an interrupted chord is never taken: whatever interrupts a chord also lets
  go of the held key (`KeysOk` in the invariant).
* `IsSingleJsonValue` accepts a string that is never closed (`JsonScanner.OpenStringPasses`), and takes
  whatever is not space behind a number or literal for part of it (`JsonScanner.SingleAfterScalar`);
  so `}` passes, and so does `[}`, since the kinds of brackets are not told apart (`JsonScanner.MismatchPasses`).
  `JsonScanner.SingleAfterQuote`, `SingleAfterBracket`, `SingleAfterOther` and `BlankHoldsNone` together give the
  exact condition for every text.
* `try_enqueue` and `try_dequeue` of the circular buffer can fail with one slot free, or one element held, that the
  other thread has not signalled yet (`CircularBuffer.FalseReturnsJustified`).
* `AsyncContextWriter::Enqueue` returns false when older entries were evicted although the new entry was
  queued; the comment at `src/addon/core/context_writer.h:26` says otherwise. The model follows the code
  (`ContextWriter.NewestIsQueued`).

## Model

| member | source | states |
|---|---|---|
| `Bits.CeilToPow2` | 3rdparty/readerwriterqueue/readerwriterqueue.h:654-666 | smearing the bits of x - 1 gives the least power of two that is at least x, and wraps to zero for zero and above 2^63 |
| `Bits.MaskIsModulo` | 3rdparty/readerwriterqueue/readerwriterqueue.h:695-717 | masking with 2^k - 1 is the remainder modulo 2^k |
| `SpscRuns.Construct` | 3rdparty/readerwriterqueue/readerwriterqueue.h:105-162 | an empty ring of blocks of the maximal size, or one block of the rounded size; `SpscRuns.RoomForAll` and `SpscRoom.ConstructedShape` say how many and how large |
| `SpscRuns.RoomForAll` | 3rdparty/readerwriterqueue/readerwriterqueue.h:116-125 | the block count formula is the least number of blocks that leaves room for the requested size in all blocks but one |
| `SpscRoom.ConstructedShape` | 3rdparty/readerwriterqueue/readerwriterqueue.h:114-158 | below twice the maximal block size one block, the smallest power of two that holds the request and a spare slot; from there on a ring of the fewest maximal blocks, linked in order |
| `SpscRoom.AudioQueue` | src/daemon/audio/audio_capture.h:105 | the queue of audio chunks, built for 2048 elements, has six blocks of 512 and room for 3066 elements |
| `SpscRoom.NeverMoreThanRoom` | 3rdparty/readerwriterqueue/readerwriterqueue.h:535-644 | on every run without an allocating enqueue the queue never holds more than all slots but the spare one of each block |
| `SpscRoom.FullMeansFalse` | 3rdparty/readerwriterqueue/readerwriterqueue.h:535-644 | a try_enqueue that begins with all those slots taken, and during which nothing is dequeued, returns false |
| `SpscRoom.FillsToTheLastSlot` | 3rdparty/readerwriterqueue/readerwriterqueue.h:535-644 | as long as nothing was dequeued a try_enqueue succeeds if and only if one of those slots is left |
| `SpscRoom.EnqueuesItsElement` | 3rdparty/readerwriterqueue/readerwriterqueue.h:535-644 | on every run a call of enqueue or try_enqueue that has ended added its own element if it returned true and nothing otherwise; enqueue fails only without memory |
| `SpscRoom.TakesTheFront` | 3rdparty/readerwriterqueue/readerwriterqueue.h:285-489 | on every run a try_dequeue or pop that returned true took the element next in order of enqueuing, which try_dequeue gave to its caller; a peek that returned one gave the front element; nothing else was taken |
| `SpscRoom.NewBlocksDouble` | 3rdparty/readerwriterqueue/readerwriterqueue.h:603-612 | on every run a step adds at most one block: twice as large as the largest there is while that is below the maximal size, as large from there on; no block exceeds twice the maximal size or changes its size |
| `SpscRoom.SizeApprox` | 3rdparty/readerwriterqueue/readerwriterqueue.h:491-506 | the walk round the ring gives, between two calls of the producer, exactly the number of queued elements, whatever the consumer is doing |
| `SpscRoom.MaxCapacity` | 3rdparty/readerwriterqueue/readerwriterqueue.h:517-527 | the walk round the ring counts every block once, less its spare slot |
| `SpscRoom.WithinMaxCapacity` | 3rdparty/readerwriterqueue/readerwriterqueue.h:508-527 | on every run the queue holds at most what max_capacity gives, which without an allocating enqueue is the room the constructor made |
| `SpscProducer.ProducerKeeps` | 3rdparty/readerwriterqueue/readerwriterqueue.h:535-644 | every load and store of inner_enqueue, in whatever state the consumer is, keeps the invariant |
| `SpscProducer.StoresTailIndex` | 3rdparty/readerwriterqueue/readerwriterqueue.h:552-569 | storing the tail of the tail block publishes exactly the element of the call |
| `SpscProducer.StoresNextTail` | 3rdparty/readerwriterqueue/readerwriterqueue.h:572-601 | in the window before the tail block moves on, the next block holds the element and the queue is unchanged |
| `SpscProducer.StoresTailBlock` | 3rdparty/readerwriterqueue/readerwriterqueue.h:572-632 | moving the tail block on publishes exactly the element of the call, for a reused and for a new block |
| `SpscProducer.LinksTail` | 3rdparty/readerwriterqueue/readerwriterqueue.h:604-632 | a new block behind the tail block leaves one ring in the same order |
| `SpscConsumer.ConsumerKeeps` | 3rdparty/readerwriterqueue/readerwriterqueue.h:285-489 | every load and store of try_dequeue, peek and pop, in whatever state the producer is, keeps the invariant |
| `SpscConsumer.StoresFrontIndex` | 3rdparty/readerwriterqueue/readerwriterqueue.h:308-325 | storing the front takes exactly the front element out of the queue |
| `SpscConsumer.StoresFrontBlock` | 3rdparty/readerwriterqueue/readerwriterqueue.h:340-368 | moving the front block on keeps the invariant: the block left behind is empty, the one entered is not |
| `SpscFrames.ConsumerStable` | 3rdparty/readerwriterqueue/readerwriterqueue.h:695-717 | what the consumer relies on survives every change the producer may make |
| `SpscFrames.ProducerStable` | 3rdparty/readerwriterqueue/readerwriterqueue.h:695-717 | what the producer relies on survives every change the consumer may make |
| `SpscRuns.FreshOk` | 3rdparty/readerwriterqueue/readerwriterqueue.h:105-162 | the constructed queue satisfies the invariant and is empty |
| `SpscRuns.RunKeeps` | 3rdparty/readerwriterqueue/readerwriterqueue.h:285-644 | the invariant holds after every interleaving |
| `SpscRuns.FifoOnEveryRun` | 3rdparty/readerwriterqueue/readerwriterqueue.h:285-644 | dequeued is a prefix of enqueued, and the rest is what the blocks from the front block round to the tail block hold |
| `SpscRuns.NeverCrashes` | 3rdparty/readerwriterqueue/readerwriterqueue.h:285-644 | no element is constructed over a live one, none is read or destroyed before it is constructed, no null is followed, and the assertions hold |
| `SpscRuns.ReturnsAreRight` | 3rdparty/readerwriterqueue/readerwriterqueue.h:285-644 | a finished call returned the element added, the element taken, the front element; enqueue fails only without memory |
| `SpscRuns.ShadowCopiesLag` | 3rdparty/readerwriterqueue/readerwriterqueue.h:695-717 | each shadow copy is a past value of its index, never ahead and never a whole turn behind |
| `SpscRuns.FalseMeansEmpty` | 3rdparty/readerwriterqueue/readerwriterqueue.h:285-376 | a dequeue, pop or peek that found nothing saw an empty queue at an instant of the call |
| `SpscRuns.FalseMeansFull` | 3rdparty/readerwriterqueue/readerwriterqueue.h:535-644 | a try_enqueue that failed saw at least `size` elements queued at an instant of the call |
| `SpscProgress.EnqueueEnds` | 3rdparty/readerwriterqueue/readerwriterqueue.h:535-644 | an enqueue that has not ended took fewer of its own steps than it had left, whatever the consumer did |
| `SpscProgress.ConsumeEnds` | 3rdparty/readerwriterqueue/readerwriterqueue.h:285-489 | a dequeue, pop or peek that has not ended took fewer of its own steps than it had left, whatever the producer did |
| `SpscProgress.CallsEnd` | 3rdparty/readerwriterqueue/readerwriterqueue.h:285-644 | wait-free: on every run eleven steps of the producer end its call, fourteen of the consumer end its |
| `SpscRuns.MaskIsModuloOnEveryRun` | 3rdparty/readerwriterqueue/readerwriterqueue.h:695-717 | block sizes stay powers of two on every run, so the size mask is the modulo the steps use |
| `SpscZero.ZeroSizeCrashes` | 3rdparty/readerwriterqueue/readerwriterqueue.h:105-162 | a run of a queue built for zero elements that fails the assertion on the next block, for every maximal block size |
| `SpscZero.SafeExactlyFromOneOn` | 3rdparty/readerwriterqueue/readerwriterqueue.h:105-162 | every run is safe if and only if the queue was built for at least one element |
| `Semaphore.SemaStepKeeps` | 3rdparty/readerwriterqueue/atomicops.h:678-756 | every step of the waiter and of the signaller keeps the books of the semaphore |
| `Semaphore.FailsOnlyWithoutUnits` | 3rdparty/readerwriterqueue/atomicops.h:678-745 | a wait fails only when every unit given was taken: tryWait at its one look at the count, a timed wait only after its time is over; a wait with timeout zero never enters the kernel |
| `Semaphore.CountIsExact` | 3rdparty/readerwriterqueue/atomicops.h:678-756 | outside wait the count is given less taken, no post is left over or pending, and no count drops below -1 |
| `Semaphore.NoLostWakeup` | 3rdparty/readerwriterqueue/atomicops.h:678-725 | a blocked or timed-out waiter has a post available or about to be made exactly when a unit was signalled for it |
| `Semaphore.UndoLoopEnds` | 3rdparty/readerwriterqueue/atomicops.h:709-718 | a timed-out waiter leaves the undo loop within four of its own steps once no post is under way, with a unit exactly when one was signalled |
| `Semaphore.UndoLoopWaitsForPost` | 3rdparty/readerwriterqueue/atomicops.h:709-718 | a post that is under way, once made, lets the loop end with a unit |
| `Semaphore.SignalKeepsIff` | 3rdparty/readerwriterqueue/atomicops.h:747-756 | a signal keeps the books if and only if it gives a unit or nobody is blocked |
| `Semaphore.SignalZeroWakes` | 3rdparty/readerwriterqueue/atomicops.h:747-756 | a run in which signal(0) lets a waiter leave with a unit that nobody gave |
| `BlockingQueue.WaitedDequeueSucceeds` | 3rdparty/readerwriterqueue/readerwriterqueue.h:784-943 | once a wait succeeds the inner dequeue or pop succeeds, on every interleaving; the queue is first in, first out; between calls the count is the number of elements |
| `BlockingQueue.SleeperHasPost` | 3rdparty/readerwriterqueue/readerwriterqueue.h:784-903 | a sleeping consumer has a post made or about to be made exactly when a signalled element is queued |
| `BlockingQueue.NoSleepOnElements` | 3rdparty/readerwriterqueue/readerwriterqueue.h:784-903 | on every run no consumer sleeps on a queue that holds an element unless the producer is about to wake it, and one that is woken finds an element |
| `BlockingQueue.ReturnsTellWhatHappened` | 3rdparty/readerwriterqueue/readerwriterqueue.h:861-943 | on every run a consumer call that returned true took exactly one element and gave it to its caller (pop drops it, peek finds the front one and takes none); one that returned false took nothing, and a peek that found nothing saw the queue empty |
| `BlockingQueue.EachCallTakesOne` | 3rdparty/readerwriterqueue/readerwriterqueue.h:861-943 | from the beginning of a consumer call to its end it takes one element if it returns true and is no peek, and none otherwise |
| `BlockingQueue.GivesUpOnlyWhenEmpty` | 3rdparty/readerwriterqueue/readerwriterqueue.h:861-943 | wait_dequeue never gives up; try_dequeue and pop do at one look, a timed wait only after its time is over, and all only while no signalled element is queued |
| `CircularBuffer.Construct` | 3rdparty/readerwriterqueue/readerwritercircularbuffer.h:34-51 | mask + 1 is the least power of two that is at least the capacity |
| `CircularBuffer.SlotIndex` | 3rdparty/readerwriterqueue/readerwritercircularbuffer.h:271-299 | masking a position that wraps at 2^64 still finds the slot of the k-th element |
| `CircularBuffer.BufferStepKeeps` | 3rdparty/readerwriterqueue/readerwritercircularbuffer.h:99-299 | every step of producer and consumer keeps slots, positions and both semaphores in agreement |
| `CircularBuffer.FifoWithinCapacity` | 3rdparty/readerwriterqueue/readerwritercircularbuffer.h:99-299 | first in, first out, never more than maxcap elements, no slot reused while its element lives |
| `CircularBuffer.LiveSlotsDistinct` | 3rdparty/readerwriterqueue/readerwritercircularbuffer.h:271-299 | two live elements never share a slot |
| `CircularBuffer.PeekShowsFront` | 3rdparty/readerwriterqueue/readerwritercircularbuffer.h:235-244 | peek shows the front element whenever the count says there is one |
| `CircularBuffer.EnqueueFailsOnlyWhenFull` | 3rdparty/readerwriterqueue/readerwritercircularbuffer.h:99-163 | an enqueue that gives up does so when no slot is free, except one not yet signalled |
| `CircularBuffer.DequeueFailsOnlyWhenEmpty` | 3rdparty/readerwriterqueue/readerwritercircularbuffer.h:191-254 | a dequeue or pop that gives up does so when nothing is held, except one element not yet signalled |
| `CircularBuffer.FalseReturnsJustified` | 3rdparty/readerwriterqueue/readerwritercircularbuffer.h:99-254 | on every run each call that gives up does so for this reason |
| `CircularBuffer.ReturnsTellWhatHappened` | 3rdparty/readerwriterqueue/readerwritercircularbuffer.h:99-299 | on every run an enqueue that returned true added its own element, one that returned false none; a dequeue or pop that returned true took one element, which a dequeue gave to its caller, and any other call took none |
| `CircularBuffer.EnqueuesItsItem` | 3rdparty/readerwriterqueue/readerwritercircularbuffer.h:99-163 | from the beginning of a producer call to its end it adds its own element if it returns true, and nothing otherwise |
| `StatusPollGate.StatusPollGate.TryBegin` | src/addon/dbus/status_poll_gate.h:17-23 | a ticket only when no request is pending, and the ticket is current |
| `StatusPollGate.StatusPollGate.Invalidate` | src/addon/dbus/status_poll_gate.h:25-25 | no ticket handed out before is current any more |
| `StatusPollGate.StatusPollGate.Complete` | src/addon/dbus/status_poll_gate.h:29-35 | ends the request, and tells whether its reply is current; a second reply never is |
| `StatusPollGate.StatusPollGate.Cancel` | src/addon/dbus/status_poll_gate.h:37-41 | no ticket is active any more |
| `VinputEngine.VinputEngine.OnEvent` | src/addon/core/vinput.cpp:159-248 | one event of any kind takes the fields where `Handle` takes them, and keeps the invariant |
| `VinputEngine.VinputEngine.OnKey` | src/addon/input/vinput_keyevent.cpp:169-400 | a key that no menu consumes has the effect of a press, a release or another key, exactly; only a key that postprocessing takes, and a release still waiting to be swallowed, are kept from it, and they change nothing but what waits; while a session runs no menu consumes a key |
| `VinputEngine.VinputEngine.HotkeyPressed` | src/addon/input/vinput_keyevent.cpp:257-320 | too soon: nothing; while listening: another trigger ends the session, auto-repeat changes nothing, the second tap ends a start or makes a recording busy; otherwise the key is held and, outside tap mode, the session is the whole one a start leaves (context, trigger, mode), held and to stop on release |
| `VinputEngine.VinputEngine.HotkeyReleased` | src/addon/input/vinput_keyevent.cpp:323-399 | the whole session and both timers after a release: its trigger marked released; a hold under 200 ms in the mode for both makes it run on; a longer one, and push-to-talk, arm the stop timer of a recording; in tap mode, without a session, the one a start leaves, released and running on |
| `VinputEngine.VinputEngine.HoldEnded` | src/addon/input/vinput_keyevent.cpp:345-385 | the end of a hold: the menu key changes no session, a short hold lets the session run on, a longer one arms the timer of a recording, and in tap mode a session starts where there is none |
| `VinputEngine.VinputEngine.OtherKeyPressed` | src/addon/input/vinput_keyevent.cpp:226-245 | another key ends exactly the push-to-talk session whose trigger is down, and lets go of the hotkey; nothing else about keys and timer changes |
| `VinputEngine.VinputEngine.StartVoiceRecording` | src/addon/input/vinput_keyevent.cpp:73-167 | the whole session a start leaves: with a free daemon a pending start on the context with the trigger exactly when it is allowed and can be sent; a recording nobody owns is taken over and made busy; otherwise the session that follows the daemon; and when the stop timer is armed |
| `VinputEngine.VinputEngine.RequestStart` | src/addon/input/vinput_keyevent.cpp:140-167 | a pending start on the context if the daemon can be called, else no session |
| `VinputEngine.VinputEngine.StartAndMark` | src/addon/input/vinput_keyevent.cpp:306-316 | the session a start leaves, after a press held and to stop on release, after a tap released and running on |
| `VinputEngine.VinputEngine.FinishStop` | src/addon/input/vinput_keyevent.cpp:461-477 | only a recording changes: it turns busy on its context, with its flags, without its trigger; replies under way stay current, and a call that cannot be sent throttles |
| `VinputEngine.VinputEngine.EnterPendingStart` | src/addon/dbus/vinput_dbus.cpp:423-447 | the session is pending on the given context with its flags kept; no status reply requested before is acted on any more; polling is on |
| `VinputEngine.VinputEngine.EnterRecording` | src/addon/dbus/vinput_dbus.cpp:449-481 | the session records on the given context with its flags kept; the stop timer is armed for a trigger released too early and never disarmed; the same replies stay current |
| `VinputEngine.VinputEngine.EnterBusy` | src/addon/dbus/vinput_dbus.cpp:483-521 | the session is busy on the given context, without trigger, with its flags kept; the same replies stay current |
| `VinputEngine.VinputEngine.FinishSession` | src/addon/dbus/vinput_dbus.cpp:523-541 | nothing is left of the session: no status context, no pending request, no callback in the slot, no timer, no reply that would be acted on |
| `VinputEngine.VinputEngine.ApplyStatus` | src/addon/dbus/vinput_dbus.cpp:692-730 | the session that follows the status, whole, on its own context or else the one that resolves, or none for any other status; without a context nothing changes |
| `VinputEngine.VinputEngine.OnSyncTimer` | src/addon/dbus/vinput_dbus.cpp:391-405 | a tick asks once: never while a request is pending; what it sends is current, and what it cannot send leaves nothing pending |
| `VinputEngine.VinputEngine.SyncWithDaemonStatus` | src/addon/dbus/vinput_dbus.cpp:640-690 | a request goes through the gate into the slot and is current; with one pending nothing changes |
| `VinputEngine.VinputEngine.OnStatusReply` | src/addon/dbus/vinput_dbus.cpp:651-690 | a reply that is not current changes only the polling; a failed one only throttles; a polled idle ends the session exactly after the recovery delay; any other status is followed on the context of the session |
| `VinputEngine.VinputEngine.OnCallReply` | src/addon/dbus/vinput_dbus.cpp:258-371 | a failed start or stop call ends the session and throttles; a good one leaves it and lifts the throttle |
| `VinputEngine.VinputEngine.OnStatusChanged` | src/addon/dbus/vinput_dbus.cpp:858-871 | no request under way is acted on any more, and the session follows the signal on the context that resolves |
| `VinputEngine.VinputEngine.OnPartial` | src/addon/dbus/vinput_dbus.cpp:824-856 | the session keeps its phase, context and flags, and the same replies stay current |
| `VinputEngine.VinputEngine.OnResult` | src/addon/dbus/vinput_dbus.cpp:732-816 | the session ends, and a choice of candidates opens on the context that resolved, over no palette |
| `VinputEngine.VinputEngine.OnDestroyed` | src/addon/core/vinput.cpp:179-212 | the context is stored nowhere any more; a session on it is over and its polling stopped, one elsewhere goes on untouched |
| `VinputEngine.VinputEngine.OnFocusOut` | src/addon/core/vinput.cpp:214-236 | every key is let go, and exactly a push-to-talk session on that context ends |
| `VinputEngine.VinputEngine.ResolveInputContext` | src/addon/core/vinput.cpp:332-344 | the context is alive, is the one of the session while there is one, and is missing only when none is known |
| `VoiceEffects.PendingStartMeans` | src/addon/dbus/vinput_dbus.cpp:423-447 | the effect of a pending start, for every state that satisfies the invariant |
| `VoiceEffects.RecordingMeans` | src/addon/dbus/vinput_dbus.cpp:449-481 | the effect of entering Recording |
| `VoiceEffects.BusyMeans` | src/addon/dbus/vinput_dbus.cpp:483-521 | the effect of entering Inferring or Postprocessing |
| `VoiceEffects.FinishMeans` | src/addon/dbus/vinput_dbus.cpp:523-541 | the effect of ending a session |
| `VoiceEffects.ApplyMeans` | src/addon/dbus/vinput_dbus.cpp:692-730 | the effect of a status of the daemon |
| `VoiceEffects.ResolvedAlive` | src/addon/core/vinput.cpp:332-344 | what resolves is alive, and is the context of the session while there is one |
| `VoiceEffects.FinishStopMeans` | src/addon/input/vinput_keyevent.cpp:461-477 | the effect of stopping a recording |
| `VoiceEffects.StartMeans` | src/addon/input/vinput_keyevent.cpp:73-167 | the whole session each way of starting leaves, and the stop timer |
| `VoiceEffects.StartFlushes` | src/addon/dbus/vinput_dbus.cpp:258-264 | buffered context text is given up before the daemon is asked to start, whether it can be asked or not |
| `VoiceEffects.StopBuffer` | src/addon/input/vinput_keyevent.cpp:461-477 | stopping gives it up exactly when no scene keeps context lines |
| `VoiceEffects.OtherKeyMeans` | src/addon/input/vinput_keyevent.cpp:226-245 | the effect of a key that is no hotkey |
| `VoiceEffects.PressMeans` | src/addon/input/vinput_keyevent.cpp:257-320 | the effect of pressing a hotkey, down to the whole session |
| `VoiceEffects.ReleaseMeans` | src/addon/input/vinput_keyevent.cpp:323-399 | the effect of a release that reaches the hotkeys, down to the whole session; a chord never leaves a key held, so its branch is never taken |
| `VoiceEffects.HoldEndedMeans` | src/addon/input/vinput_keyevent.cpp:345-385 | the effect of the end of a hold |
| `VoiceEffects.TapStartsSession` | src/addon/input/vinput_keyevent.cpp:358-366 | in tap mode, with no session, a free daemon that can be called and, for a command, scene and selection: the release of the held key gives exactly the pending start on its context with its trigger, released and not to stop on release |
| `VoiceEffects.MenuKeyToggles` | src/addon/input/vinput_keyevent.cpp:347-350 | the release of the held menu key opens or closes the palette when there is no session |
| `VoiceEffects.KeyMeans` | src/addon/input/vinput_keyevent.cpp:169-400 | the effect of a key, whether or not menus are open |
| `VoiceEffects.MenusMean` | src/addon/input/vinput_keyevent.cpp:200-205 | an open result menu sees a key first and the palette only what is left; what closes, and what a chosen palette entry leaves known of the daemon |
| `VoiceEffects.TickMeans` | src/addon/dbus/vinput_dbus.cpp:391-405 | the effect of a tick of the polling timer |
| `VoiceEffects.ReplyMeans` | src/addon/dbus/vinput_dbus.cpp:651-690 | the effect of a status reply |
| `VoiceEffects.CallReplyMeans` | src/addon/dbus/vinput_dbus.cpp:258-371 | the effect of the reply to a start or stop call |
| `VoiceEffects.SignalMeans` | src/addon/dbus/vinput_dbus.cpp:858-871 | the effect of a status signal |
| `VoiceEffects.PartialMeans` | src/addon/dbus/vinput_dbus.cpp:824-856 | the effect of a partial result |
| `VoiceEffects.ResultMeans` | src/addon/dbus/vinput_dbus.cpp:732-816 | the effect of a result |
| `VoiceEffects.DestroyedMeans` | src/addon/core/vinput.cpp:179-212 | the effect of the destruction of a context |
| `VoiceEffects.FocusOutMeans` | src/addon/core/vinput.cpp:214-236 | the effect of losing focus |
| `VoiceEffects.SmallEventsMean` | src/addon/core/vinput.cpp:170-176 | what a new context, a commit, the flush timer and a reload change, and that they change nothing else |
| `VoiceProofs.HandleKeeps` | src/addon/dbus/vinput_dbus.cpp:383-871 | every event keeps the invariant, whatever the daemon answers: session and status context agree, stored contexts live, the pending request is the one in the slot, no menu is open during a session, no key is held after a chord, a released recording has its timer until it turns busy |
| `VoiceProofs.RunKeeps` | src/addon/core/vinput.cpp:159-248 | the invariant holds after every sequence of events |
| `VoiceProofs.ContextsStayAlive` | src/addon/core/vinput.cpp:170-212 | a session exists exactly when a status context does, on the same context; no destroyed context is stored or touched |
| `VoiceProofs.OnlyCurrentReplies` | src/addon/dbus/vinput_dbus.cpp:640-690 | a status reply is acted on only if it was requested inside the still-running session with no status signal and no pending start since; no other request is active |
| `VoiceProofs.StaleRepliesIgnored` | src/addon/dbus/vinput_dbus.cpp:651-661 | any other reply changes nothing but the polling |
| `VoiceProofs.GateReopens` | src/addon/dbus/vinput_dbus.cpp:383-421 | the gate never gets stuck: while a request is pending the slot holds its callback, any reply to it reopens the gate, and an open gate lets the next tick ask again |
| `VoiceProofs.ReleaseStopsRecording` | src/addon/input/vinput_keyevent.cpp:169-400 | until a session first turns busy, recording with the trigger released has the stop timer armed, in every order of events |
| `VoiceProofs.StopTimerEndsRecording` | src/addon/input/vinput_keyevent.cpp:437-477 | when the armed timer fires, the recording ends on the same context |
| `VoiceStuck.ReleaseSeenIff` | src/addon/input/vinput_keyevent.cpp:174-179 | the release of the trigger of a starting or recording session is seen if and only if no key of the same sym is waiting for its release to be swallowed |
| `VoiceStuck.WaitsUntilReleased` | src/addon/input/vinput_keyevent.cpp:174-198 | such a key goes on waiting through every event, the end of the session and the loss of focus included, until its release comes or postprocessing takes another key |
| `VoiceStuck.LostReleaseSticks` | src/addon/input/vinput_keyevent.cpp:174-198 | a whole run in which a trigger goes up unseen and the recording goes on, in a session that was never busy |
| `VoiceStuck.SticksExactlyWhen` | src/addon/dbus/vinput_dbus.cpp:449-481 | push-to-talk gets stuck by an event if and only if the released session already turned busy with no stop timer, and the daemon says that it records, in a signal or in a reply that is acted on |
| `VoiceStuck.StuckRunHasCause` | src/addon/input/vinput_keyevent.cpp:169-477 | on every run that ends stuck, some event made it so in just this way |
| `VoiceStuck.LateReplySticks` | src/addon/input/vinput_keyevent.cpp:461-477 | from every recording whose stop timer fires while a poll is under way: the poll is still current, and if it answers recording, push-to-talk sticks |
| `VoiceStuck.LateSignalSticks` | src/addon/dbus/vinput_dbus.cpp:449-481 | a whole run in which a status signal after the busy phase does the same |
| `JsonScanner.IsSingleJsonValue` | src/common/json/json_access.h:183-243 | the scan answers whether the first value is followed by nothing but space |
| `JsonScanner.PrintPasses` | src/common/json/json_access.h:196-223 | scanning over any printed value, nested or with escapes, leaves depth and string state as they were |
| `JsonScanner.SingleExactlyOnBlankTail` | src/common/json/json_access.h:183-243 | for every object, array and string in every layout, the text with a tail is a single value exactly when the tail is blank |
| `JsonScanner.SingleAfterScalar` | src/common/json/json_access.h:233-243 | behind a number or literal, exactly when what follows up to the first space, and then only space, remains |
| `JsonScanner.OpenStringPasses` | src/common/json/json_access.h:224-232 | an unclosed string is accepted, unless it breaks off behind a backslash |
| `JsonScanner.Shapes` | src/common/json/json_access.h:224-232 | every text behind a quote is a closed string with a tail, or never closed, or breaks off behind a backslash |
| `JsonScanner.SingleAfterQuote` | src/common/json/json_access.h:183-243 | for every text that begins with a quote: a single value if and only if the string is closed with a blank tail, or is never closed and does not break off |
| `JsonScanner.NestEnds` | src/common/json/json_access.h:193-223 | wherever the scan of a nest ends, what lies before is strings, nests closed by brackets of any kind and other characters |
| `JsonScanner.SingleAfterBracket` | src/common/json/json_access.h:183-243 | for every text that begins with a bracket: a single value if and only if the brackets close, of whatever kinds, and only space follows |
| `JsonScanner.SingleAfterOther` | src/common/json/json_access.h:233-243 | for every text that begins with anything else: if and only if only space follows the first run of what is not space |
| `JsonScanner.BlankHoldsNone` | src/common/json/json_access.h:183-190 | a text of nothing but space holds no value |
| `JsonScanner.MismatchPasses` | src/common/json/json_access.h:206-219 | a closing bracket alone passes, and so do brackets of different kinds |
| `Migration.WalkEffect` | src/common/config/config_migration.cpp:211-336 | an object that the path of a rule leads to becomes what the action makes of it |
| `Migration.WalkFrame` | src/common/config/config_migration.cpp:281-336 | every node that a rule does not address stays as it is |
| `Migration.RenameNeverOverwrites` | src/common/config/config_migration.cpp:216-237 | a value under the new key stays, else the old value moves there; all other keys stay |
| `Migration.HitsExact` | src/common/config/config_migration.cpp:281-336 | a change is logged exactly for the addressed objects the action applies to |
| `Migration.LoggedIffChanged` | src/common/config/config_migration.cpp:211-336 | one rule changes the tree exactly when it logs a change |
| `Migration.WalkSettles` | src/common/config/config_migration.cpp:211-336 | after a rule was applied it applies nowhere |
| `Migration.RulesOk` | src/common/config/config_migration.cpp:80-141 | no rule of the table undoes or wakes an earlier one |
| `Migration.PassIdempotent` | src/common/config/config_migration.cpp:531-550 | a second pass changes nothing and logs nothing, for every tree and version |
| `Migration.PassLogsIffChanged` | src/common/config/config_migration.cpp:531-550 | a pass changes the tree exactly when it logs something |
| `MigrationEffect.RemoveLookup` | src/common/config/config_migration.cpp:238-249 | removing takes away the key and nothing else |
| `MigrationEffect.EnsureLookup` | src/common/config/config_migration.cpp:250-260 | ensuring adds the default only where the key is missing |
| `MigrationEffect.ReplaceLookup` | src/common/config/config_migration.cpp:261-275 | replacing changes the value only where it equals the old default within the tolerance |
| `MigrationEffect.PassFrame` | src/common/config/config_migration.cpp:531-550 | a pass leaves every node alone that no due rule addresses |
| `MigrationEffect.PassEffect` | src/common/config/config_migration.cpp:531-550 | a pass does to every object on a path what the due rules with that path say, in order, and the other rules do not interfere |
| `MigrationEffect.ScenesAreMigrated` | src/common/config/config_migration.cpp:82-90 | for every version and every key of every scene: what an older configuration called candidate_count and show_raw has its new name unless that was taken, raw_prev is there, every other key is the same |
| `MigrationEffect.VadIsUpgraded` | src/common/config/config_migration.cpp:98-139 | for every version: each detection setting of an older configuration near its old default has the new one, every other value is the same |
| `MigrationEffect.LlmIsMigrated` | src/common/config/config_migration.cpp:84-84 | for every version and key: what an older configuration called adaptors is adapters, unless that was taken; every other key is the same |
| `MigrationEffect.GlobalIsMigrated` | src/common/config/config_migration.cpp:93-93 | for every version and key: an older configuration loses its default language; every other key is the same |
| `MigrationEffect.PassValues` | src/common/config/config_migration.cpp:80-141 | the value of every key of every object that a path of the table leads to, for every version |
| `MigrationRun.MaxRuleVersion` | src/common/config/config_migration.cpp:143-152 | the greatest version of the rules |
| `MigrationRun.NewestRule` | src/common/config/config_migration.cpp:80-152 | that version is 2.4.0 |
| `MigrationRun.TargetIsNewest` | src/common/config/config_migration.cpp:154-158 | the constraint written into the file names that version |
| `MigrationRun.TargetBound` | src/common/config/config_migration.cpp:160-175 | the lower bound of that constraint is the version itself |
| `MigrationRun.BoundReads` | src/common/config/config_migration.cpp:160-175 | a bound is the version behind blanks and operators, blanks at the end ignored |
| `MigrationRun.BoundReadsFirst` | src/common/config/config_migration.cpp:160-175 | of several constraints the one before the first comma counts, whatever follows |
| `MigrationRun.BlankHasNoBound` | src/common/config/config_migration.cpp:160-165 | a blank text has no bound |
| `MigrationRun.VersionIsRead` | src/common/config/config_migration.cpp:521-528 | the version of a configuration is read from a text under version; anything else counts as no version |
| `MigrationRun.BeforeIsNumeric` | src/common/utils/version_utils.h:8-14 | versions are ordered like the numbers that have their parts as digits |
| `MigrationRun.EqualMeans` | src/common/config/config_migration.cpp:188-202 | numbers are equal within the tolerance, other scalars when they are the same, arrays and objects never |
| `MigrationRun.RunConfigMigration` | src/common/config/config_migration.cpp:441-627 | the whole run: fast path, version gate, pass, legacy field, version stamp, dry run and failed writes; what it means is said by `MigrationRun.NeededExactly`, `OldIsMigrated`, `MigratedValues` and `MigratedFrame` |
| `MigrationRun.NeededExactly` | src/common/config/config_migration.cpp:496-576 | needed if and only if the version is missing, does not parse or is older than 2.4.0, or the legacy field is there, or the host does not satisfy a constraint other than the one a migration writes |
| `MigrationRun.OldIsMigrated` | src/common/config/config_migration.cpp:517-588 | every older configuration is migrated, when it is no dry run and the files can be written: needed and applied, version >=2.4.0, no legacy field |
| `MigrationRun.MigratedValues` | src/common/config/config_migration.cpp:531-550 | in the file that a run writes, every key of every object on a path of the table has its new value |
| `MigrationRun.MigratedFrame` | src/common/config/config_migration.cpp:531-571 | in the file that a run leaves, every node no due rule addresses, the version fields apart, is as it was |
| `MigrationRun.PassKeepsVersions` | src/common/config/config_migration.cpp:531-571 | the rules leave both version fields alone |
| `MigrationRun.LogsIffMigrated` | src/common/config/config_migration.cpp:518-571 | a run logs something exactly when it changes the tree |
| `MigrationRun.NeededIffChanges` | src/common/config/config_migration.cpp:435-439 | a dry run predicts a real one and changes nothing; a real one changes the file exactly when a migration is needed and the writes succeed |
| `MigrationRun.SecondRunNeedsNothing` | src/common/config/config_migration.cpp:441-588 | after a run that did not fail, another one reports nothing needed, whatever the host version |
| `Utf8.AcceptsExactlyChars` | 3rdparty/unicodelib/unicodelib_encodings.h:159-198 | decode_codepoint accepts exactly the sequences of section 4 of RFC 3629 |
| `Utf8.DecodedIsChar` | 3rdparty/unicodelib/unicodelib_encodings.h:159-198 | what it accepts is a scalar value, encoded in just these bytes |
| `Utf8.EncodedIsDecoded` | 3rdparty/unicodelib/unicodelib_encodings.h:115-144 | an encoded scalar value is decoded, whatever follows it |
| `Utf8.DecodeText` | 3rdparty/unicodelib/unicodelib_encodings.h:208-217 | the decoding loop, skipping ill-formed bytes one by one |
| `Utf8.EncodeText` | 3rdparty/unicodelib/unicodelib_encodings.h:153-157 | the encoding loop |
| `Utf8.CodepointCount` | 3rdparty/unicodelib/unicodelib_encodings.h:99-113 | the count is the length of the decoded text |
| `Utf8.DecodeEncode` | 3rdparty/unicodelib/unicodelib_encodings.h:153-217 | decoding undoes encoding on all sequences of scalar values |
| `Utf8.EncodeDecode` | 3rdparty/unicodelib/unicodelib_encodings.h:153-217 | encoding undoes decoding on well-formed text |
| `Utf8.SanitizeUtf8` | src/addon/core/vinput.cpp:50-56 | decodes and encodes again |
| `Utf8.SanitizeKeepsExactlyWellFormed` | src/addon/core/vinput.cpp:50-56 | the identity exactly on well-formed text, always well-formed, idempotent, the same code points |
| `Utf8.PopLastUtf8Char` | src/addon/menu/vinput_menu.cpp:78-91 | cuts at the last byte that is no continuation byte; from well-formed text exactly the last code point |
| `Utf16.AcceptsExactlyChars` | 3rdparty/unicodelib/unicodelib_encodings.h:316-341 | decode_codepoint accepts exactly the characters of section 2 of RFC 2781 |
| `Utf16.EncodedIsDecoded` | 3rdparty/unicodelib/unicodelib_encodings.h:283-301 | an encoded scalar value is decoded, whatever follows it |
| `Utf16.DecodeText` | 3rdparty/unicodelib/unicodelib_encodings.h:351-360 | the decoding loop, skipping unpaired surrogates |
| `Utf16.EncodeText` | 3rdparty/unicodelib/unicodelib_encodings.h:310-314 | the encoding loop |
| `Utf16.CodepointLength` | 3rdparty/unicodelib/unicodelib_encodings.h:254-265 | the length of what the decoder accepts, else zero |
| `Utf16.CodepointCount` | 3rdparty/unicodelib/unicodelib_encodings.h:267-281 | the count is the length of the decoded text |
| `Utf16.DecodeEncode` | 3rdparty/unicodelib/unicodelib_encodings.h:310-360 | decoding undoes encoding on all sequences of scalar values |
| `Utf16.ThereAndBack` | 3rdparty/unicodelib/unicodelib_encodings.h:492-506 | UTF-8 to UTF-16 and back is sanitizing, the identity exactly on well-formed text |
| `Utf16.BackAndThere` | 3rdparty/unicodelib/unicodelib_encodings.h:492-506 | UTF-16 to UTF-8 and back is the identity exactly on well-formed text |
| `Protobuf.ByteReader.ReadVarint` | src/common/asr/bpe_vocab_exporter.cpp:40-57 | the loop reads what `Varint` specifies and leaves the rest; `Protobuf.ReadsEveryForm` and `ReadsOnlyVarints` say exactly which bytes that is |
| `Protobuf.ByteReader.ReadLengthDelimited` | src/common/asr/bpe_vocab_exporter.cpp:59-68 | a length and that many bytes, if they are there |
| `Protobuf.ByteReader.ReadFixed32` | src/common/asr/bpe_vocab_exporter.cpp:70-80 | four bytes, the lowest first |
| `Protobuf.ByteReader.Skip` | src/common/asr/bpe_vocab_exporter.cpp:90-111 | skips a field as `SkipField` specifies; `Protobuf.SkipsValue` and `SkippedIsValue` say exactly what is skipped |
| `Protobuf.VarintFits` | src/common/asr/bpe_vocab_exporter.cpp:40-57 | what is read fits into 64 bits, and at least one byte is consumed |
| `Protobuf.ReadsEveryForm` | src/common/asr/bpe_vocab_exporter.cpp:40-57 | every varint of one to ten bytes that fits 64 bits is read, canonical or not, up to its end, as its base-128 value |
| `Protobuf.ReadsOnlyVarints` | src/common/asr/bpe_vocab_exporter.cpp:40-57 | nothing else is read |
| `Protobuf.ReadsBack` | src/common/asr/bpe_vocab_exporter.cpp:40-57 | reading inverts the base-128 encoding of every number below 2^64 |
| `Protobuf.Fixed32Inverts` | src/common/asr/bpe_vocab_exporter.cpp:70-80 | reading inverts the four-byte encoding of every number below 2^32 |
| `Protobuf.Consumes` | src/common/asr/bpe_vocab_exporter.cpp:40-111 | every successful read consumes input, so both parse loops end |
| `Protobuf.SkipsValue` | src/common/asr/bpe_vocab_exporter.cpp:98-111 | an encoded value followed by anything is skipped to exactly what follows: a varint, eight bytes, a length and its payload, four bytes |
| `Protobuf.SkippedIsValue` | src/common/asr/bpe_vocab_exporter.cpp:98-111 | only a value of its wire type is skipped, and only wire types 0, 1, 2 and 5 are |
| `BpeVocab.ParseSentencePiece` | src/common/asr/bpe_vocab_exporter.cpp:121-157 | the loop over a piece record gives what `ParsePiece` specifies, which `BpeVocab.PieceReadsBack` and `PieceIsMessage` characterize |
| `BpeVocab.ExportSentencePieceVocabulary` | src/common/asr/bpe_vocab_exporter.cpp:161-231 | the file holds one line for each piece of the model, or nothing is written; `BpeVocab.ExportsExactly` says when |
| `BpeVocab.ValidateBpeVocabulary` | src/common/asr/bpe_vocab_exporter.cpp:233-275 | accepts exactly the files within the limits whose every line splits |
| `BpeVocab.ExportedIsAccepted` | src/common/asr/bpe_vocab_exporter.cpp:161-275 | every exported vocabulary is accepted and splits back into the pieces and scores of the model |
| `BpeVocab.PieceReadsBack` | src/common/asr/bpe_vocab_exporter.cpp:121-157 | a message of any valid fields in any order reads as its last text and last score, field numbers cut to 32 bits, and is rejected exactly when it has no text |
| `BpeVocab.ModelReadsBack` | src/common/asr/bpe_vocab_exporter.cpp:184-224 | a model of any valid fields is read exactly when all its pieces are, as these pieces in order, whatever other fields are before, between and behind them |
| `BpeVocab.PieceIsMessage` | src/common/asr/bpe_vocab_exporter.cpp:121-157 | only messages of valid fields are read as a piece |
| `BpeVocab.ModelIsMessage` | src/common/asr/bpe_vocab_exporter.cpp:184-224 | only messages of valid fields are read as a model |
| `BpeVocab.ExportsExactly` | src/common/asr/bpe_vocab_exporter.cpp:161-231 | exported if and only if the model is within 64 MiB, has one to a million pieces, all of them supported, and the text is within 256 MiB, which then is written |
| `BpeVocab.LinesExactly` | src/common/asr/bpe_vocab_exporter.cpp:251-252 | the lines hold no line feed, and put together they are the file, up to a line feed missing at its end |
| `BpeVocab.SplitsExactly` | src/common/asr/bpe_vocab_exporter.cpp:252-267 | a line splits at its first tab into a piece within the limit and a score that parses and is finite, or is rejected; a carriage return at its end makes no difference |
| `BpeVocab.NoTabRejected` | src/common/asr/bpe_vocab_exporter.cpp:255-258 | a line without a tab is rejected |
| `StdoutFramer.StdoutFramer.Feed` | src/common/client/client_manager.cpp:58-98 | gives the frames the chunk completes; pending never exceeds 64 KiB |
| `StdoutFramer.PartsAreTheSplit` | src/common/client/client_manager.cpp:58-98 | the reference is the stream cut at its line feeds |
| `StdoutFramer.ChunksDoNotMatter` | src/common/client/client_manager.cpp:58-98 | however the stream is cut into chunks, the lines are the reference split with CR removed and lines over 64 KiB dropped |
| `ClientStarts.StartsExclude` | src/common/client/client_manager.cpp:106-250 | however threads race, two starts never hold the same client, no running session is replaced, no reservation is left behind |
| `ClientStarts.TrackedState.TryReserve` | src/common/client/client_manager.cpp:175-184 | succeeds exactly when neither a session nor another start holds the client |
| `ClientStarts.TrackedState.GiveUp` | src/common/client/client_manager.cpp:120-142 | a failed start gives its reservation back |
| `ClientStarts.TrackedState.Insert` | src/common/client/client_manager.cpp:237-243 | handing over a session replaces none |
| `ContextWriter.AsyncContextWriter.Enqueue` | src/addon/core/context_writer.cpp:33-59 | nothing to write: true and no change; stopping: false and no change; larger than 4 MiB: false and counted as dropped; else queued last, with true exactly when nothing older was dropped for it |
| `ContextWriter.AsyncContextWriter.MakeRoom` | src/addon/core/context_writer.cpp:47-53 | the eviction loop, without underflow of the byte count |
| `ContextWriter.AsyncContextWriter.Take` | src/addon/core/context_writer.cpp:74-84 | the worker takes the front entry, or ends |
| `ContextWriter.AsyncContextWriter.WriteOut` | src/addon/core/context_writer.cpp:86-94 | the worker writes the entry it took |
| `ContextWriter.AsyncContextWriter.Append` | src/addon/core/context_writer.cpp:98-157 | the file becomes its lines and the new one, cut to the newest at every hundredth write where the file can be read and replaced, and stays where it cannot be opened |
| `ContextWriter.BoundedAndConserved` | src/addon/core/context_writer.cpp:21-96 | on every interleaving the byte count is exact, the bounds hold, and accepted is persisted, in flight, pending and evicted |
| `ContextWriter.OrderKept` | src/addon/core/context_writer.cpp:21-96 | entries are written in the order they were accepted, pending is the newest part, and the file is the newest part of the lines of the written entries whose write could open the file |
| `ContextWriter.NewestAreInFile` | src/addon/core/context_writer.cpp:98-157 | on every run, however the file system answers, the file holds the newest of the lines that could reach it, and at least as many of them as the smallest limit of any entry |
| `ContextWriter.EvictsFewest` | src/addon/core/context_writer.cpp:47-53 | eviction takes the fewest of the oldest entries that make room |
| `ContextWriter.NewestIsQueued` | src/addon/core/context_writer.cpp:33-59 | an entry that is not refused is queued last; Enqueue returns true exactly when nothing was evicted for it |
| `ContextWriter.IdleMeansDone` | src/addon/core/context_writer.cpp:61-64 | when idle, every accepted entry was written or evicted |
| `ContextWriter.ExitsDrained` | src/addon/core/context_writer.cpp:71-96 | the worker ends only when told to, with everything written, and nothing is accepted afterwards |
| `ContextWriter.StoppedDrains` | src/addon/core/context_writer.cpp:21-31 | once stopped, whatever the worker is doing and however the file system answers each move, it writes all that is in flight and pending, in order, and ends within two moves an entry and one or two more |
| `ContextWriter.FileBounded` | src/addon/core/context_writer.cpp:117-157 | on every run with one limit and working files the cache is the newest part of the lines of the written entries: all of them while they are within the limit, never fewer than the limit afterwards, below the limit plus a hundred, and exactly as many as the number of writes determines |

## Left out

- Memory ordering: steps are sequentially consistent; fences, padding and alignment are not modelled.
- The queues, the semaphore and the circular buffer are transition systems over values, since two threads step in turn; their fields are not a heap object.
- Move, swap and destructors of the queues, which are not concurrent operations, and size_approx of the blocking queue and the circular buffer, which reads the semaphore.
- SpscRoom.SizeApprox and SpscRoom.MaxCapacity: the walk is taken at one instant, not interleaved with the two threads.
- SpscRuns.Construct: requires a size below 2^63 and a maximal block size of at least 2, as the assertions of the original do; allocation at construction does not fail.
- CircularBuffer.Construct: requires a capacity below 2^63; above it the original computes a mask for a buffer it cannot allocate.
- Kernel semaphores: an abstract counter; a wait may time out or be interrupted at any time.
- StatusPollGate: the 64-bit counters do not wrap.
- VinputEngine: texts, palette and result rendering, key matching and notifications; what an open menu does with a key, and what a palette entry asks of the daemon, are arbitrary answers of `Env`.
- VinputEngine: a commit that re-enters the engine through its own commit event; `pending_start_event_`, which no code arms.
- VinputEngine: status callbacks dropped with their slot are still allowed to arrive, and are shown to be ignored; the slots of start and stop calls are not modelled, so their replies may come at any time.
- The context buffer is modelled by its context only, not by its text.
- JsonScanner: the depth counter is unbounded; more than 2^31 - 1 open brackets would overflow it. The source's check for a negative depth can never succeed and is left out.
- Migration: the tree is a value rewritten by functions, not updated in place; the log is a set of rules and addresses, without its texts and its order; numbers are reals.
- MigrationRun: vinput.conf and its INI rules, symbolic links, backup names, and reading and writing JSON text; parsing a plain version and the host's own version check are parameters.
- Utf8 and Utf16: wide strings, grapheme and width functions.
- BpeVocab: file access and floating point; scores are bit patterns with a printer and parser that are assumed to be inverse.
- ClientStarts: process handling and PID files; `IsRunning` only refuses earlier.
- ContextWriter: condition variables are modelled by the worker moving only when its wait condition holds; the file is a sequence of lines.
- Base64, configuration views, wire structures, ASR backends, adapters, the command line and the GUI: table lookups and field copying that would only add easy members.
