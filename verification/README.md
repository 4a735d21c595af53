# A verified model of the iroh React Native binding

This project models the hand-written concurrency, lifecycle and codec logic of the
React Native binding for iroh, and proves what that logic promises. The networking
itself is behind its visible contracts (a read fills its buffer or reports the end, a
failed write is final, a mutex is exclusive, a oneshot wakes on send or drop).

`dafny verify dfyconfig.toml` checks everything.

How the model is built:

- JavaScript runs to completion, so every native callback, `next()`, `cancel()`,
  `close()` and promise continuation is one step. Rust tasks are interleaved step by
  step, atomic between lock operations, map accesses and writes.
- Each stateful object is a value together with step functions that say what it does
  and what leaves it; a class with the source's fields carries out the same steps by
  assignment and loops, and each method's `ensures` equates its new state with the
  step's. The theorems quantify over every run of steps.
- What a machine's state means is read off its events: what was sent, heard, answered,
  settled or refused is defined on the sequence of events (and, where it depends on who was
  waiting, on the states between them), and a theorem over every run says that the state is
  exactly that.
- Promises are named by the number of the `next()` call that made them. Hooks
  (`onDropped`, `onLagged`, `onActive`, native calls) are recorded effects.

| file | models |
|---|---|
| `Framing.dfy`, `SendLock.dfy`, `FramedDelivery.dfy` | the framed stream protocol, its reader, concurrent senders under the send mutex, and the way from `send` to the consumer's loop |
| `Listening.dfy` | one listener per ALPN, the inbound backlog |
| `AsyncKernel.dfy`, `MessageQueues.dfy`, `Watchables.dfy` | parked consumers and the two buffering policies above them |
| `Streams.dfy`, `Ownership.dfy`, `Endings.dfy`, `HandingOver.dfy` | one stream's controller; who closes what among endpoints, listeners, connections and streams; what ends each of them; which connections reach a consumer |
| `AddressWatch.dfy` | the lazily started native address watch |
| `Downloads.dfy`, `Collections.dfy`, `CollectionDownloads.dfy` | the capped download queue, single transfers, collection transfers, and a collection's children in that queue |
| `Registries.dfy`, `NativeTransfers.dfy`, `Coalescers.dfy`, `DownloadBridge.dfy` | handles, the native cancel/complete race, the progress limiter, and one `download_blob` call across the bridge |
| `Gossip.dfy` | gossip subscriptions |
| `Lines.dfy`, `CloseLines.dfy`, `Json.dfy`, `Addresses.dfy`, `RelayModes.dfy` | the text formats that cross the bridge, each with the reader of the other side |
| `Base.dfy`, `Errors.dfy` | shared vocabulary |

## Where the code does not do what its documentation says

The model follows the code. In each case a lemma exhibits the failure, and another says
exactly when the promise is kept.

- `src/message-queue.ts:46-48` promises every pushed value is delivered or dropped
  through the hook. A value pushed after the close is neither:
  `MessageQueues.EveryPushIsAccountedFor` (kept if and only if nothing was pushed late).
- `src/streams.ts:60` says that breaking out of a loop closes the stream. It does not:
  `Streams.BrokenLoopLeavesStreamOpen`, `Streams.StreamSettlesExactlyWhenEnded`.
- An orderly end of stream discards what the consumer had not read yet, as the queue's
  documentation says and the stream's (`src/streams.ts:48-55`) does not:
  `Streams.EndOfStreamLosesTheBacklog` (nothing is lost if and only if the buffer was empty).
- A framed stream can end in the middle of a frame and still be reported as orderly, when
  the connection was closed deliberately by either side:
  `Framing.TruncatedFrameCanLookOrderly`; every case is told apart by `Framing.OrderlyEnd`.
- `src/streams.ts:144-148` and `157-159` say that unconsumed connections are closed. One that
  arrives after the loop over its listener was broken is adopted, given to nobody, and not
  closed with the listener: `HandingOver.StrayConnection`. A connection is received, waits or
  is closed if and only if the queue was open when it arrived:
  `HandingOver.LookedAfterIffArrivedInTime`.
- `src/watchable.ts:152-153` says exactly one iterator rethrows the terminal error. Two may:
  `Watchables.TwoIteratorsBothThrow`. It holds if and only if exactly one was asked past its
  last value without having been returned before the close:
  `Watchables.ExactlyOneThrowsIffOneIsOwed`.
- Closing an endpoint is meant to close its streams. One that was opened on a connection
  while it finished is outside the cascade; only its own end closes it:
  `Ownership.LateStreamEscapes`. All others are closed, and only those escape:
  `Ownership.CloseEndpointReachesEverything`. The cascade runs once, so what is adopted later
  escapes it too, and nothing else does: `HandingOver.OpenAfterTheCloseIffAdoptedSince`.
- `rust/iroh-rn-core/src/blobs.rs:370-372` says a cancelled transfer completes as cancelled.
  The download may win after the cancel returned: `NativeTransfers.CompletionMayBeatCancel`.
  When the message is sent the cancellation is bound to win the select if and only if the
  inner task still runs (`NativeTransfers.SentCancelWinsIffStillRunning`), and over every
  continuation it is certain if and only if the driver has left the select by the cancel
  branch (`NativeTransfers.CancelledForCertainIffSelectLeft`).
- `rust/iroh-rn-core/src/hybrid_iroh.rs:319-321` says the last progress reaches JavaScript
  before the promise settles. An aborted task may report after it:
  `DownloadBridge.ProgressAfterRejection`; more progress can be heard after the settlement if
  and only if the download was cancelled: `DownloadBridge.ProgressEndsIffNotCancelled`.
- `rust/iroh-rn-core/src/streams.rs:141-144` says listening again after stopping succeeds. It
  succeeds once the stopped task has been dropped: `Listening.RelistenNeedsTheDrop`.
- Custom transports are not carried through the JSON form of an address:
  `Addresses.TripIsLosslessWithoutCustom`.

## Model

| member | source | states |
|---|---|---|
| Framing.Be32RoundTrip | rust/iroh-rn-core/src/streams.rs:427 | the 32-bit big-endian prefix recovers a length exactly when the length fits in 32 bits |
| Framing.FrameHead | rust/iroh-rn-core/src/streams.rs:426-430 | prefix and payload of a written frame are recovered from any byte string that starts with it |
| Framing.EveryStreamReads | rust/iroh-rn-core/src/streams.rs:473-508 | every byte string with every kind of end has a reading: whole legal frames, then a remainder that fixes the close reason |
| Framing.ReadingIsUnique | rust/iroh-rn-core/src/streams.rs:473-508 | that reading is unique, so payloads and reason do not depend on chunking |
| Framing.DeliveryIsMonotone | rust/iroh-rn-core/src/streams.rs:473-508 | more bytes never change what was already delivered |
| Framing.RoundTrip | rust/iroh-rn-core/src/streams.rs:413-508 | a finished stream reads as a list of payloads with an orderly end if and only if the framed writer wrote that list |
| Framing.OversizeIsFinal | rust/iroh-rn-core/src/streams.rs:491-496 | an over-limit header ends the reading for good, whatever follows |
| Framing.PartOfFrames | rust/iroh-rn-core/src/streams.rs:473-508 | reading any prefix of written frames delivers a prefix of the payloads and never reports an oversized frame |
| Framing.OrderlyEnd | rust/iroh-rn-core/src/streams.rs:473-544 | for every stream and end: no error is reported if and only if it was finished exactly on a frame boundary, or its connection was closed locally or by the peer's application and no over-limit header was read first |
| Framing.EveryEndIsClassified | rust/iroh-rn-core/src/streams.rs:473-544 | every other end is reported as it should be: an over-limit header with its length, a stream that broke with its own error, a finish inside a header or a frame with how much was there |
| Framing.TruncatedFrameCanLookOrderly | rust/iroh-rn-core/src/streams.rs:537-544 | the witness: a connection closed inside the first frame reads as an orderly end, though the bytes are no list of frames |
| Framing.RecvStream.ReadExact | rust/iroh-rn-core/src/streams.rs:478-490 | a read fills exactly, or reports the early end with its byte count or the read error, for any chunking |
| Framing.ReadFrame | rust/iroh-rn-core/src/streams.rs:477-507 | one turn of the loop takes exactly one whole legal frame or stops with the reason the remaining bytes demand |
| Framing.ReadFramed | rust/iroh-rn-core/src/streams.rs:473-508 | the reader's loop delivers and reports exactly the reading of its bytes |
| Framing.ReadRaw | rust/iroh-rn-core/src/streams.rs:511-526 | the raw reader delivers all bytes in order; it reports no error exactly after a finish or a deliberate close, and otherwise the stream's own error |
| SendLock.WireIsWholeSends | rust/iroh-rn-core/src/streams.rs:401-448 | on every interleaving of senders, partial writes, failures and close, the wire is the whole encodings of submitted payloads, those sent, in lock order, plus one partial one |
| SendLock.StateIsWhatTheStepsSay | rust/iroh-rn-core/src/streams.rs:401-448 | over every run the spawned sends are exactly the payloads submitted before the close and within the limit, each with its own bytes; lock, successes, failure and finish are read off the steps |
| SendLock.WaitingSendCanGoThrough | rust/iroh-rn-core/src/streams.rs:401-430 | on a whole stream whose lock is free every waiting submission can take it, write everything and be the next one sent |
| SendLock.FinishedStreamReadsBack | rust/iroh-rn-core/src/streams.rs:401-508 | a framed stream finished before anything went wrong reads back as exactly the payloads that were submitted and sent, in lock order, with an orderly end |
| SendLock.ReaderFollowsLockOrder | rust/iroh-rn-core/src/streams.rs:401-508 | a reader of any part of the wire has delivered a prefix of the payloads submitted and sent, then at most one that got the lock and was not written whole, and sees no oversized frame |
| FramedDelivery.ConsumerFollowsLockOrder | src/streams.ts:279-339 | end to end, under every schedule on both sides: what the consumer has received is a prefix of the payloads submitted to the peer's `send` and sent, in lock order, then at most one still open |
| FramedDelivery.EverythingArrivesIffNothingIsLost | src/streams.ts:279-339 | of a cleanly finished stream read to its end the consumer has received every payload submitted and sent if and only if native delivered each and none was thrown away, still waits, or came after the consumer's side was closed |
| Listening.OneListenerAtATime | rust/iroh-rn-core/src/streams.rs:208-240 | at most one listener holds an ALPN, and listening succeeds exactly when none does |
| Listening.ConnectionsAreHandedOverOnce | rust/iroh-rn-core/src/streams.rs:156-236 | accepted connections are handed over once each, in order, across changes of listener, and at most 64 wait |
| Listening.RefusedIffTheBacklogIsFull | rust/iroh-rn-core/src/streams.rs:156-168 | a connection is turned away if and only if 64 wait when it arrives; the others go in order to the listeners that take them |
| Listening.ListenersLiveAsTold | rust/iroh-rn-core/src/streams.rs:208-248 | a listener is running, stopped or gone, and has heard its close, as its own events say |
| Listening.ClosesOnceWhenDrained | rust/iroh-rn-core/src/streams.rs:229-236 | a listener hears its close at most once, after the router is gone and the queue drained |
| Listening.RelistenNeedsTheDrop | rust/iroh-rn-core/src/streams.rs:141-144 | right after a stop, listening again fails until the stopped task is dropped, and then succeeds |
| AsyncKernel.HandOffKeepsOrder | src/waiter-queue.ts:41-48 | handing a value to the longest-parked consumer keeps calls answered once, in order, values before the end |
| AsyncKernel.AwaitKeepsOrder | src/waiter-queue.ts:51-91 | a call that parks or gets the settled result keeps that discipline; the error goes to at most one call |
| AsyncKernel.SupplyKeepsOrder | src/message-queue.ts:134-137 | a call answered from the buffer keeps that discipline |
| AsyncKernel.EndAllShape | src/waiter-queue.ts:67-74 | ending the parked consumers gives the error to the first, unless delivered before, and ends the others |
| AsyncKernel.TerminateKeepsOrder | src/waiter-queue.ts:62-75 | settling keeps the discipline and delivers no value |
| AsyncKernel.WaiterQueue.HandOff | src/waiter-queue.ts:41-48 | the oldest waiter, if any, is resolved with the value and leaves the queue |
| AsyncKernel.WaiterQueue.Settle | src/waiter-queue.ts:62-75 | the loop over the parked consumers ends them as specified, once |
| AsyncKernel.WaiterQueue.SettledResultOrPark | src/waiter-queue.ts:51-91 | a call gets the settled result or parks at the back |
| MessageQueues.StepKeepsInv | src/message-queue.ts:90-146 | every operation keeps conservation in accept order, the bound, who may park, and the exact lag count |
| MessageQueues.EveryPushIsAccountedFor | src/message-queue.ts:43-53 | over every run, removed values, then the buffer, then the late pushes are all pushes in order; nothing is lost without the hook if and only if nothing was pushed late |
| MessageQueues.CallsAreAnsweredInOrder | src/message-queue.ts:124-139 | over every run each call is settled exactly once in call order: values, then the first close's error at most once, then the end |
| MessageQueues.DeliveryOrderAndLag | src/message-queue.ts:90-117 | consumers see a subsequence of the pushes in order, the buffer is bounded, and the lag total is evictions plus upstream lags |
| MessageQueues.OnlyAFullQueueEvicts | src/message-queue.ts:90-105 | a value is evicted exactly when a push finds nobody waiting and the queue full, counted off the pushes and `next()` calls |
| MessageQueues.MessageQueue.Push | src/message-queue.ts:90-105 | ignore, hand over, buffer, or evict the oldest and report the lag |
| MessageQueues.MessageQueue.RecordDrop | src/message-queue.ts:162-170 | the dropped count goes up by one and is reported |
| MessageQueues.MessageQueue.MarkLagged | src/message-queue.ts:112-117 | an upstream lag is counted and reported while open |
| MessageQueues.MessageQueue.Close | src/message-queue.ts:124-132 | the buffer goes to the drop hook in order, then the consumers end, once |
| MessageQueues.MessageQueue.Next | src/message-queue.ts:134-139 | the oldest buffered value, the settled result, or a parked call |
| MessageQueues.MessageQueue.Return | src/message-queue.ts:143-146 | closes the queue gracefully |
| Streams.DeliveredIsPrefix | src/streams.ts:279-339 | in every interleaving the delivered chunks are a prefix of the received ones and the native stream is released exactly once per settlement |
| Streams.EndOfStreamLosesTheBacklog | src/streams.ts:331 | an end delivers everything received if and only if nothing was buffered |
| Streams.StreamSettlesExactlyWhenEnded | src/streams.ts:279-339 | a stream settles exactly when it is closed locally, natively, or by overflow |
| Streams.StreamEndsAsTheFirstSays | src/streams.ts:279-339 | read off the events: every `next()` is answered in order with the delivered chunks, then the first end's own error once, then the end; `closed` settles as the first end other than a broken loop says, 5006 for an overflow |
| Streams.BrokenLoopLeavesStreamOpen | src/streams.ts:58-60 | the witness: a broken loop leaves the stream open and loses the next chunk silently |
| Streams.Settlement.Settle | src/streams.ts:254-265 | the first settlement wins and only it reports true |
| Streams.StreamController.Finish | src/streams.ts:327-339 | settles, closes the queue with the same error, releases and disposes once |
| Streams.StreamController.OnData | src/streams.ts:279-294 | a chunk that overflows the buffer fails the stream in the same step |
| Streams.StreamController.Next | src/streams.ts:299-301 | consuming a chunk touches only the queue |
| Streams.StreamController.Return | src/message-queue.ts:143-146 | breaking the loop closes only the queue |
| Streams.StreamController.Send | src/streams.ts:311-320 | a send after the settlement is refused with 5004 without reaching native |
| Watchables.IterNextKeepsInv | src/watchable.ts:50-57 | an immediate `next()` yields the newest push since the last delivery |
| Watchables.HubRunKeepsInv | src/watchable.ts:113-202 | every run keeps the subscriptions, the hook alternation and every iterator's obligations |
| Watchables.HooksFollowSubscribers | src/watchable.ts:190-202 | subscribers are the unreleased handles, and the hooks strictly alternate starting with the active one |
| Watchables.ListenersHearTheirDue | src/watchable.ts:113-149 | over every run a listener has heard exactly the values pushed after its `listen` and before it left or the close, in order; the watchable is closed as the first close says |
| Watchables.SubscribersAreThoseWhoStayed | src/watchable.ts:113-127 | a subscriber is whoever joined while the watchable was open and has not left |
| Watchables.EveryNextIsACall | src/watchable.ts:50-64 | each `next()` of an iterator is one of its calls, and it is returned exactly when it was given up |
| Watchables.NewestValueIsNeverLost | src/watchable.ts:29-57 | an iterator sees a subsequence of the pushes since its creation, and the newest is retained or was delivered last |
| Watchables.EveryIteratorThrowsOnce | src/watchable.ts:156-188 | in a watchable closed with an error each iterator throws it exactly once, first past its last value |
| Watchables.ThrowsIffAskedPastItsLast | src/watchable.ts:156-188 | of any iterator, returned ones included: it throws the terminal error if and only if it was asked past its last value and was not returned before the close |
| Watchables.ExactlyOneThrowsIffOneIsOwed | src/watchable.ts:151-155 | the documented promise, that exactly one iterator rethrows, holds if and only if exactly one was asked past its last value without an early return |
| Watchables.TwoIteratorsBothThrow | src/watchable.ts:151-155 | the witness: two iterators both throw the one terminal error |
| Watchables.Watchable.Listen | src/watchable.ts:113-119 | a listener joins and is counted, unless closed |
| Watchables.Watchable.Unsubscribe | src/watchable.ts:120-127 | leaving is idempotent and uncounts once |
| Watchables.Watchable.CreateIterator | src/watchable.ts:170-188 | a new iterator starts empty and attached, or already ended when closed |
| Watchables.Watchable.Detach | src/watchable.ts:59-64 | returning detaches once, drops the retained value and ends the iterator |
| Watchables.Watchable.Push | src/watchable.ts:131-149 | every listener and every attached iterator gets the value, unless the watchable is closed |
| Watchables.Watchable.CallListeners | src/watchable.ts:137-145 | the loop reaches every listener and nobody else |
| Watchables.Watchable.FeedIterators | src/watchable.ts:146-148 | the loop pushes into every attached iterator and no other |
| Watchables.Watchable.Close | src/watchable.ts:156-168 | closes once, clears both sets and ends every attached iterator |
| Watchables.Watchable.FinishIterators | src/watchable.ts:163-167 | the loop ends every attached iterator with the error and no other |
| Watchables.Watchable.Retain | src/watchable.ts:190-195 | the first subscriber fires the active hook |
| Watchables.Watchable.Release | src/watchable.ts:197-202 | the last subscriber's leaving fires the idle hook |
| AddressWatch.OneWatchWhileObserved | src/endpoint.ts:642-695 | the native calls are start 0, stop 0, start 1, stop 1 and so on; one runs exactly while an open watchable has a subscriber |
| AddressWatch.CloseStopsTheWatch | src/endpoint.ts:956-958 | once the close has settled every started watch is stopped and none starts again |
| AddressWatch.TheWatchableIsUsedSo | src/endpoint.ts:642-681 | over every run the watchable is one run of consumers' calls, native changes, the close of a watch that could not start, and the endpoint's close |
| AddressWatch.ChangesAreHeard | src/endpoint.ts:662-673 | a native address change reaches everyone listening and nobody else |
| AddressWatch.HookMeaning | src/watchable.ts:190-202 | a hook fires exactly on the crossings between no subscriber and one |
| AddressWatch.AddressWatcher.StartNativeAddrWatch | src/endpoint.ts:653-681 | starts at most one watch; a refused start asks for the fan-out to be closed |
| AddressWatch.AddressWatcher.StopNativeAddrWatch | src/endpoint.ts:684-695 | stops the running watch, once, with its own id |
| Downloads.NormaliseCap | src/endpoint.ts:505-515 | unlimited exactly for infinity, 32 for an unset, not-a-number or minus-infinite request, one for a finite request below one, and otherwise its floor |
| Downloads.CapIsRespectedAndUsed | src/endpoint.ts:901-904 | in every reachable state slots in use are begun, unfinished transfers, never above the cap, and nothing waits while one is free |
| Downloads.BeginsInEnqueueOrder | src/endpoint.ts:984-1001 | native downloads start once each and in enqueue order |
| Downloads.CancelledInQueueNeverRuns | src/transfer.ts:252-261 | a transfer cancelled while queued is settled so, and never reaches native or takes a slot in any later run |
| Downloads.CancellationReachesNative | src/transfer.ts:227-267 | native cancels are issued for exactly the cancelled running transfers whose id is known, with that id, in either order of arrival |
| Downloads.TransferSettlesAsItWent | src/transfer.ts:220-267 | read off the events: a started transfer has failed with the error its start met or else ended as native code first said; one that never started has failed as cancelled exactly if it was cancelled |
| Downloads.RunningTransferCanEnd | src/endpoint.ts:984-1001 | a running transfer can end with any native answer, and then its slot be freed |
| Downloads.QueueDrains | src/endpoint.ts:984-1001 | completions use up twice the queue length plus the active slots, and with none outstanding every enqueued transfer is settled |
| Downloads.CloseSettlesTheQueue | src/endpoint.ts:943-946 | endpoint close settles every queued transfer as cancelled, begins none and leaves the others alone |
| Downloads.TransferController.Settle | src/transfer.ts:165-178 | the first outcome stays |
| Downloads.TransferController.Begin | src/transfer.ts:220-250 | a settled transfer does not start; a failed start settles it with its error |
| Downloads.TransferController.OnStart | src/transfer.ts:228-233 | the id is kept and a pending cancel goes out with it |
| Downloads.TransferController.Cancel | src/transfer.ts:252-267 | cancel settles locally before the start, goes native when the id is known, and is remembered otherwise |
| Downloads.DownloadQueue.PumpDownloads | src/endpoint.ts:984-1001 | the loop begins unsettled transfers in order until the cap or the end of the queue |
| Downloads.DownloadQueue.EnqueueDownload | src/endpoint.ts:901-904 | joins at the back, then pumps |
| Downloads.DownloadQueue.OnDownloadSettled | src/endpoint.ts:996-999 | frees the slot, then pumps |
| Downloads.DownloadQueue.CancelQueued | src/endpoint.ts:944-946 | the loop cancels every queued transfer and empties the queue |
| Collections.CollectionSettlesAsTheEventsSay | src/transfer.ts:332-420 | resolves if and only if the manifest and every child succeed with nothing failing first; rejects with exactly the first failing event's error |
| Collections.SettlementIsFinal | src/transfer.ts:165-178 | a settled collection never changes its settlement |
| Collections.DispatchIsTheSumOfTheLatest | src/transfer.ts:389-398 | each total sent out is the sum of every child's newest value |
| Collections.AggregateNeverFalls | src/transfer.ts:389-398 | totals do not decrease when no child's values do |
| Collections.ExactlyTheTotalsDueAreSent | src/transfer.ts:364-398 | over every run one total is sent for each progress report and finished child before anything decides the collection, and none else |
| Collections.ChildrenStartAsTold | src/transfer.ts:349-382 | children are started exactly when the manifest arrives before anything failed or cancelled the collection, one for each entry |
| Collections.ChildrenEndAsTold | src/transfer.ts:369-377 | a child is known to have ended exactly after its one completion or failure |
| Collections.CollectionTransferController.CancelChildren | src/transfer.ts:414-417 | the loop cancels every child's own transfer and issues exactly the native cancels that are due at once, in order |
| Collections.CollectionTransferController.Cancel | src/transfer.ts:332-347 | cancels every child's transfer unless settled, and settles at once before the manifest |
| Collections.CollectionTransferController.OnManifest | src/transfer.ts:351-382 | starts the children unless cancelled or settled; an empty manifest completes |
| Collections.CollectionTransferController.OnChildProgress | src/transfer.ts:364-367 | the child's value is replaced and the total sent |
| Collections.CollectionTransferController.OnChildDone | src/transfer.ts:369-373 | the child is done, the total is sent, completion is checked |
| Collections.CollectionTransferController.OnChildError | src/transfer.ts:409-419 | the first error cancels every child's transfer, with the native cancels due at once, and settles; a later one does neither |
| Collections.CollectionTransferController.RecomputeAggregate | src/transfer.ts:389-398 | the summing loop sends the total of all files unless settled |
| Collections.CollectionTransferController.CheckAllDone | src/transfer.ts:400-407 | completes exactly when started, unsettled and every file is done |
| CollectionDownloads.StepKeepsFleet | src/endpoint.ts:851-876 | every event, of the collection or of the download queue, keeps the queue's invariant and the link between children and transfers: done children completed, and in a failing collection every child is settled or cancelled |
| CollectionDownloads.NoOrphanedDownloads | src/transfer.ts:409-419 | in every reachable state of a failed or cancelled collection, a child that never started has failed as cancelled and never reached native; any other is over, or native has been told to cancel it as soon as its id was known |
| CollectionDownloads.ChildErrorCancelsEveryone | src/transfer.ts:409-419 | a child's failure settles the collection with that error, and over every later run each sibling still queued never starts and fails as cancelled, while a running one gets its native cancel |
| CollectionDownloads.DoomIsFinal | src/transfer.ts:252-267 | over every continuation a cancelled transfer starts only if it had started before, and its cancellation stays in force |
| CollectionDownloads.ResolvedMeansEveryChildCompleted | src/transfer.ts:400-407 | a resolved collection's children have all completed in the queue |
| CollectionDownloads.TheQueueIsAGateRun | src/endpoint.ts:851-876 | the queue a collection downloads through is a run of the endpoint's queue, so its theorems apply |
| CollectionDownloads.ChildrenAreTheEntries | src/transfer.ts:351-382 | over every run child `i` is a transfer of its own, created for entry `i` of the manifest, and has joined the queue |
| CollectionDownloads.ResolvedMeansEveryEntryDownloaded | src/transfer.ts:400-407 | in a resolved collection each entry's own download was started without an error and native code said it completed |
| CollectionDownloads.StartMovesArePossible | src/transfer.ts:351-382 | every entry of a manifest can be created and enqueued, whatever state the queue is in |
| CollectionDownloads.FleetIsACollectionRun | src/transfer.ts:349-382 | what the collection sees of any such run is a run of the collection alone, so its own theorems apply |
| Ownership.RunKeepsInv | src/streams.ts:327-547 | over every run each native stream, connection and listener is released exactly as often as it ended, open streams are the adopted unsettled ones, and the endpoint's sets are the live ones |
| Ownership.CloseConnectionTakesItsStreams | src/streams.ts:445-459 | closing a connection settles it and every stream it adopted while open, each natively once, and touches nothing else |
| Ownership.SecondCloseChangesNothing | src/streams.ts:446-448 | closing a finished connection changes nothing |
| Ownership.CloseListenerSparesHandedOver | src/streams.ts:534-547 | a closing listener finishes exactly the connections still waiting in it; handed-over ones and their streams are untouched |
| Ownership.CloseEndpointReachesEverything | src/endpoint.ts:941-958 | endpoint close stops every listener and finishes every connection once, and a stream stays open if and only if a finished connection adopted it |
| Ownership.LateStreamEscapes | src/streams.ts:400-425 | the witness: a stream opened on a finished connection is outside the cascade of the endpoint's close |
| Endings.StepOnConn | src/streams.ts:445-547 | every event ends exactly the connections it should, a close with its own error and everything else with none, and asks of each `incoming` queue exactly what it should |
| Endings.StepOnStream | src/streams.ts:327-459 | every event ends exactly the streams it should, each natively once, and leaves the others as they are |
| Endings.StepOnListener | src/streams.ts:517-547 | every event stops exactly the listeners it should and asks of each `connections` queue exactly what it should |
| Endings.ConnectionsEndAsTold | src/streams.ts:445-459 | over every run a connection is settled as the first event that ended it says, and `incoming` is a run of one bounded queue closed with it |
| Endings.StreamsEndAsTold | src/streams.ts:400-459 | over every run a stream belongs to the connection it was opened on and is over exactly when it was refused or one of its ends has come |
| Endings.ListenersEndAsTold | src/streams.ts:517-547 | over every run a listener is stopped once, exactly when it or the endpoint was closed, and `connections` is a run of one bounded queue |
| HandingOver.NextHandsOver | src/streams.ts:503-505 | the call that asks is resolved with the longest-waiting connection |
| HandingOver.AcceptHandsOver | src/streams.ts:517-532 | a connection accepted while a call is parked resolves exactly that call |
| HandingOver.HandedOverStaysOpen | src/streams.ts:154-159 | a connection somebody received stays open over every later run without its own close or the endpoint's, whatever its listener does |
| HandingOver.RunKeepsPlaces | src/streams.ts:517-547 | over every run each open connection is in exactly one place: received by one caller, waiting in one listener, or left over from a closed queue |
| HandingOver.LookedAfterIffArrivedInTime | src/streams.ts:144-159 | an open connection has been received or waits if and only if its listener's queue was open when it arrived |
| HandingOver.StrayConnection | src/streams.ts:517-532 | the witness: after a broken loop an accepted connection reaches nobody and survives its listener's close |
| HandingOver.OpenAfterTheCloseIffAdoptedSince | src/endpoint.ts:941-958 | over every run after the endpoint's close, the open connections are exactly those adopted since and not closed themselves |
| HandingOver.FullBacklogClosesTheOldest | src/streams.ts:488-493 | beyond 64 waiting connections the one that waited longest is closed with its streams, and nobody else |
| Ownership.FinishListenersCompose | src/endpoint.ts:950-952 | closing listeners one after another amounts to closing them together |
| Ownership.FinishConnsCompose | src/endpoint.ts:953-955 | closing connections one after another amounts to closing them together |
| Ownership.Endpoint.FinishStream | src/streams.ts:327-339 | settle, release, leave the connection's set, once |
| Ownership.Endpoint.FinishConnection | src/streams.ts:445-459 | settle, close the open streams, discard the unclaimed ones, release, leave the endpoint's set: together the specified cascade |
| Ownership.Endpoint.FinishListener | src/streams.ts:534-547 | stop once, close the waiting connections in turn, leave the endpoint's set |
| Ownership.Endpoint.CloseEverything | src/endpoint.ts:950-955 | the two loops of endpoint close reach all listeners, then all connections |
| Ownership.Endpoint.CloseConnections | src/endpoint.ts:953-955 | the loop finishes every live connection |
| Ownership.Endpoint.OnConnection | src/streams.ts:517-532 | an accepted connection joins the endpoint and the backlog, and the evicted one is closed; one that cannot be wrapped is closed natively and joins nothing |
| Ownership.Endpoint.OnPeerStream | src/streams.ts:416-442 | a peer's stream is adopted and queued, or closed natively when adopting fails |
| Registries.HandlesAreNeverReissued | rust/iroh-rn-core/src/registry.rs:43-47 | over every interleaving handles are given out as 1, 2, 3 and so on |
| Registries.LookupFollowsHistory | rust/iroh-rn-core/src/registry.rs:50-63 | a lookup finds exactly what was stored and not removed since |
| Registries.AnswersFollowHistory | rust/iroh-rn-core/src/registry.rs:43-63 | every call, at its turn, is answered with the object its handle names at that moment or told that it names none |
| Registries.RemovedIsGoneForGood | rust/iroh-rn-core/src/registry.rs:57-63 | a removed handle, like 0, stays invalid for the rest of every run |
| Registries.Registry.Insert | rust/iroh-rn-core/src/registry.rs:43-47 | allocate, then store; the handle is new |
| Registries.Registry.Get | rust/iroh-rn-core/src/registry.rs:50-55 | the object, or the invalid-handle error naming the handle |
| Registries.Registry.Remove | rust/iroh-rn-core/src/registry.rs:59-63 | removes and returns the object, or the invalid-handle error |
| NativeTransfers.CompletesOnceAndTruthfully | rust/iroh-rn-core/src/blobs.rs:325-364 | a download completes at most once, exactly when its driver is done, after its handle is retired; cancelled only if asked, else with the inner download's own result |
| NativeTransfers.TransfersAreAsTold | rust/iroh-rn-core/src/blobs.rs:325-386 | over every run a handle is registered, its transfer asked to cancel and its inner result known exactly as the events say |
| NativeTransfers.ResultIsTheDownloadsOwn | rust/iroh-rn-core/src/blobs.rs:342-362 | a download completes as cancelled only if a cancel found it registered, and otherwise with what its inner download first ended with |
| NativeTransfers.CancelsAreAnsweredAsFound | rust/iroh-rn-core/src/blobs.rs:373-386 | a cancelling call fails exactly if the handle was not registered when it looked, and succeeds when it returns otherwise |
| NativeTransfers.SelectWakesOnlyForCancel | rust/iroh-rn-core/src/blobs.rs:348-352 | while the select waits the cancel sender is never dropped unsent |
| NativeTransfers.CancelWasCalled | rust/iroh-rn-core/src/blobs.rs:373-374 | a transfer was asked to cancel only by a call with its handle |
| NativeTransfers.FinishedForGood | rust/iroh-rn-core/src/blobs.rs:358-362 | after completion the result never changes or repeats and cancels find nothing |
| NativeTransfers.CancelIsNotLost | rust/iroh-rn-core/src/blobs.rs:373-386 | when a cancel returns the message is sent or another caller is about to send it |
| NativeTransfers.DriverNeverGoesBack | rust/iroh-rn-core/src/blobs.rs:342-362 | only the driver's own steps advance it, each by one |
| NativeTransfers.CompletionIsReached | rust/iroh-rn-core/src/blobs.rs:342-362 | a driver with a result or a cancel completes by its own remaining steps |
| NativeTransfers.CompletionMayBeatCancel | rust/iroh-rn-core/src/blobs.rs:368-386 | the witness, a whole run from the start: a cancel returns success and the download still succeeds |
| NativeTransfers.SelectDecides | rust/iroh-rn-core/src/blobs.rs:348-357 | without a sent cancel it is the inner download's result, while that still runs it is the cancellation |
| NativeTransfers.SentCancelWinsIffStillRunning | rust/iroh-rn-core/src/blobs.rs:348-357 | with the message sent, every step that ends the select reports the cancellation if and only if the inner task has not ended |
| NativeTransfers.CancelledForCertainIffSelectLeft | rust/iroh-rn-core/src/blobs.rs:368-386 | over every continuation, completion as cancelled is certain if and only if the driver has left the select by the cancel branch |
| NativeTransfers.CanStillComplete | rust/iroh-rn-core/src/blobs.rs:342-362 | otherwise some continuation completes the download with another result |
| NativeTransfers.BlobTransfers.BlobDownload | rust/iroh-rn-core/src/blobs.rs:325-364 | refused before anything is registered, or registered under a new handle and selecting |
| NativeTransfers.BlobTransfers.BlobDownloadCancel | rust/iroh-rn-core/src/blobs.rs:373-386 | success exactly for a registered handle, whose sender is then used |
| NativeTransfers.BlobTransfers.Conclude | rust/iroh-rn-core/src/blobs.rs:358-362 | the handle goes, then the result is reported once, other transfers untouched |
| Coalescers.FlushDeliversTheNewest | rust/iroh-rn-core/src/coalesce.rs:51-63 | emitted values are a subsequence of the offers, and after a flush the last emitted is the last offered |
| Coalescers.RunIsFaithful | rust/iroh-rn-core/src/coalesce.rs:51-85 | a pending value is always the newest offer, and with none pending the newest offer was emitted last |
| Coalescers.ProgressNeverGoesBack | rust/iroh-rn-core/src/coalesce.rs:15-17 | non-decreasing offers give non-decreasing emissions |
| Coalescers.EmissionRateIsBounded | rust/iroh-rn-core/src/coalesce.rs:65-85 | any stretch of emissions lasts an interval for each one after the first that no flush sent |
| Coalescers.WindowsAreRateLimited | rust/iroh-rn-core/src/coalesce.rs:65-85 | in every run and every time window, the emissions that no flush sent take a whole interval each, bar the first |
| Coalescers.OffersAreRateLimited | rust/iroh-rn-core/src/coalesce.rs:65-85 | with offers alone that holds of every window inside the run and of the time the run takes |
| Coalescers.OffersGoOutOnceRested | rust/iroh-rn-core/src/coalesce.rs:65-85 | an offer goes out at once if and only if nothing has been emitted for a whole interval |
| Coalescers.FlushSendsWhatIsHeldBack | rust/iroh-rn-core/src/coalesce.rs:51-63 | a flush sends an offer that is held back, once |
| Coalescers.Coalescer.OfferAt | rust/iroh-rn-core/src/coalesce.rs:65-85 | emits when due, else remembers the value |
| Coalescers.Coalescer.FlushAt | rust/iroh-rn-core/src/coalesce.rs:51-63 | emits the remembered value, if any, once |
| DownloadBridge.PromiseSettlesOnce | rust/iroh-rn-core/src/hybrid_iroh.rs:326-354 | exactly one path consumes the completer, with the refusal or the native result |
| DownloadBridge.SettledAsRefusedOrCompleted | rust/iroh-rn-core/src/hybrid_iroh.rs:326-354 | the promise settles with the refusal's own message or with the native completion |
| DownloadBridge.SettledWithItsOwnResult | rust/iroh-rn-core/src/hybrid_iroh.rs:336-345 | the promise of an accepted download settles with what its inner download ended with, or with a cancellation that was sent |
| DownloadBridge.ProgressIsALimiterRun | rust/iroh-rn-core/src/hybrid_iroh.rs:335-346 | the progress heard is what the rate limiter lets out of the reports at their own instants and of one flush at the end |
| DownloadBridge.StartIsHeardOnce | rust/iroh-rn-core/src/hybrid_iroh.rs:326-334 | the start is heard exactly as it is reported, at most once |
| DownloadBridge.LastProgressIsHeard | rust/iroh-rn-core/src/hybrid_iroh.rs:319-346 | in the step that settles the promise, whatever the outcome, JavaScript first hears the last progress reported so far and the settlement is what it hears next |
| DownloadBridge.NoProgressAfterSettlement | rust/iroh-rn-core/src/hybrid_iroh.rs:319-346 | an uncancelled download that settled is heard to make no more progress |
| DownloadBridge.ProgressEndsIffNotCancelled | rust/iroh-rn-core/src/hybrid_iroh.rs:319-346 | of a settled download: no event can make JavaScript hear more progress if and only if it was not cancelled |
| DownloadBridge.CancelledMayReportLate | rust/iroh-rn-core/src/hybrid_iroh.rs:335-346 | after any cancelled settlement a report that is due still crosses |
| DownloadBridge.ProgressAfterRejection | rust/iroh-rn-core/src/hybrid_iroh.rs:335-346 | the witness, a whole run from the call: progress is heard after the promise has rejected |
| DownloadBridge.DownloadCall.TakePromise | rust/iroh-rn-core/src/hybrid_iroh.rs:338-345 | the guarded option yields the completer once |
| DownloadBridge.DownloadCall.OnProgress | rust/iroh-rn-core/src/hybrid_iroh.rs:335 | a report goes through the limiter |
| DownloadBridge.DownloadCall.OnComplete | rust/iroh-rn-core/src/hybrid_iroh.rs:336-345 | flush, then settle |
| Gossip.NoTextIsLost | src/gossip.ts:148-153 | sender and text put back together are the line, and a native line for a space-free id gives that id and text |
| Gossip.JoinSettlesAsTheFirstSays | src/gossip.ts:184-281 | `joined` is decided by the first of start, join error and unsubscribe; teardown runs once and ends both streams |
| Gossip.NativeUnsubscribeExactlyOnce | src/gossip.ts:221-247 | a subscription both started and unsubscribed, in either order, is natively unsubscribed exactly once with its id; any other is not |
| Gossip.BroadcastsFollowTheJoin | src/gossip.ts:212-219 | a broadcast goes out with the subscription's id or not at all; one queued before it follows the join's verdict and never waits past it |
| Gossip.OnlyEarlyBroadcastsWait | src/gossip.ts:212-219 | a broadcast waits for the join exactly if it was made before the id was there; any other goes out at once with that id |
| Gossip.FateIsFinal | src/gossip.ts:212-219 | an answered broadcast never changes its answer |
| Gossip.MessagesAreAQueueRun | src/gossip.ts:174-199 | the message stream is a run of one bounded queue fed with the parsed lines |
| Gossip.NeighborLines | src/gossip.ts:249-264 | a neighbour line gives back whether the peer came or went, and its id; no other line is one |
| Gossip.NeighborsAreAQueueRun | src/gossip.ts:178-264 | the neighbour stream is a run of one bounded queue fed with the neighbour lines, and the subscription is over exactly once it was left or its join failed |
| Gossip.GossipSubscriptionController.SettleReadyWith | src/gossip.ts:184-187 | the join promise settles once |
| Gossip.GossipSubscriptionController.CloseBoth | src/gossip.ts:233-235 | both queues close and the owner is told |
| Gossip.GossipSubscriptionController.Leave | src/gossip.ts:221-236 | unsubscribes natively or fails the join, then tears down, once |
| Gossip.GossipSubscriptionController.Start | src/gossip.ts:238-247 | resolves the join, or releases at once when already left |
| Gossip.GossipSubscriptionController.FailJoin | src/gossip.ts:272-281 | a join error fails everything waiting, once |
| Gossip.GossipSubscriptionController.HearNeighbor | src/gossip.ts:249-264 | lag, join error, neighbour event or nothing, by tag |
| Gossip.GossipSubscriptionController.HearMessage | src/gossip.ts:199 | the parsed line is pushed into the message queue |
| Lines.TaggedRoundTrip | src/gossip.ts:137-143 | a space-free tag and any payload are recovered from their line |
| Lines.SplitIsExact | src/gossip.ts:137-143 | every line is its tag and rest, split at the first space or not at all |
| Lines.ConnectionLineRoundTrip | src/streams.ts:517-523 | a listener's line gives back handle and peer |
| Lines.JoinedListRoundTrip | rust/iroh-rn-core/src/hybrid_iroh.rs:87-93 | splitting gives a joined list back if and only if each element is one non-empty line |
| Lines.StraySeparatorIsHarmless | rust/iroh-rn-core/src/hybrid_iroh.rs:85-93 | a leading or trailing separator changes nothing |
| CloseLines.LeftmostIsFound | src/errors.ts:45-59 | the search finds the leftmost tag, a tag being the opening, one or more digits and the bracket |
| CloseLines.NothingIsFound | src/errors.ts:45-59 | and nothing in a text that holds no tag |
| CloseLines.LeftmostTagIsTheCode | src/errors.ts:72-79 | the code of a message is the number in its leftmost tag when that is a known code, and 1000 otherwise; the message is kept |
| CloseLines.UntaggedIsInternal | src/errors.ts:72-79 | a message without a tag gets code 1000 |
| CloseLines.GeneralKinds | src/errors.ts:6-26 | the native code table and the host's kind table agree on the errors without a subject of their own |
| CloseLines.BlobKinds | src/errors.ts:6-26 | and on those of blobs |
| CloseLines.GossipKinds | src/errors.ts:6-26 | and on those of gossip |
| CloseLines.StreamKinds | src/errors.ts:6-26 | and on those of streams |
| CloseLines.KnownCodesHaveKinds | src/errors.ts:45-51 | a code is known to the host exactly when its table has a kind for it |
| CloseLines.RejectionKeepsItsCode | src/errors.ts:72-79 | an encoded error keeps code and text, even with another tag inside its detail |
| CloseLines.CloseReasonRoundTrip | src/streams.ts:208-214 | the close line gives back exactly the reason: none for an orderly end, else the same code for every core error |
| Json.StringRoundTrip | rust/iroh-rn-core/src/hybrid_iroh.rs:114-128 | a reader of JSON gets back exactly the string written, for every string and both writers, the native one and `JSON.stringify` |
| Json.EscapedIsPlain | rust/iroh-rn-core/src/hybrid_iroh.rs:114-128 | no control character, hence no newline, is written raw |
| Json.WritersAgree | src/endpoint.ts:170-176 | both writers produce the same literal for every text without backspace and form feed |
| Json.PushJsonString | rust/iroh-rn-core/src/hybrid_iroh.rs:114-128 | the character loop appends exactly the escaped literal |
| Json.ValueRoundTrip | rust/iroh-rn-core/src/hybrid_iroh.rs:130-208 | reading a printed value gives it back and stops at its end, whatever follows |
| Json.DocumentRoundTrip | rust/iroh-rn-core/src/hybrid_iroh.rs:130-208 | a printed document parses to itself |
| Json.PrintIsPlain | rust/iroh-rn-core/src/hybrid_iroh.rs:130-208 | a printed document is a single line |
| Addresses.PushStringArray | rust/iroh-rn-core/src/hybrid_iroh.rs:148-157 | the array loop prints the JSON array of its strings |
| Addresses.EndpointAddrToJson | rust/iroh-rn-core/src/hybrid_iroh.rs:147-166 | the encoder prints the address document |
| Addresses.ScriptReadsFields | src/endpoint.ts:152-163 | the TypeScript reader finds the id and both lists of every encoded address |
| Addresses.ScriptDefaults | src/endpoint.ts:152-163 | on any text: it throws exactly on what is no document or `null`, and a missing or `null` list is empty to it |
| Addresses.AddressSurvivesTheHost | src/endpoint.ts:152-176 | encoded natively, read and written again by TypeScript, and parsed natively, an address is the same without its custom transports |
| Addresses.EncodedFieldsAreRead | rust/iroh-rn-core/src/endpoint.rs:354-390 | whatever texts an address was encoded from, the reader finds exactly those texts, and fails exactly on the first bad one |
| Addresses.RefusedUnread | rust/iroh-rn-core/src/endpoint.rs:354-361 | a text that is no JSON, and only that, is refused as such; a document without a text under `id`, and only that, for its missing id |
| Addresses.StrayEntriesAreSkipped | rust/iroh-rn-core/src/endpoint.rs:381-390 | entries of a list that are no texts are passed over |
| Addresses.AddressRoundTrip | rust/iroh-rn-core/src/endpoint.rs:330-379 | encode and parse give the same id, relays and direct addresses |
| Addresses.TripIsLosslessWithoutCustom | rust/iroh-rn-core/src/endpoint.rs:327-339 | the transports survive if and only if none is custom |
| Addresses.EncodedListSplits | rust/iroh-rn-core/src/hybrid_iroh.rs:85-93 | a joined list of encoded addresses splits back into those lines |
| Addresses.BootstrapRoundTrip | rust/iroh-rn-core/src/gossip.rs:84-93 | a joined list of peers, written by `JSON.stringify` or natively, is read back as those peers in order |
| Addresses.PushParsed | rust/iroh-rn-core/src/endpoint.rs:365-377 | the loop appends every parsed text or stops at the first bad one |
| Addresses.ParseEndpointAddr | rust/iroh-rn-core/src/endpoint.rs:354-379 | bad JSON, missing id, bad id, bad relay, bad direct address, in that order, else the address |
| RelayModes.KeywordRoundTrip | src/endpoint.ts:138-149 | keyword modes are read back as themselves |
| RelayModes.CustomRoundTrip | rust/iroh-rn-core/src/endpoint.rs:93-126 | custom URLs are parsed one by one; empty lists are refused when written, blank ones when read |
| RelayModes.OnlyModesAreRead | rust/iroh-rn-core/src/endpoint.rs:93-126 | what is read as a mode is a keyword or `custom` with its URLs on lines of their own; any other field is refused as it stands |
| RelayModes.UrlsSurviveIffOneLineEach | src/endpoint.ts:146-149 | serialised and parsed, the mode holds the parse of exactly the given URLs if and only if each is one non-empty line |

## Left out

- Callbacks that re-enter: a drop hook, listener or `onDispose` that calls back into the queue or watchable that called it is not modelled, except where the source itself does so (overflow closing its own queue, a closing connection closing its streams).
- Ordering among listeners: a watchable's listeners and iterators, an endpoint's listeners and connections, and a connection's open streams are sets here, visited in any order; the source visits them in insertion order. Registering the same listener function twice is not modelled.
- Ownership.Endpoint.FinishConnection: the queues inside connections and listeners are values stepped by the queue functions proved in `MessageQueues`, not `MessageQueue` objects; what consumers of those two queues are answered is covered by the queue's own theorems.
- Gossip.GossipSubscriptionController.Leave: broadcasts in flight live in promise continuations and are modelled on values only (`Gossip.BroadcastsFollowTheJoin`).
- The registry's map and the native transfer's cancel cell are modelled step by step on values; the two classes beside them cover calls that nobody interrupts. Wrap-around of the 64-bit handle counter is not modelled.
- SendLock and Listening are state machines over values: their objects are shared between tasks, and each step is one lock operation, write or queue access.
- Coalescers.EmissionRateIsBounded: offers and flushes are sequential; the sink runs outside the lock in the source, so concurrent callers could reorder two emissions.
- Downloads.NormaliseCap: floating-point rounding of the requested maximum is not modelled; it is a real number, an infinity or not a number.
- A child transfer that throws while it is being started, or a native cancel that throws, is not modelled.
- Of `JSON.stringify`, what it does with strings, arrays and objects is modelled; a lone surrogate, which it escapes, is not: a character is a Unicode scalar value here.
- Json.ValueRoundTrip: numbers are kept as their literals; their conversion to floating point is not modelled.
- Ids, relay URLs and socket addresses are texts with a parser that inverts their printer.
- Ticket information and remote information encoders are other documents of the same printer and are not written out.
- Generated bridge code, native glue, file import and export, manifest fetching, React hooks and the example app.
