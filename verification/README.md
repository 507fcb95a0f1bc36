# FireFly FabConnect in Dafny

A model of the parts of FireFly FabConnect that keep promises across failures and interleavings, with proofs
of what they keep. `dafny verify dfyconfig.toml` checks all of it.

**Event delivery** (`Ledger`, `StreamModel`, `StreamReach`, `StreamConservation`, `StreamResume`, `StreamOrigin`,
`StreamHeights`, `StreamSafety`, `StreamSuspension`, `StreamOrder`, `StreamSkips`, `StreamFlow`, `StreamDelivery`,
`StreamReopen`, `StreamProgress`, `StreamLeave`, `StreamBatch`, `StreamWitness`, `StreamRace`, `EventStream`,
`Subscription`, `Retry`, `Timestamps`). One event stream is a state machine whose actions are the stretches of code
between two points where goroutines can interleave: the dispatcher that forms batches, the processor that delivers
and acknowledges them, the poller that opens filters and stores heights, and suspend, resume, stop and crash.
`StreamModel` defines the steps and `Run` the runs; the proofs hold in every state of every run. The classes
`EventStream`, `Subscription` and `EvtProcessor` are the code in its own imperative form, each method tied to the
step it carries out.

**Receipts** (`Lex`, `Sequences`, `KVStore`, `KeySeqs`, `ReceiptLog`, `ReceiptQuery`, `ReceiptScans`,
`LevelDBReceipts`, `ReceiptIndex`, `ReceiptPaging`, `ReceiptWriter`, `MemoryReceipts`). LevelDB is an ordered map
of strings with failing writes. The ghost `log` lists every `AddReceipt` call and how many of its writes went
through; `Lookup` says what those writes left under a key, and the class keeps `Represents(log, keys, vals)` after
every single write. Queries are then compared with plain scans of the log.

**Registry** (`Registry`, `FilterKeys`, `RegistryInvariants`, `RegistryEffects`, `RegistryFilters`,
`SubscriptionManager`). Streams and subscriptions in memory, their documents and the uniqueness index in the
database, with the number of successful writes of each operation as a parameter, and restart as an operation like
any other.

**Requests** (`DirectModel`, `DirectDispatch`, `DirectBounds`, `DirectOutcome`, `DirectHandler`, `KafkaSend`,
`KafkaReuse`, `KafkaHandler`). The goroutines of direct dispatch and of Kafka sends, each as a state machine over
all interleavings.

## What is assumed

- Each subscription's events arrive in block order. In the delivery proofs block numbers leave room for the height
  after them, and increments of the in-flight count are not bounded; its subtraction is, and is shown not to wrap.
  For `SkipsExactly` and `CleanSuspensionSafe` the heights a node reports never fall below a mark.
- Generated lookup keys start with `z`, contain no colon and increase with every call (section "Monotonicity" of
  the ULID specification). Request IDs are no index keys and come before the records, which `RequestIdExactly` shows
  to be exactly what the indexes need. Where a member says `FromApart`, `ToApart` or `Apart`, no
  stored address continues the one searched for after a colon. Strings are ordered by code point, as Go orders
  UTF-8 bytes.
- Generated stream and subscription IDs are fresh; SHA-256 is an arbitrary function.
- Time, transports, the chain's answers, map iteration order, generated keys, failing writes and the rounding of
  the receipt writer's floating-point backoff are parameters.

## Where the code falls short of its promise

Each of these is proved, with the exact condition where there is one.

- An acknowledgement sets the mark past its block, so a crash loses the rest of a block split over two batches:
  `CheckpointSafeExactly`, `AckExact`.
- A batch given up on suspension is not acknowledged, but the next one's acknowledgement after the resume sets the
  mark past it: `SuspensionSafeExactly`, and `SkipsExactly` for the exact condition on a run.
- Recovery starts pollers before it restores subscriptions; a blocked poll in between overwrites a stored height
  with zero: `PollKeepsHeightsExactly` and `RecoveryRaceLoses` for what is lost, `HeightHeldExactly` for what would be
  delivered again.
- A poll compares marks with its own copy, not with what is stored, so a checkpoint whose write failed is not written
  again until a mark moves: `PollRecords`.
- Suspending before the first attempt makes the retry loop return no error, and the batch counts as processed:
  `PerformActionWithRetry`, and the share `unattempted` in `StreamInvRun`.
- Batches abandoned on suspension stay in the in-flight count for ever; a batch's worth of them (one event with
  the default batch size) blocks the stream after resume: `ResumeRecoversExactly`, `WedgedForever`.
- The timestamp cache is keyed by block number alone, and chaincode events carry no transaction index:
  `SharedCacheExactly`, `CacheIsTransparent`.
- Index scans keep the oldest hits: `FilteredIsScanExactly`. `since` compares digits as text, and follows the time
  index alone: `SinceOtherWidth`, `SinceCutAll`. An unknown `start` jumps to the next key: `StartExactly`. With a
  filter, `skip` is ignored and `start` is exclusive.
- The memory store drops what exceeds its capacity: `StoresAgreeExactly`. A retried receipt is listed once per
  attempt that got past its first write: `RetriesAreListed`. A request ID shaped like an index key, or like a
  later record, ends up where scans do not expect it: `RequestIdExactly`.
- A failed index write leaves a live subscription that does not block a duplicate: `UniquenessNeedsIndex`. A failed
  delete of an index entry turns the filter away though nobody has it: `DeleteFreesFilter`. The lookup key joins
  its parts with dashes they may contain: `KeyIsOwnExactly`, `RefusalExactly`.
- `SendConcurrency` 1 does not serialise sends: `SendLimitExactly`. A message ID supplied twice escapes the
  in-flight limit: `FlightLimitExactly`. Reused before its report, it can bring a Kafka call another's outcome:
  `ReuseExactly`.

## Model

| member | source | states |
|---|---|---|
| `StreamSafety.CoveringExactly` | internal/events/eventstream.go:377-627 | over every run, with any suspensions, resumes, stops and crashes, in which no poll begins while it would forget a height (blocked, with a claimed "newest" subscription whose mark is unset): every mark, stored height and copy of one covers only delivered or skipped events in every state, if and only if every acknowledgement of the run passes no claimed event that is undelivered |
| `StreamSafety.CheckpointSafeRun` | internal/events/eventstream.go:377-627 | in such a run with such acknowledgements, every event from where a subscription's claim begins up to below its stored height has been delivered or skipped, so a restart there loses nothing |
| `StreamSafety.CoverRun` | internal/events/eventstream.go:377-627 | the half of it that carries delivery: marks, poller copies and stored heights tell the truth in every state |
| `StreamSafety.AckExact` | internal/events/evtprocessor.go:46-54 | in any state of any such run whose heights tell the truth, acknowledging a batch, split or not, keeps them true if and only if no claimed event between the old mark and the acknowledged block is undelivered |
| `StreamDelivery.AtLeastOnce` | internal/events/eventstream.go:377-627 | while nobody suspends or stops the stream, over any number of crashes and with polls during recovery, as long as no acknowledgement leaves a later claimed event of its own block undelivered: the stored checkpoint is safe, and every claimed event of an open filter is delivered, on its way, or still to be relayed |
| `StreamDelivery.WholeAcksExactly` | internal/events/evtprocessor.go:46-54 | while nobody suspends or stops the stream, the acknowledgements of a run tell the truth if and only if none leaves a later claimed event of its own block undelivered |
| `StreamDelivery.AtLeastOnceWhole` | internal/events/eventstream.go:457-523 | the same as AtLeastOnce for runs in which no dispatched batch splits a block |
| `StreamDelivery.AtLeastOnceUnsplit` | internal/events/eventstream.go:457-523 | the same with no condition on batches or acknowledgements when the ledger gives no subscription two events of one block |
| `StreamWitness.CheckpointSafeExactly` | internal/events/evtprocessor.go:46-54 | for any batch size: while nobody suspends or stops the stream, the stored checkpoint is safe to restart from in every run without a forgetful poll, if and only if the ledger gives no subscription two events of one block |
| `StreamSuspension.SuspensionSafeExactly` | internal/events/eventstream.go:570-627 | for any batch size, with suspensions allowed: the stored checkpoint is safe to restart from in every run without a forgetful poll, if and only if the ledger gives no subscription a second event |
| `StreamSuspension.SuspensionLoses` | internal/events/eventstream.go:525-627 | for every ledger with a second event, a run in which a batch given up on suspension is passed by the acknowledgement of the next one after the resume, and the height past both is stored |
| `StreamSkips.SkipsExactly` | internal/events/eventstream.go:457-627 | over every run, with any suspensions, resumes, stops and crashes, without a forgetful poll and with reported heights that never fall below a mark: the acknowledgements tell the truth if and only if none passes an undelivered later event of its own block, or an event of a batch given up or left unattempted |
| `StreamSkips.CleanSuspensionSafe` | internal/events/eventstream.go:525-627 | so with one event per block and subscription, suspensions that interrupt no batch leave the stored checkpoint safe |
| `StreamWitness.SplitBlockIsLost` | internal/events/evtprocessor.go:46-54 | for every ledger with a shared block, a run that stores the height after a block whose second event was never delivered |
| `StreamHeights.PollKeepsHeightsExactly` | internal/events/eventstream.go:377-451 | for any subscriptions, after any run without an earlier forgetful poll, suspensions included: a poll whose store succeeds leaves every claimed "newest" subscription a positive stored height, whatever interleaves with it, if and only if it did not begin blocked with such a subscription's mark unset |
| `StreamHeights.HeightRun` | internal/events/eventstream.go:377-451 | the invariant behind it, in every state of every run without a forgetful poll: marks, filters, poller copies, stored heights and claims agree, events come from the ledger, and a processor acknowledges only what was delivered or skipped |
| `StreamReopen.ReopensAt` | internal/events/eventstream.go:403-413 | a filter that is opened while the poller's copy holds a height above zero starts at that height, with its mark there, and relays exactly the events from that block on; without one it starts at the explicit block, the newest height, or not at all; a live filter and all other subscriptions are left alone |
| `StreamReopen.NothingRedelivered` | internal/events/eventstream.go:377-451 | after a crash in any state, through any suspensions and resumes of the new process, no event below a subscription's stored height is taken in again and no lower height is stored, as long as no poll begins blocked while that subscription's mark is unset |
| `StreamReopen.HeightHeldExactly` | internal/events/eventstream.go:377-451 | up to the first such poll: a poll that stores its checkpoint, whatever interleaves with it, keeps the height the process began with if and only if it is not such a poll |
| `StreamReopen.PollRecords` | internal/events/eventstream.go:380-449 | a poll works on its own copy or, while that is empty, on the stored checkpoint; it opens filters only while not blocked; it copies the mark of each subscription it saw, and a store that succeeds leaves exactly the copy behind, if one was unset or had moved |
| `StreamReopen.PollerLeft` | internal/events/eventstream.go:366-376 | a poller leaves only a suspended or stopped stream, and unregisters every filter; their relays keep what they had been given |
| `StreamFlow.BaseRun` | internal/events/eventstream.go:457-627 | in every uninterrupted run: what each filter relayed is what was accepted, in order and without a gap from where it was opened, and a processor acknowledges only what is done |
| `StreamRace.RecoveryRaceLoses` | internal/events/submanager.go:594-650 | for any batch size and every ledger with a batch of events to block the stream and one event to lose: an uninterrupted run in which a poll between two recovered subscriptions leads to a claimed event that is neither delivered, nor on its way, nor still to be relayed |
| `StreamConservation.StreamInvRun` | internal/events/eventstream.go:457-627 | in every run of start, suspend, resume, stop and crash: at most one poller and one processor; inFlight is exactly what is in the current batch, the queue, the batch in process and abandoned; batches hold 1 to BatchSize events; a batch given up is never acknowledged; accepted events are, as a multiset, done, in the pipeline, abandoned or passed over unattempted |
| `StreamConservation.InOrderRun` | internal/events/eventstream.go:457-565 | while nobody suspends or stops the stream, the accepted sequence is the completed one followed by the batch in process, the queue and the current batch, in order |
| `StreamConservation.CountNeverUnderflows` | internal/events/eventstream.go:605-610 | the unsigned subtraction of a processed batch never wraps around |
| `StreamConservation.ResumeIsExclusive` | internal/events/eventstream.go:337-350 | a refused resume changes nothing; a granted one starts one processor and one poller, finds none of the earlier ones alive, and changes nothing else |
| `StreamConservation.RestartKeepsStored` | internal/events/submanager.go:594-650 | a restart keeps the stored subscriptions and checkpoint and nothing else, and comes up suspended exactly if the stream is stored so |
| `StreamProgress.DeliveryPossible` | internal/events/eventstream.go:457-565 | after any run, while the stream is neither suspended nor stopped: whatever was taken in and not given up, and whatever an open filter has yet to relay, is delivered by some run without a restart or another suspension |
| `StreamProgress.RelaysNeverWait` | internal/events/subscription.go:114-148 | short of a stop, blocked or suspended or not, a filter with something left can hand over exactly its next event, and so can the relay of an unregistered one |
| `StreamLeave.ResumePossible` | internal/events/eventstream.go:337-350 | after any run that leaves the stream suspended, whatever its goroutines are doing, some run in which nobody interferes ends with both of them gone, and a resume is then granted |
| `StreamLeave.RegisteredAndSeen` | internal/events/submanager.go:486-499 | a subscription is registered once, with where it asks to start from, and seen by the stream from then on; after a restart it can always be recovered |
| `StreamResume.ResumeRecoversExactly` | internal/events/eventstream.go:337-365 | after any run, with both goroutines gone and the stream not stopped: from a granted resume some run without another suspension or a restart comes to a poll that may open filters, if and only if the abandoned events do not fill a batch |
| `StreamResume.WedgedForever` | internal/events/eventstream.go:377-451 | with a batch's worth of abandoned events, the stream stays blocked and opens no filter, whatever happens short of a restart of the process |
| `EventStreams.EventStream.constructor` | internal/events/eventstream.go:131-198 | batch size clamped to 1..1000, everything else empty |
| `EventStreams.EventStream.Receive` | internal/events/eventstream.go:496-521 | one event counted in flight and appended, the batch queued when it is full: the Receive step of the state machine |
| `EventStreams.EventStream.Timeout` | internal/events/eventstream.go:506-515 | a batch that waited long enough is queued without being counted again |
| `EventStreams.EventStream.TakeBatch` | internal/events/eventstream.go:533-565 | the head of the queue, or nothing when the goroutine must leave |
| `EventStreams.EventStream.Suspend` | internal/events/eventstream.go:329-334 | only the flag changes |
| `EventStreams.EventStream.Resume` | internal/events/eventstream.go:337-350 | granted exactly when both goroutines have left; otherwise nothing changes |
| `EventStreams.EventStream.Stop` | internal/events/eventstream.go:320-326 | only the flag changes |
| `EventStreams.EventStream.IsBlocked` | internal/events/eventstream.go:356-365 | blocked exactly when a batch's worth of events is in flight |
| `EventStreams.EventStream.TryBatch` | internal/events/eventstream.go:577-603 | with n failed attempts under "block" before it, a success, or a failure under "skip", ends the loop after n + 1 attempts, processed and with the stream running; a call that attempted nothing ends it processed but suspended; if every attempt failed, the batch is not processed and the stream suspended |
| `EventStreams.SettleMeans` | internal/events/eventstream.go:577-603 | the first attempt that is not tried again settles the batch: processed, and suspended exactly if it attempted nothing; without one the batch is given up after all attempts |
| `EventStreams.EventStream.ProcessBatch` | internal/events/eventstream.go:570-627 | a delivered or skipped batch leaves a running stream running, is counted off, and every one of its events ends below its mark; a batch given up, or not attempted, moves no mark, and only the latter is counted off; the marks end where one callback per event would have put them |
| `EventStreams.EventStream.CallBack` | internal/events/eventstream.go:624-626 | in any map order each mark ends just past its subscription's last event, or where it was if that is higher; for batches in block order that is what one callback per event gives |
| `StreamBatch.BatchRuns` | internal/events/eventstream.go:570-610 | processBatch's loop and the processor's steps in the state machine agree: for any script of attempts, the run of those steps ends with the batch counted off and the stream suspended exactly as the loop leaves it |
| `StreamBatch.AttemptsRun` | internal/events/eventstream.go:577-603 | up to the count: the batch is recorded as delivered, abandoned or unattempted exactly as the loop settles it |
| `StreamBatch.CallbacksRun` | internal/events/eventstream.go:612-626 | whatever order the callbacks are made in, the state machine raises the marks as that order does, for the whole batch; once suspended or stopped it raises none |
| `EventStreams.EventStream.RecordMarks` | internal/events/eventstream.go:421-435 | the copied heights of exactly the subscriptions seen, and changed exactly when one was zero or differed |
| `Subscriptions.EvtProcessor.BatchComplete` | internal/events/evtprocessor.go:46-54 | the mark moves as the Ack step moves it, for every block number; past the last height the increment wraps and the mark stays |
| `Subscriptions.Subscription.OpenFilter` | internal/events/eventstream.go:394-413 | a requested reset drops the filter and the checkpoint entry; then a stale filter that is not being deleted is opened at a stored height above zero, with the mark set to it, whatever the subscription asks for, and else where it asks for; tied to the StartFilter step for every failing query and refused subscription |
| `Subscriptions.Subscription.SetInitialBlockHeight` | internal/events/subscription.go:72-90 | an explicit block leaves the mark alone, the newest height sets it, and a bad block or failed query does neither |
| `HighWater.CallbacksFor` | internal/events/eventstream.go:617-623 | for each subscription of the batch its last event |
| `HighWater.LastPerSubIsLast` | internal/events/eventstream.go:617-623 | the kept event is the subscription's last one in the batch, and every subscription of the batch has one |
| `HighWater.AckShortcut` | internal/events/eventstream.go:617-626 | acknowledging each subscription's last event in any order equals acknowledging every event, when no earlier event beats the last |
| `HighWater.AckShortcutExact` | internal/events/eventstream.go:617-626 | the shortcut equals acknowledging every event, for all marks, if and only if no earlier event of a subscription lies in a later block than its last |
| `HighWater.OrderedBatchLastIsHighest` | internal/events/eventstream.go:617-626 | batches in block order meet that condition |
| `Retry.PerformActionWithRetry` | internal/events/eventstream.go:631-656 | which attempt decides the result; that a call suspended before its first attempt returns no error without an attempt; how long the attempts and the doubling waits between them take; that it stops at the first attempt that succeeds or ends past the timeout, and gives up for no other reason than suspension or an update |
| `Timestamps.TimestampCache.GetEventTimestamp` | internal/events/subscription.go:150-174 | the stamp and the cache it leaves; a failed query stamps zero and caches nothing |
| `Timestamps.CacheIsTransparent` | internal/events/subscription.go:128-174 | on one channel, after any lookups, failures and evictions, a stamp is what a query would give, and a chaincode event is stamped right exactly when its transaction has the time of the block's first |
| `Timestamps.SharedCacheExactly` | internal/events/subscription.go:150-174 | with two channels on one stream, every stamp of every sequence of lookups is what a query would give if and only if the two chains agree in every block and transaction |
| `KVStores.SearchStrings` | internal/rest/receipt/leveldb.go:365-388 | on a sorted slice, the split point of Go's sort.SearchStrings |
| `KVStores.KVStore.Put` | internal/kvstore/kvstore.go:72-76 | the map changes under that key exactly if the write succeeds, keys stay in order |
| `KVStores.KVStore.NewIterator` | internal/kvstore/kvstore.go:90-102 | a snapshot of exactly the keys from the range's start on, in order |
| `KVStores.Iterator.Seek` | internal/kvstore/kvstore.go:120-122 | the first key at or after the search key |
| `KVStores.Iterator.Prev` | internal/kvstore/kvstore.go:128-130 | one position back, and whether a key is there |
| `LevelDBReceiptStore.LevelDBReceipts.AddReceipt` | internal/rest/receipt/leveldb.go:72-110 | with any write failing: the store changes by exactly the writes before it, in order (record, sender, recipient if there is one, time, request ID), and an error is returned exactly if one failed |
| `LevelDBReceiptStore.LevelDBReceipts.GetReceipts` | internal/rest/receipt/leveldb.go:113-174 | the whole answer for every mix of ids, from, to, since, start, skip and limit, as a function of the log of adds |
| `LevelDBReceiptStore.LevelDBReceipts.ChooseKeys` | internal/rest/receipt/leveldb.go:130-157 | a filter that matches nothing never falls through to the unfiltered scan |
| `LevelDBReceiptStore.LevelDBReceipts.FindEndPoint` | internal/rest/receipt/leveldb.go:241-257 | the lookup key of the least receivedAt index entry at or after the search key, or nothing |
| `LevelDBReceiptStore.LevelDBReceipts.GetLookupKeysByIDs` | internal/rest/receipt/leveldb.go:259-274 | the lookup keys stored under the ids, sorted and bounded |
| `LevelDBReceiptStore.LevelDBReceipts.GetLookupKeysByFromAndTo` | internal/rest/receipt/leveldb.go:276-307 | the log's entries sent from and to the addresses, each scan cut to its oldest hits |
| `LevelDBReceiptStore.LevelDBReceipts.GetReceiptsByLookupKey` | internal/rest/receipt/leveldb.go:339-363 | the stored receipts of the first keys, in their order |
| `LevelDBReceiptStore.LevelDBReceipts.GetReceipt` | internal/rest/receipt/leveldb.go:212-235 | never fails on a dangling key; finds the receipt of the latest completed add of that request, or nothing if none completed |
| `ReceiptScans.GetLookupKeysByPrefix` | internal/rest/receipt/leveldb.go:309-337 | the values under the keys with the prefix, in key order: as many as there are or the limit, but one even when the limit is lower |
| `ReceiptScans.Intersect` | internal/rest/receipt/leveldb.go:365-375 | of sorted slices, the elements of the first that are in the second |
| `ReceiptScans.ApplyBound` | internal/rest/receipt/leveldb.go:377-388 | of a sorted slice, the keys from the lower bound on and below the upper one |
| `ReceiptScans.GetReceiptsNoFilter` | internal/rest/receipt/leveldb.go:176-209 | the reverse walk collects exactly its page of records |
| `ReceiptQuery.FilteredQueryIsExact` | internal/rest/receipt/leveldb.go:113-157 | with distinct ids, a time bound that misses none, and the newest match among as many oldest hits of each address as the limit: the answer lists the receipts of exactly the entries that pass every test of the query, newest first, cut to the limit |
| `ReceiptQuery.FewHitsAreAll` | internal/rest/receipt/leveldb.go:113-157 | in particular whenever sender and recipient each have no more indexed receipts than the limit |
| `ReceiptQuery.FilteredIsScanExactly` | internal/rest/receipt/leveldb.go:113-157 | for every mix of filters, every bound and every limit: the chosen keys, newest first, are those of a plain scan of the log if and only if there is no match, or no more entries of the sender, and of the recipient, come up to the newest match than the limit, or one if that is lower |
| `ReceiptQuery.SinceCut` | internal/rest/receipt/leveldb.go:241-257 | for indexed times of one width in insertion order, whatever other adds failed: an indexed entry is at or after the cut exactly when received since then, and there is no cut exactly when none qualifies |
| `ReceiptQuery.SinceCutAll` | internal/rest/receipt/leveldb.go:241-257 | over all entries, indexed or not, the cut is exact if and only if every unindexed entry that qualifies has an indexed one that does at or before it |
| `ReceiptQuery.SinceCutExactly` | internal/rest/receipt/leveldb.go:241-257 | among indexed times of one width the cut is exact for every search time if and only if they follow insertion order |
| `ReceiptQuery.SinceOtherWidth` | internal/rest/receipt/leveldb.go:241-257 | a search time of another width cuts the indexed entries exactly if and only if, compared as text, it reaches the first of them (fewer digits) or misses the last (more digits) |
| `ReceiptQuery.ShortSinceMisses` | internal/rest/receipt/leveldb.go:241-257 | since 9 misses a receipt of time 10 |
| `ReceiptPaging.BrowsingIsStable` | internal/rest/receipt/leveldb.go:113-209 | answers asked for one after another, each from the sequence key of the last row before, skipping it, name the records of the first moment newest first, without gap or repeat, whatever was added in between |
| `ReceiptPaging.PagesOfLogs` | internal/rest/receipt/leveldb.go:176-209 | the same over pages of keys |
| `ReceiptPaging.PagingIsStable` | internal/rest/receipt/leveldb.go:176-209 | the same over the keys of the stores alone |
| `ReceiptPaging.RowsNameKeys` | internal/rest/receipt/leveldb.go:176-209 | every row of an unfiltered answer names the key it came from, so the last one is the next page's start |
| `ReceiptPaging.UnfilteredQueryIsExact` | internal/rest/receipt/leveldb.go:158-209 | an unfiltered answer from the newest, or from a stored and recent enough key, lists the receipts of exactly the entries that pass every test, newest first, each with its key, after the skipped ones and cut to the limit |
| `ReceiptPaging.StartExactly` | internal/rest/receipt/leveldb.go:180-186 | starting at a key the store does not hold is harmless if and only if there are no records or the next greater key is no record |
| `ReceiptIndex.IndexNamesRecord` | internal/rest/receipt/leveldb.go:72-110 | whatever writes failed, every index entry names a stored record, and is one of that record's own index keys |
| `ReceiptIndex.CompletedIsIndexed` | internal/rest/receipt/leveldb.go:72-110 | a completed add is found under "from:" and its sender, "to:" and its recipient if there is one, "receivedAt:" and its time, and its request ID |
| `ReceiptIndex.WellFormedIntact` | internal/rest/receipt/leveldb.go:72-110 | with well-formed keys and request IDs, whatever writes failed: records hold receipts, every key of an index family is an entry's own, and the records come after all other keys |
| `ReceiptIndex.RequestIdExactly` | internal/rest/receipt/leveldb.go:72-110 | every completed add under a request ID leaves the indexes so, if and only if the ID starts no index key and comes before the records |
| `ReceiptLog.AddressPrefixExact` | internal/rest/receipt/leveldb.go:276-337 | a prefix search for an address reaches that address and exactly those that continue it after a colon |
| `ReceiptWriter.WriteReceipt` | internal/rest/receipt/receiptstore.go:152-190 | returns normally if and only if a receipt of that request is complete, and at the first attempt after which one is; panics only past the timeout; the time gone by is that of the attempts and of the waits, each a tenth longer than the last, and before the last attempt it was within the timeout |
| `ReceiptWriter.AttemptsBounded` | internal/rest/receipt/receiptstore.go:152-190 | so there are at most 2 + T/d0 attempts |
| `ReceiptWriter.RetriesAreListed` | internal/rest/receipt/receiptstore.go:152-190 | every attempt that got past its first write leaves one more record in the listing |
| `MemoryReceiptStore.MemoryReceipts.AddReceipt` | internal/rest/receipt/memdb.go:87-97 | after n adds the newest min(n, max(1, MaxDocs)) receipts, newest first |
| `MemoryReceiptStore.MemoryReceipts.GetReceipts` | internal/rest/receipt/memdb.go:51-69 | after the skipped ones as many receipts as there are or the limit, in order; the error exactly when there is a filter |
| `MemoryReceiptStore.MemoryReceipts.GetReceipt` | internal/rest/receipt/memdb.go:71-85 | the newest kept receipt of that request, if any |
| `MemoryReceiptStore.StoresAgreeExactly` | internal/rest/receipt/memdb.go:51-97 | given the same receipts, the two stores answer every unfiltered page with as many rows and the same receipts if and only if the memory store has dropped none |
| `RegistryInvariants.ReferentialIntegrity` | internal/events/submanager.go:375-541 | in every run, whatever writes and deletes fail: every live subscription names a live stream, and documents sit under their own IDs |
| `RegistryInvariants.FiltersAreUnique` | internal/events/submanager.go:446-541 | no two live subscriptions share channel, chaincode, block type and event filter, through failing deletes and restarts, as long as no accepted one missed its index write |
| `RegistryInvariants.IndexRun` | internal/events/submanager.go:446-541 | under that condition every live and every stored subscription is found under its lookup key |
| `RegistryInvariants.UniquenessNeedsIndex` | internal/events/submanager.go:486-541 | a second subscription for the same filter is accepted if and only if the first missed its index write |
| `RegistryInvariants.DeleteFreesFilter` | internal/events/submanager.go:521-530 | after a delete no live subscription has the filter, and it can be subscribed to again if and only if both deletes went through |
| `RegistryInvariants.RefusedIffTaken` | internal/events/submanager.go:486-498 | when nothing failed, a subscription is turned away as a duplicate if and only if a live one has its lookup key |
| `RegistryFilters.RefusedIffSameFilter` | internal/events/submanager.go:486-498 | when moreover the hash keeps the joined keys apart, and either the new filter shares its key with no other that can arrive and all live ones arrived, or none holds a dash in channel, chaincode or block type: if and only if a live one has the same filter |
| `RegistryFilters.RefusalExactly` | internal/events/submanager.go:281-309 | a filter that AddSubscription admits is turned away, after every run in which nothing failed, exactly when a live subscription has it, if and only if it shares its joined key with no other filter that can arrive |
| `RegistryInvariants.NoStaleRun` | internal/events/submanager.go:397-414 | when nothing failed, every index entry names a live subscription with that lookup key, so deleting leaves none behind |
| `FilterKeys.KeyTellsFilters` | internal/events/submanager.go:679-684 | between filters whose channel, chaincode and block type hold no dash, the joined keys are equal if and only if the filters are |
| `FilterKeys.KeyIsOwnExactly` | internal/events/submanager.go:679-684 | among the filters that can arrive, a filter shares its joined key with no other if and only if its chaincode holds no dash, its channel none past the first character unless the event filter is empty, the channel no block type as a later segment, and the event filter none as a segment with something after it or, past the first dash, nothing before it |
| `FilterKeys.AdmittedArrives` | internal/events/submanager.go:281-309 | the filters that can arrive are exactly those AddSubscription admits, with the defaults of addSubscription filled in |
| `RegistryInvariants.RecoveryRoundTrip` | internal/events/submanager.go:594-650 | from a mirrored database, recovery rebuilds exactly the live streams, the same in every field but a TLS option left out, and exactly the live subscriptions, the same in every field but the summary |
| `RegistryInvariants.MirroredRun` | internal/events/submanager.go:375-541 | the database mirrors the memory in every run in which no document write or delete fails, restarts included |
| `RegistryInvariants.RestartAfterRun` | internal/events/submanager.go:594-650 | a restart after any such run gives back all that was live, in every field but those two, and only that |
| `RegistryInvariants.RestartKeeps` | internal/events/submanager.go:594-650 | after any run, whatever failed, and under any configuration at the restart: a stream comes back exactly if its document is stored and its transport is there, a subscription exactly if its document is stored and its stream comes back, and every subscription that does names a live stream |
| `RegistryInvariants.RestartUnder` | internal/events/submanager.go:594-650 | the same under any other configuration, for the live streams that can start there and their subscriptions |
| `RegistryEffects.TakesEffect` | internal/events/submanager.go:375-541 | what the stream or subscription named by an operation becomes, and when the operation does nothing |
| `RegistryEffects.OtherStreamsKept` | internal/events/submanager.go:375-436 | no operation short of a restart touches a stream it does not name |
| `RegistryEffects.OtherSubsKept` | internal/events/submanager.go:397-541 | nor a subscription, save those of a deleted stream |
| `RegistryEffects.OtherDocsKept` | internal/events/submanager.go:397-541 | the same of their documents, whatever writes fail |
| `RegistryEffects.CheckpointRun` | internal/events/submanager.go:562-592 | in every run, whatever fails and however often the process restarts, the database holds for each stream the checkpoint last stored for it, until both are deleted with it |
| `RegistryEffects.NumbersReset` | internal/events/submanager.go:501-519 | a decimal number is a valid starting block if and only if it fits 64 bits |
| `RegistryEffects.OnlyDigitsReset` | internal/events/submanager.go:501-519 | any other text is one only if it is "newest" |
| `Registry.DefaultsRespectUser` | internal/events/eventstream.go:131-160 | every setting the user left out gets its documented value, every other is kept, and only a batch size over 1000 is cut |
| `Registry.WebhookRespectsUser` | internal/events/webhooks.go:50-61 | a webhook section is filled in exactly for a stream of that type, in any spelling |
| `Registry.TypesAreKnown` | internal/events/eventstream.go:131-136 | both types are known in upper and lower case, and any other is left as it is |
| `Registry.StartsUnless` | internal/events/eventstream.go:175-195 | a stream starts unless its cache size is negative or it needs websockets and there are none |
| `Registry.SubDefaultsRespectUser` | internal/events/submanager.go:446-462 | an unset name, starting point, block type and, with a chaincode, filter get their documented values; everything else is kept, and filling in twice changes nothing more |
| `Registry.DefaultsOnce` | internal/events/eventstream.go:131-160 | filling in defaults twice is filling them in once |
| `Registry.RestoredSame` | internal/events/submanager.go:594-624 | a stream comes back unchanged exactly unless it carries an unused webhook section without the TLS option |
| `SubscriptionManagers.SubscriptionManager.constructor` | internal/events/submanager.go:594-650 | the two recovery loops rebuild what Recovered says |
| `SubscriptionManagers.SubscriptionManager.RecoverStreams` | internal/events/submanager.go:594-624 | every stored stream that can start, under its ID |
| `SubscriptionManagers.SubscriptionManager.RecoverSubscriptions` | internal/events/submanager.go:626-650 | every stored subscription whose stream is live |
| `SubscriptionManagers.SubscriptionManager.AddStream` | internal/events/submanager.go:375-384 | the registry's AddStream step; an error exactly if the cache size is negative, the transport is missing or the write fails |
| `SubscriptionManagers.SubscriptionManager.StoreSuspended` | internal/events/submanager.go:416-436 | the stream's flag becomes the value asked for, in memory and, if the write succeeds, in its document; nothing else changes |
| `SubscriptionManagers.SubscriptionManager.AddSubscription` | internal/events/submanager.go:446-499 | the registry's AddSubscription step; 400 exactly if the lookup key is taken, 200 exactly if accepted |
| `SubscriptionManagers.SubscriptionManager.StoreSubscription` | internal/events/submanager.go:532-541 | the document, the same in every field but the summary, then the index entry, the second only after the first; no other key changes |
| `SubscriptionManagers.SubscriptionManager.ResetSubscription` | internal/events/submanager.go:501-519 | the starting block becomes the one asked for, or "newest", and nothing else of the subscription changes; refused exactly for a block that is no number, "newest" or empty |
| `SubscriptionManagers.SubscriptionManager.DeleteSubscription` | internal/events/submanager.go:521-530 | the registry's DeleteSubscription step; the index entry goes only after the document |
| `SubscriptionManagers.SubscriptionManager.DeleteStream` | internal/events/submanager.go:397-414 | the registry's DeleteStream step, by the source's loop over the subscriptions |
| `DirectDispatch.InvRun` | internal/rest/async/directhandler.go:91-135 | under every interleaving of requests with distinct IDs in flight: the handler's map, the processor's list, the slots and the receipts are exact |
| `DirectDispatch.BoundedWork` | internal/rest/async/directhandler.go:111-119 | at most MaxInFlight requests unanswered and, when above one, at most SendConcurrency being sent |
| `DirectDispatch.RunsEnd` | internal/tx/txprocessor.go:99-255 | without new requests no run goes on for ever: every step uses up part of what is left |
| `DirectDispatch.NoDeadlock` | internal/tx/txprocessor.go:230-255 | while a request is unfinished, some request can take a step |
| `DirectDispatch.NothingLeft` | internal/tx/txprocessor.go:153-195 | when all are finished, map, list and slots are empty and each request has exactly one receipt |
| `DirectDispatch.StepsUnlessWaiting` | internal/tx/txprocessor.go:230-240 | a request can take its next step exactly unless it waits for a slot and all are taken |
| `DirectOutcome.EachItsOwnReceipt` | internal/tx/txprocessor.go:171-255 | under every interleaving, whatever IDs clients choose: a receipt tells of a transaction that was sent if and only if the send of its own request succeeded |
| `DirectOutcome.BeginsBy` | internal/tx/txprocessor.go:99-149 | a transaction is listed last under a new number; what cannot be processed is answered at once with an error, and neither listed nor sent |
| `DirectBounds.SendLimitExactly` | internal/tx/txprocessor.go:230-240 | no run sends more than SendConcurrency requests at once if and only if that is above one, or MaxInFlight does not exceed it |
| `DirectBounds.OneIsNotSerial` | internal/tx/txprocessor.go:230-240 | otherwise, a run that sends one more than SendConcurrency at once |
| `DirectBounds.DuplicateIsNotCounted` | internal/rest/async/directhandler.go:111-131 | an accepted request is counted in flight if and only if its ID was not in flight already |
| `DirectBounds.DuplicateEscapes` | internal/rest/async/directhandler.go:111-131 | with MaxInFlight above one, runs with any number of unanswered requests under one ID |
| `DirectBounds.FlightLimitExactly` | internal/rest/async/directhandler.go:111-131 | whatever IDs clients choose, no run has more than MaxInFlight requests unanswered if and only if that is at most one |
| `DirectDispatch.WithoutMeans` | internal/tx/txprocessor.go:153-168 | taking one transaction off the list leaves exactly the others, in order |
| `DirectHandlers.TxProcessor.AddInflightWrapper` | internal/tx/txprocessor.go:124-149 | the list and the numbering after the Begin step, and the number that request is given |
| `DirectHandlers.TxProcessor.CancelInFlight` | internal/tx/txprocessor.go:153-168 | the search and splice take off exactly that transaction: the list after the Settle step of a failed send and the Close step of an answered one |
| `DirectHandlers.DirectHandler.constructor` | internal/rest/async/directhandler.go:137-148 | limits of zero or less become ten in flight and one sender |
| `DirectHandlers.DirectHandler.Admit` | internal/rest/async/directhandler.go:111-131 | 429 exactly when the map is full; the Dispatch step otherwise |
| `DirectHandlers.DirectHandler.Reply` | internal/rest/async/directhandler.go:91-105 | the map and the receipts after each of the three steps that answer a request, with success or error as that step has it |
| `KafkaSend.EachItsOwnOutcome` | internal/rest/async/kafkahandler.go:60-173 | under every interleaving in which no ID is reused while a report could be taken for another's: pending, delivered and failed are disjoint, and each call returns what was reported about its own message |
| `KafkaReuse.ReuseExactly` | internal/rest/async/kafkahandler.go:60-173 | in any state of such a run, after a new call every call still returns its own outcome, however the run goes on, if and only if the new ID meets that condition |
| `KafkaSend.NoWakeUpLost` | internal/rest/async/kafkahandler.go:66-133 | in no state of any such run does a call sleep whose message has been reported, and a call that looks returns exactly when its message has been reported: only the broadcast of a report wakes sleepers, and none is missed |
| `KafkaSend.NothingKept` | internal/rest/async/kafkahandler.go:94-133 | when every call has returned, all three maps are empty |
| `KafkaHandlers.KafkaHandler.SetMsgPending` | internal/rest/async/kafkahandler.go:60-64 | the Dispatch step of an acknowledged message |
| `KafkaHandlers.KafkaHandler.OnError` | internal/rest/async/kafkahandler.go:94-112 | the Report step of a failure, with its broadcast; nothing for a message nobody waits for |
| `KafkaHandlers.KafkaHandler.OnSuccess` | internal/rest/async/kafkahandler.go:115-133 | the Report step of a delivery, with its broadcast; nothing for a message nobody waits for |
| `KafkaHandlers.KafkaHandler.TryReceive` | internal/rest/async/kafkahandler.go:66-80 | one round of the wait loop: the Check step, which returns or goes to sleep |

## Left out

- `eventStream.update` and subscription reset inside the delivery proofs: a rejected update never clears its
  flag, the processor reports itself done before it is, and reset keeps the old mark, so none of the invariants
  survives them. Deletion of streams and subscriptions is left out there too; the registry model has both.
- Webhook and WebSocket delivery: an attempt succeeds or fails.
- Fabric clients, block decoding and the event clients they cache: a subscription's events are a given sequence.
- MongoDB persistence, JSON decoding, REST routing and field checks, authentication, configuration, Kafka
  connection handling and the WebSocket server: input and output, or easy field checks.
- LevelDB itself: an ordered map. Reads and iterators do not fail, and a failing write changes nothing.
- Locks: a critical section is one action or one method. Data races on fields written without the lock are not
  modelled.
- AtLeastOnce: what open filters still have to relay is not followed across a suspension, after which relays of old
  filters mix with those of new ones; `CoveringExactly` and `CheckpointSafeRun` have no such limit.
- Relays across a resume: a relay goroutine that outlives its filter hands over what that filter still had. That it may
  instead read the channel of the next filter (`internal/events/subscription.go:114-129` reads the field anew in each
  round), and so take turns with the new relay, is not modelled.
- SkipsExactly: uses the order in which each filter relays, so it is limited to relays that keep to their own filter.
- CleanSuspensionSafe: limited in the same way.
- GetReceipts: its answer is tied to the log only when the generated keys and the request IDs in it are well formed and
  no stored address continues the one searched for after a colon; `RequestIdExactly` and `AddressPrefixExact` say what
  each condition is needed for.
- GetLookupKeysByFromAndTo: the same condition on stored addresses.
- WriteReceipt: the backoff is taken to be 1.1 times the delay in whole nanoseconds or one more, which leaves out
  delays too long for a float to hold exactly.
- StoresAgreeExactly: compares receipts, not the sequence keys, which only the LevelDB store returns.
- DefaultsRespectUser: only ASCII letters of a stream's type are lower-cased.
- Streams: the paths, creation times and headers of stream and subscription documents are not modelled.
