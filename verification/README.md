# A verified model of the OCTAR broker core

OCTAR is a message broker. Publishers write messages to groups of a queue; each group
hands its messages to consumers, with leases, retries, a parallelism limit, a rate
limit and a weighted share of the workers; every event goes to a per-queue write-ahead
log, from which the queues are rebuilt after a crash. This project models the core of
that machinery in Dafny and proves what it keeps, over every run and every
interleaving:

* **The log** (`Bytes`, `Crc32c`, `Record`, `RecordWriter`, `Segment`, `Wal`,
  `QueueWal`, `WriterLoop`, `SnapshotCut`, `Reopen`). Records, segments, the batching
  writer, rotation, crashes that keep synced bytes and any prefix of the rest, and
  replay. The file system is a parameter: each write may spill early, each flush, sync
  or open may fail.
* **The group engine** (`Messages`, `DelayedHeap`, `RateLimiter`, `GroupSpec`,
  `ConsumerGroup`, `GroupConservation`, `GroupDrain`, `GroupRuns`, `GroupLives`,
  `GroupOrder`, `Backoff`). `GroupSpec` says in closed form what each operation does to a group's
  value; the class `ConsumerGroup.Group`, with head indexes, a binary heap and the
  loops of the source, is proved against it; the run theorems are about the values.
* **Recovery** (`Recovery`, `RecoveryContents`, `RecoveryOutcome`, `LiveLog`). The replay
  handlers, the fate and the contents of each message as functions of its own records,
  the live group with the log its handlers write, and the durability promise from a
  publisher's acknowledgement to the rebuilt queue.
* **The scheduler** (`Scheduler`, `SchedulerSafety`, `SchedulerRounds`, `TimingWheel`,
  `Modular`). Activation flag, channel, wake mark and timers as interleaved atomic
  steps with program counters, and the wheel with its index arithmetic.
* **The smaller cores** (`Frames`, `FrameCodec`, `Glob`, `Registry`, `Subscriptions`,
  `KeyIndex`, `ShardedQueue`). Wire protocol, pattern matching, subscriber registry,
  key index with cursor pages, shards.

Code that updates state in place is a class whose methods are proved against functions
of the old state; loops are loops. A shard lock makes each group operation one atomic
step, so the group classes are sequential. Clock readings, map iteration order, file
system outcomes and the results of a dispatch are parameters.

## What turned out otherwise

Where the code does less than its documentation or the obvious reading promises, the
model follows the code, an input or a run shows the difference, and a lemma says exactly
when it occurs:

* Replay loses a message the live group still holds if the first record it acts on is an
  EXPIRE, or an ACK that did not find the message in flight (`LostIff`). It brings
  back a settled one if that record is a NACK that left an attempt, or if it acts on none
  (`RevivedIff`).
* Replay counts cleared slots and waiting retries against the depth limit and may refuse
  a durable message (`DepthLimitDropsDurableMessage`); it refuses none exactly when
  `TakesAllIffFits` says, and `ReplayPlaces` says where it puts the others.
* Numbering restarts when the log is reopened, and replay from a snapshot skips by number:
  of what the next writer confirms it skips as many records as the snapshot's number
  (`SecondLifeIsSkipped`, `SnapshotHidesTheNextWriter`).
* Without Durable a power loss may leave a later record and not an earlier one
  (`GapIsReachable`), exactly when `PowerLossIsPrefixIff` says.
* A rotation whose open fails leaves the segment number ahead of the open file, and a
  snapshot cut taken then misses what is written next (`CutIsExactIff`).
* A torn record at the end of the last segment swallows what is appended after reopening
  (`ReopenIsSafeIffNotTorn`). Segments are listed in order only while their names are
  equally long (`RangeSortsIff`).
* The limiter's retry time is one tick early, its clamp is dead code, and a look at an
  empty group costs a token (`RetryIsTight`, `EmptyLookSpendsToken`).
* A full activation channel drops the activation of a group with pending messages; it can
  exactly when there are more groups than slots (`NeverDropsIff`).
* An import replaces the whole key index, so groups it does not mention are listed no
  more (`ImportHidesAGroup`, `ImportAgreesIff`); recovery imports only into a queue
  without groups, where this cannot occur (`ImportIntoEmptyIsListed`). The cursor of an
  empty key reads as the end (`EmptyKeyEndsTheScan`, `CompletedScanIsFullIff`); the wire
  refuses an empty key, so only a direct call of Publish or PublishWithID makes one.
* Round robin stutters when its 64-bit counter wraps unevenly (`ThreeStutter`,
  `EachSlotOnceIff`). Exponential backoff wraps, to a negative delay (`BackoffWraps`) or to
  none at all (`BackoffVanishes`, `BackoffExactIff`).
* The registry's documentation says the pattern registered first wins; the map is
  iterated in no fixed order (`OrderDecides`), which matters exactly when `OrderIsFreeIff`
  says.

## Model

| member | source | states |
|---|---|---|
| `Bytes.GetPut` | internal/storage/writer.go:63-118 | a big-endian integer that fits its width reads back as itself, for every width |
| `Bytes.PutGet` | internal/storage/reader.go:33-108 | writing back what was read gives the same bytes |
| `Bytes.LessTotal` | internal/queue/queue.go:52-66 | byte-string order is total and irreflexive |
| `Crc32c.UpdateAppend` | internal/storage/writer.go:63-118 | feeding a record to the checksum piece by piece gives the checksum of the whole |
| `Crc32c.BurstDetected` | internal/storage/reader.go:33-108 | different contents of any four consecutive bytes always give different checksums, whatever surrounds them |
| `Crc32c.ByteDetected` | internal/storage/reader.go:33-108 | a change of any one byte changes the checksum |
| `Crc32c.PutCrcInjective` | internal/storage/writer.go:63-118 | different checksums have different footers |
| `Crc32c.CheckValue` | internal/storage/reader.go:33-108 | the checksum of the digits 1 to 9 is the published check value 0xE3069283 |
| `Crc32c.FooterOrder` | internal/storage/writer.go:63-118 | the footer has the most significant byte first |
| `Record.DecodeEncode` | internal/storage/reader.go:33-108 | a record reads back as its event and consumes exactly its bytes, whatever follows |
| `Record.DecodeTorn` | internal/storage/reader.go:33-108 | every proper prefix of a record reads as end of input |
| `Record.RoundTripIffWellSized` | internal/storage/writer.go:63-118 | an event survives encoding and decoding if and only if its fields are under 64 KiB and its payload under 4 GiB |
| `Record.DecodedIsWellSized` | internal/storage/reader.go:33-108 | whatever the reader returns has lengths that fit their prefixes |
| `Record.DamageIsReported` | internal/storage/reader.go:33-108 | one altered byte outside the length prefixes is always reported as corruption, never handed on |
| `Record.EncodeSize` | internal/storage/writer.go:63-118 | the size the writer counts is the length of the encoding |
| `Record.SampleRecord` | internal/storage/writer.go:63-118 | one record of any kind byte by byte: number, kind, time, reserved bytes, the four names, the payload and the checksum, big-endian and in this order; the kinds are 1 to 5, PUBLISH first and EXPIRE last |
| `RecordWriter.RecordChecksum` | internal/storage/writer.go:63-118 | the streaming checksum over header, fields and payload is the checksum of the record body |
| `RecordWriter.CopyRecord` | internal/storage/writer.go:63-118 | the bytes copied into the buffer are the body followed by the footer |
| `RecordWriter.EncodeRecord` | internal/storage/writer.go:63-118 | the writer's bytes are the record's encoding |
| `Segment.WholeIsLargest` | internal/storage/recovery/replay.go:154-177 | the number of whole records in n bytes is the largest whose encoding fits |
| `Segment.PrefixReplays` | internal/storage/recovery/replay.go:154-177 | any byte prefix of a segment replays exactly the records wholly inside it |
| `Segment.SegmentRoundTrip` | internal/storage/recovery/replay.go:154-177 | a complete segment replays as the events written to it |
| `Segment.TornSegmentReplays` | internal/storage/recovery/replay.go:154-177 | a torn segment replays a prefix of what was written that covers every record whose bytes survived |
| `Segment.IndexOffset` | internal/storage/writer.go:147-153 | at the summed size of the records before it, exactly the named record decodes |
| `Segment.Reader.ReadFull` | internal/storage/reader.go:33-108 | all n bytes and the position moved by n, or nothing and the position at the end |
| `Segment.ReadRun` | internal/storage/reader.go:33-108 | one length-prefixed field as the layout says, with the checksum carried on |
| `Segment.ReadEvent` | internal/storage/reader.go:33-108 | the reader's loop returns the declarative decoding of what is left and stops behind the record |
| `QueueWal.QueueWAL.constructor` | internal/storage/segment.go:13-45 | the last segment opened for append, numbering from the start; over a well-formed directory this establishes the invariant, the order of segments and the size counter |
| `QueueWal.QueueWAL.WriteRecord` | internal/storage/writer.go:63-118 | numbers the event, extends the open file by its encoding and returns the index entry (number, offset) |
| `QueueWal.QueueWAL.RotateSegment` | internal/storage/segment.go:79-112 | closes the segment and opens the next; a failed open of the log changes only the counters, a failed open of the index or close of the old files leaves the new log file in use |
| `QueueWal.QueueWAL.FlushBatch` | internal/storage/writer.go:128-212 | the whole new log state, and each waiter told exactly the outcome of this flush, in the answers the writer's loop counts on |
| `QueueWal.QueueWAL.Finish` | internal/storage/writer.go:160-212 | flush, sync when durable, rotation when full, for every combination of failures |
| `QueueWal.QueueWAL.WriteBatch` | internal/storage/writer.go:128-160 | the batch's records in order, with consecutive numbers |
| `QueueWal.QueueWAL.SignalDone` | internal/storage/writer.go:128-212 | every waiter of the batch gets one reply, nobody else gets any |
| `WriteAheadLog.FlushBatchKeepsInv` | internal/storage/writer.go:128-212 | whatever fails, a batch keeps the invariant of files and log, and extends the log by exactly its events |
| `WriteAheadLog.FlushBatchKeepsOrder` | internal/storage/segment.go:79-112 | segment numbers stay ascending |
| `WriteAheadLog.OpenedKeeps` | internal/storage/segment.go:13-77 | opening a well-formed directory gives a state with the invariant, ordered segments and a right size counter |
| `WriteAheadLog.EmptyDirectory` | internal/storage/segment.go:13-77 | an empty directory is well formed |
| `WriteAheadLog.RunKeepsInv` | internal/storage/writer.go:128-212 | every run keeps the invariant and only extends the log |
| `WriteAheadLog.CrashReplay` | internal/storage/recovery/replay.go:45-66 | after a crash of any one state the replay is a prefix of the log covering everything a confirmed flush covered |
| `WriteAheadLog.AcknowledgedEventsSurvive` | internal/storage/wal.go:225-245 | along every run and crash point the replay is a prefix of what was written and holds every event whose AppendSync returned nil |
| `WriteAheadLog.PartwayKeepsInv` | internal/storage/writer.go:147-187 | every state inside a batch, while records are copied, flushed or synced, keeps the invariant and has acknowledged nothing new |
| `WriteAheadLog.AcknowledgedEventsSurviveInBatch` | internal/storage/wal.go:225-245 | the same durability for a crash at any point inside a batch |
| `WriteAheadLog.FlushTracksSize` | internal/storage/writer.go:128-212 | the size counter follows the open segment through a batch if and only if no full segment stays in use |
| `WriteAheadLog.IndexEntryDecodes` | internal/storage/writer.go:147-153 | the offset of an index entry is where its record decodes, whatever is written later |
| `WriterLoop.StepKeepsInv` | internal/storage/writer.go:218-326 | each step of senders and writer, the drain after a stop signal included, keeps submission order, conservation, and the acknowledged events exactly those of the requests told nil |
| `WriterLoop.StepAnswersOnce` | internal/storage/writer.go:218-326 | no step answers a waiter twice or a non-waiter |
| `WriterLoop.StepTells` | internal/storage/writer.go:137-185 | answers stand once sent, and each answer a step adds is nil if and only if the step's flush was confirmed |
| `WriterLoop.DoKeepsInv` | internal/storage/writer.go:218-326 | the same over every interleaving |
| `WriterLoop.AppendSyncContract` | internal/storage/wal.go:225-245 | requests are dealt with in order, each waiter dealt with is answered once, nil if and only if its flush was confirmed; the waiters told nil are one for one those whose events count as acknowledged, and each finds its event in the replay after any crash; fewer requests than a batch are ever held back |
| `WriterLoop.AppendSyncContractInBatch` | internal/storage/wal.go:225-245 | a waiter answered nil finds its event in the replay after a crash inside any later flush |
| `WriterLoop.StartedKeeps` | internal/storage/writer.go:218-252 | a writer started over a well-formed directory satisfies everything the steps keep |
| `SnapshotCut.RunExtendsTail` | internal/storage/recovery/replay.go:85-106 | the tail past any cut grows by exactly the events written with numbers above the cut's, in order |
| `SnapshotCut.PruneIsInvisible` | internal/storage/segment.go:118-141 | removing older segments does not change what is read from the cut |
| `SnapshotCut.CutAcrossWriters` | internal/storage/recovery/replay.go:85-106 | for a cut of this writer or an earlier one: replay skips the first events written, as many as the cut's number is ahead of the writer's, and nothing else; none if and only if it is not ahead or nothing was written |
| `SnapshotCut.CutIsExact` | internal/storage/writer.go:359-362 | captured in any state: what is read from the cut is the stale records, if the open file is the one the counter names, and then exactly the events written since but for those that went to an older file |
| `SnapshotCut.CutIsExactIff` | internal/storage/writer.go:359-362 | captured in any state, with something written since: what is read from the cut is what was written since, if and only if the open file was the one the counter names and held no stale record |
| `SnapshotCut.FlushAligns` | internal/storage/segment.go:79-112 | a batch leaves file and counter in step exactly when they were and it does not rotate, or its rotation opens the new file |
| `SnapshotCut.UnalignedIsReachable` | internal/storage/segment.go:79-112 | one event that fills the segment and one failed open, over an empty directory, put them out of step |
| `SnapshotCut.StaleIsReachable` | internal/storage/segment.go:13-45 | over any directory whose last segment holds a numbered record the reopened writer finds it stale |
| `SnapshotCut.SnapshotHidesTheNextWriter` | internal/storage/recovery/replay.go:85-175 | a snapshot at number S and then another writer: replay from it reads all the first wrote since and all but the first S records of the second, so everything if and only if S is 0 or the second wrote nothing |
| `SnapshotCut.SecondLifeIsSkipped` | internal/storage/recovery/replay.go:171-173 | two writers with one event each and a snapshot between: the second event was confirmed, and replay skips it |
| `SnapshotCut.CutAfterCrash` | internal/storage/recovery/replay.go:85-106 | after a crash the tail read is a prefix of the tail written that covers confirmed flushes |
| `SnapshotCut.UnalignedCutLosesTheNextBatch` | internal/storage/segment.go:79-112 | after a failed open nothing of the next batch is read back from the cut, however that batch ends |
| `Reopen.PowerLossWithoutDurable` | internal/storage/writer.go:160-212 | without Durable a power loss can drop an earlier segment and keep a later one |
| `Reopen.PowerLossIsPrefixIff` | internal/storage/writer.go:160-212 | in any state of the writer, if its records differ: whatever a power loss leaves replays as a prefix of the log if and only if no segment with a record not known to be on disk is followed by one with a whole record handed to the system |
| `Reopen.OneLifeDiffers` | internal/storage/writer.go:147-151 | the records of one writer over an empty directory all differ |
| `Reopen.GapIsReachable` | internal/storage/writer.go:160-212 | without Durable two events, the first of which fills its segment, make such a gap |
| `Reopen.ReopenIsSafeIffNotTorn` | internal/storage/segment.go:13-77 | reopening and appending replays old and new records if and only if no torn record was left, numbered 1 or not (one numbered 1 was written at an earlier time); behind one the first new record is never read in its place, and all new ones are lost unless torn and new bytes chance to make a whole record |
| `Reopen.NamesSortLikeIds` | internal/storage/recovery/replay.go:45-66 | below 10^9 directory order is segment order |
| `Reopen.NamesStopSorting` | internal/storage/recovery/replay.go:45-66 | segment 10^9 is listed before 999999999 |
| `Reopen.RangeSortsIff` | internal/storage/recovery/replay.go:45-66 | a range of segments is listed in order if and only if its first and last names are equally long |
| `Messages.InsertAscending` | internal/queue/delayed.go:15-20 | inserting by (time, id) keeps the retries strictly ascending |
| `Messages.AscendingUnique` | internal/queue/delayed.go:15-20 | an ascending list is determined by its contents, so the heap has one order |
| `DelayedHeap.Push` | internal/queue/delayed.go:11-33 | appending and sifting up keeps a heap with exactly the message added |
| `DelayedHeap.Pop` | internal/queue/delayed.go:11-33 | the root comes out and the rest is a heap |
| `DelayedHeap.RootIsLeast` | internal/queue/delayed.go:15-20 | the root of a heap is before every other element |
| `DelayedHeap.PushOrder` | internal/queue/delayed.go:11-33 | a push is an insertion into the sorted list the heap stands for |
| `DelayedHeap.PopOrder` | internal/queue/delayed.go:11-33 | a pop takes the first of that list |
| `RateLimiter.SlidingWindowLimiter.Allow` | internal/queue/ratelimit.go:44-76 | the head-index implementation decides and updates as the window of admitted times says |
| `RateLimiter.Compact` | internal/queue/ratelimit.go:44-76 | compaction keeps exactly the live events |
| `RateLimiter.WindowBound` | internal/queue/ratelimit.go:44-76 | for nondecreasing call times no closed window of the configured length holds more than max admitted calls |
| `RateLimiter.RetryIsTight` | internal/queue/ratelimit.go:44-76 | the retry time is never before now, every call up to it is refused and the first one after it is admitted |
| `RateLimiter.ConsistentAfterRun` | internal/queue/ratelimit.go:44-76 | every run leaves a limiter to which that applies |
| `RateLimiter.CallTakesToken` | internal/queue/ratelimit.go:44-76 | a call is admitted if and only if a token is left, and takes one |
| `RateLimiter.CallsTakeTokens` | internal/queue/ratelimit.go:44-76 | n calls at one time take n tokens or all |
| `GroupSpec.WithDefaults` | internal/queue/group.go:116-154 | the defaults make a configuration a group can work with if and only if its attempts are not negative |
| `Backoff.DefaultRetries` | internal/queue/group.go:55-135 | with nothing set: one message at a time, one to a round, three attempts, two and four seconds between them, never more than five minutes; the lease timeout and the depth limit stay as they are |
| `Backoff.DefaultsRespect` | internal/queue/group.go:116-135 | what is set stays |
| `GroupSpec.Find` | internal/queue/queue.go:718-796 | the first slot that holds the message, or none |
| `ConsumerGroup.Group.constructor` | internal/queue/group.go:116-154 | a new group is empty, with its limiter if one is configured |
| `ConsumerGroup.Group.Publish` | internal/queue/queue.go:472-498 | accepted if and only if the depth limit leaves room, and then at the end of the ready list |
| `ConsumerGroup.Group.Complete` | internal/queue/group.go:349-360 | takes exactly the message out of flight |
| `ConsumerGroup.Group.ReturnToPending` | internal/queue/group.go:391-400 | moves an in-flight message to the end of the urgent list, and nothing otherwise |
| `ConsumerGroup.Group.Fail` | internal/queue/group.go:362-386 | reschedules with backoff in the heap, or hands out the message as exhausted |
| `ConsumerGroup.Group.NextDispatchable` | internal/queue/group.go:302-344 | the first of urgent then ready, in flight until the lease timeout from now, or the reason why not and the time to look again |
| `ConsumerGroup.Group.PromoteDelayed` | internal/queue/group.go:169-199 | returns expired leases in some order, moves the due retries to ready in (time, id) order, and gives the earliest time to wake |
| `ConsumerGroup.Group.DrainRound` | internal/queue/group.go:242-291 | the loop leaves the closed form: the batch is the first min(deficit + quantum, free parallelism, tokens, available) of urgent, ready and due retries, each leased until the lease timeout from now, the deficit is what is left, and the report says why it stopped |
| `ConsumerGroup.Group.TryDispatchOne` | internal/queue/queue.go:580-594 | promotion, then one message |
| `ConsumerGroup.Group.CompleteAndNext` | internal/queue/queue.go:563-578 | completion, promotion, then one message |
| `ConsumerGroup.Group.FailAndNext` | internal/queue/queue.go:617-640 | failure, promotion, then one message; the exhausted one is handed out |
| `ConsumerGroup.Group.CollectExpired` | internal/queue/queue.go:416-442 | exactly the in-flight messages whose lease is over, each once |
| `ConsumerGroup.Group.SweepExpired` | internal/queue/queue.go:416-442 | those are returned to pending and reported |
| `ConsumerGroup.Group.ReplayLease` | internal/queue/queue.go:718-755 | into flight from the urgent or ready list, until the lease timeout from now; found if and only if it stood there |
| `ConsumerGroup.Group.RemoveMessage` | internal/queue/queue.go:761-796 | out of urgent, ready or flight, in that order; found if and only if it was in one |
| `ConsumerGroup.Group.PendingNow` | internal/queue/group.go:421-422 | the count is that of the slots from the heads on plus the retries |
| `ConsumerGroup.Group.HeapHead` | internal/queue/group.go:201-216 | the head of the heap is the earliest retry |
| `GroupConservation.EnqueueSound` | internal/queue/group.go:156-160 | a new message keeps the group sound: ids unique, states and attempts right |
| `GroupConservation.FailSound` | internal/queue/group.go:362-386 | a failure keeps the group sound |
| `GroupConservation.PromoteSound` | internal/queue/group.go:169-199 | promotion keeps the group sound and holds the same messages |
| `GroupConservation.DispatchSound` | internal/queue/group.go:302-344 | n sends keep soundness and messages, raise the in-flight count by n and take the first n |
| `GroupDrain.RoundGoesOn` | internal/queue/group.go:242-291 | short of the batch size the loop never blocks and sends the next of the backlog |
| `GroupDrain.RoundStops` | internal/queue/group.go:242-291 | at the batch size it stops for the reason the closed form names, in the drained state |
| `GroupDrain.DrainRoundSound` | internal/queue/group.go:242-291 | a round keeps soundness, messages and the parallelism limit |
| `GroupDrain.DispatchInFlight` | internal/queue/group.go:302-344 | the messages sent are in flight with their leases and nothing else in flight changed |
| `GroupDrain.SentLeaseLasts` | internal/queue/group.go:302-344 | a message sent at t is expired at a time if and only if that is past t plus the lease timeout |
| `GroupDrain.BatchLeasesLast` | internal/queue/group.go:242-291 | the same for each message of a drained batch |
| `GroupDrain.ReplayedLeaseLasts` | internal/queue/queue.go:718-755 | the same for a lease in replay |
| `GroupDrain.PromotedBacklog` | internal/queue/group.go:160-240 | what a round works through, in order: messages returned before, those whose lease has just ended, those ready, and exactly the retries due, earliest first |
| `GroupDrain.NotStranded` | internal/queue/group.go:242-344 | if anything is pending after a round it reports more work or a wake-up or is at its parallelism; while a retry waits it reports a wake-up no later than it |
| `GroupDrain.WakesForLeases` | internal/queue/group.go:160-240 | a drain reports a wake-up no later than the end of any running lease, and none before now |
| `GroupDrain.EmptyLookSpendsToken` | internal/queue/group.go:302-344 | looking at an empty group costs the limiter a token |
| `GroupRuns.StepConserves` | internal/queue/group.go:156-400 | every operation keeps conservation |
| `GroupRuns.ExactlyOnePlace` | internal/queue/group.go:98-112 | each accepted message is in exactly one of waiting, delayed, in flight or gone, no other is in any |
| `GroupRuns.CountsAddUp` | internal/queue/group.go:421-422 | pending plus in flight is accepted minus settled plus the slots replay cleared, which a group that began empty has not |
| `GroupRuns.RunsConserveFrom` | internal/queue/group.go:156-400 | over every run from a new or a rebuilt group: one place each, state fields right, attempts below the limit, counts add up |
| `GroupRuns.ResumedConserves` | internal/queue/group.go:473-488 | any sound rebuilt group is one to go on from |
| `GroupRuns.RunsConserve` | internal/queue/group.go:156-400 | over every run of a new group also: no cleared slots in the counts, and the parallelism respected |
| `GroupLives.StepLives` | internal/queue/group.go:156-400 | every operation keeps with each message what happened to it: payload, failures, last error, last delivery, last failure |
| `GroupLives.RunLives` | internal/queue/group.go:156-400 | over every run: held or gone, a message has its payload, its number of failures and its last error; in flight its deadline is the lease timeout after its last delivery, delayed it is due the backoff after its last failure; it left done if acknowledged, and else with all attempts used, dead-lettered exactly if dead letters are configured |
| `GroupLives.PublishedPayloadIsKept` | internal/queue/queue.go:472-498 | from its publication on, at any point of any run, all that is held or gone under an id has the payload it was published with |
| `GroupLives.LeasesEndOnTime` | internal/queue/group.go:160-200 | after any run the leases an expiry at a given time ends are exactly those of messages last sent more than the lease timeout before |
| `GroupLives.RetryIsDue` | internal/queue/group.go:346-400 | a failed message is promoted at a time if and only if the backoff of its failures after the last one is over |
| `GroupOrder.RunInOrder` | internal/queue/group.go:302-335 | the sequential-order invariant holds over every run without NACKs |
| `GroupOrder.SequentialOrder` | internal/queue/group.go:302-335 | with parallelism 1 and no NACKs messages complete in publication order and every delivery is of the oldest message not completed |
| `GroupOrder.RunBalances` | internal/queue/group.go:242-291 | drained plus deficit is the initial deficit plus quantum times credited rounds, and the deficit is never negative |
| `GroupOrder.BackloggedGetsItsShare` | internal/queue/group.go:242-291 | a group that stays backlogged and unblocked is sent exactly its deficit plus quantum per round, whatever else happens |
| `Backoff.ExactBackoff` | internal/queue/group.go:403-419 | while it fits 63 bits the delay is initial times 2^attempt up to the cap, and never falls from attempt to attempt |
| `Backoff.BackoffExactIff` | internal/queue/group.go:403-419 | the delay is the doubled one up to the cap if and only if the doubling is below 2^63, or its residue modulo 2^64 lies between the cap and 2^63 |
| `Backoff.BackoffVanishes` | internal/queue/group.go:403-419 | from the 64th attempt on the delay is zero, for every positive initial delay and cap |
| `Backoff.BackoffWraps` | internal/queue/group.go:403-419 | one second doubled 34 times is a negative delay |
| `Backoff.LinearExactIff` | internal/queue/group.go:403-419 | linear backoff is one more initial delay with each attempt up to the cap, if and only if the product fits 63 bits or its wrapped value still reaches the cap |
| `Backoff.FixedBackoff` | internal/queue/group.go:403-419 | fixed backoff is the initial delay up to the cap |
| `Recovery.RecoveryHandler.Handle` | internal/storage/recovery/replay.go:179-192 | a record moves its own message as its kind says, leaves every other where it is, and keeps every group sound; a publish with room puts a new message with its payload last |
| `Recovery.RecoveryHandler.Replay` | internal/storage/recovery/replay.go:154-177 | after the loop each message is where its own records put it, those of the publishes that found room, and every group is sound |
| `Recovery.ApplyMoves` | internal/broker/recovery.go:166-188 | one record moves its own message as the fate function says and no other, and keeps the rebuilt groups sound |
| `Recovery.ReplayDecomposes` | internal/broker/recovery.go:166-188 | from an empty queue, whatever the interleaving, each message ends where its own records put it |
| `Recovery.TakesAllIffFits` | internal/queue/queue.go:484-488 | replay takes every publish if and only if at each publish of a group with a depth limit its earlier publishes and its messages waiting for a retry are together below the limit |
| `Recovery.RefusedIsNowhere` | internal/queue/queue.go:484-488 | the first publish without room is held nowhere, and every other message is where it would be without it |
| `Recovery.ReplayFitting` | internal/broker/recovery.go:166-188 | replay of any log ends in the very queue that replay of its records without the publishes that find no room ends in |
| `Recovery.FittingIffFits` | internal/queue/queue.go:484-488 | what is left without them fits, and is the whole log if and only if the log fits |
| `Recovery.ReplayPlaces` | internal/broker/recovery.go:166-188 | after replay of any log, whatever the depth limits: a message is nowhere if its publish found no room, and else where its own records put it |
| `RecoveryOutcome.FateByOwnRecords` | internal/broker/recovery.go:166-188 | a message's fate depends on its own records only |
| `RecoveryOutcome.UnsettledIsPresent` | internal/broker/recovery.go:166-188 | published, never acknowledged, never expired: present, however often it failed if more than one attempt is allowed, and if it never failed otherwise |
| `RecoveryOutcome.ReplayUntouched` | internal/broker/recovery.go:166-188 | with no ACK behind the PUBLISH and no NACK or EXPIRE behind the LEASE the message waits, or is out from its LEASE on |
| `RecoveryOutcome.ReplayByFirst` | internal/broker/recovery.go:166-188 | the first ACK behind the PUBLISH, or NACK or EXPIRE behind the LEASE, decides: a NACK that leaves an attempt keeps the message for good, anything else ends it |
| `RecoveryOutcome.AckedIsGoneIff` | internal/broker/recovery.go:174-184 | an acknowledged message is gone if and only if that first record is not a NACK that leaves an attempt, even if its LEASE was logged after the ACK |
| `RecoveryOutcome.NoNackNoRetry` | internal/broker/recovery.go:180-184 | without a NACK a message never waits for a retry |
| `LiveLog.ActTracks` | internal/broker/handlers.go:152-215 | what the log knows of a message through every step: accepted messages have their PUBLISH, an ACK that found its message in flight settled it, and a settled message has an ACK or NACK that found it |
| `LiveLog.LostIff` | internal/broker/handlers.go:152-182 | over every run of the live group with the records the handlers append, each handler's record and its turn at the group being two steps with others between: a message the group holds is lost by replay if and only if the first record replay acts on is an EXPIRE, or an ACK (or single-attempt NACK) that did not find it in flight |
| `LiveLog.RevivedIff` | internal/broker/handlers.go:184-215 | over every such run: a published message the group does not hold, settled, refused for want of room or not there yet, is brought back if and only if the first record replay acts on is a NACK that leaves an attempt, or it acts on none; a settled one in the second case had its NACK appended before any LEASE, or its ACK or NACK before the PUBLISH |
| `LiveLog.SweptMessageIsLost` | internal/broker/broker.go:158-182 | a run whose message waits live after its lease was swept and is gone after replay, by its EXPIRE or by a late ACK |
| `LiveLog.AcknowledgedMessageComesBack` | internal/broker/dispatch.go:103-135 | two runs that fail a message once and acknowledge it: it comes back if its NACK was appended behind its LEASE, and not if before |
| `LiveLog.FateInLog` | internal/broker/recovery.go:166-188 | the fate of a message in a replay of that log is that of its own records |
| `LiveLog.RebuiltBesideLive` | internal/broker/recovery.go:64-95 | the queue rebuilt from the interleaved records of any runs of its groups: a message held live is there unless its publish finds no room or the first record replay acts on gives it up; one not held is there exactly when its publish finds room and that record is a NACK that leaves an attempt, or there is none |
| `RecoveryOutcome.DepthLimitDropsDurableMessage` | internal/queue/queue.go:484-488 | with a limit of one, a message published after the first was acknowledged is refused in replay |
| `RecoveryOutcome.AcknowledgedPublishIsRecovered` | internal/broker/recovery.go:64-95 | after any crash, replaying what is left: a message acknowledged to its publisher and not settled in what is left is held exactly once and with its payload if and only if its publish finds room, and each does if all fit |
| `RecoveryContents.ReplayBears` | internal/broker/recovery.go:166-188 | whatever the rebuilt queue holds has the payload, failures, error and times that its records and the moments of their replay say |
| `RecoveryContents.PayloadIsRecovered` | internal/broker/recovery.go:166-169 | for every PUBLISH of any log, all that the rebuilt queue holds under its group and id has its payload |
| `TimingWheel.AddKeepsInv` | internal/scheduler/timingwheel.go:51-65 | a task is put where the wheel will look at it no later than its delay allows |
| `TimingWheel.DetachKeepsInv` | internal/scheduler/timingwheel.go:82-87 | taking the current bucket and moving on keeps every other bucket's time |
| `TimingWheel.SettleKeepsInv` | internal/scheduler/timingwheel.go:89-110 | a task fires neither early nor too late, or is put back where it is looked at in time, over any number of rotations |
| `TimingWheel.RunKeeps` | internal/scheduler/timingwheel.go:51-111 | in every run the tasks stored, detached and fired are together exactly those asked for |
| `TimingWheel.EachCallbackRunsOnceOnTime` | internal/scheduler/timingwheel.go:51-111 | no callback runs early, twice or unasked; none later than one tick (two for a delay under a tick) plus twice the slack of the clock; past that time it has run |
| `TimingWheel.CallbackRunsOnTime` | internal/scheduler/timingwheel.go:51-111 | call by call: a callback asked for at now with a delay runs at most once, not before now plus the delay, not later than a tick after that (two for a delay under a tick) plus twice the slack, and has run once the ticks are past that |
| `TimingWheel.NoneRunsUnasked` | internal/scheduler/timingwheel.go:51-111 | every callback that ran was asked for |
| `TimingWheel.Timer.constructor` | internal/scheduler/timingwheel.go:39-48 | a new wheel with empty buckets |
| `TimingWheel.Timer.Add` | internal/scheduler/timingwheel.go:51-65 | the array update is the value-level insertion |
| `TimingWheel.Timer.PutBack` | internal/scheduler/timingwheel.go:96-107 | re-insertion with the index that allows for the advance already made |
| `TimingWheel.Timer.Tick` | internal/scheduler/timingwheel.go:82-111 | the loop settles every detached task in order |
| `Scheduler.FlagAction` | internal/scheduler/scheduler.go:149-168 | every atomic step keeps a group's flag equal to the number of its outstanding activations |
| `SchedulerSafety.MarkAction` | internal/scheduler/scheduler.go:275-300 | every step keeps a timer of exactly the marked time behind a nonzero wake mark |
| `SchedulerSafety.WantedAction` | internal/scheduler/scheduler.go:275-300 | every step keeps a timer no later than asked behind each unanswered wake-up |
| `SchedulerSafety.FollowedAction` | internal/scheduler/scheduler.go:210-227 | every step keeps a requested activation coming, unless one was dropped |
| `SchedulerSafety.LookedAfterAction` | internal/scheduler/scheduler.go:210-267 | every step keeps a group with pending messages covered or excused |
| `SchedulerSafety.NoLostActivation` | internal/scheduler/scheduler.go:149-168 | in every interleaving the flag counts outstanding activations, no group is twice in the channel, and a group activated since its last drain with nothing dropped is on its way to a drain |
| `SchedulerSafety.NoLostWakeUp` | internal/scheduler/scheduler.go:275-300 | in every interleaving, for each time a drain reported, until a timer no later has activated the group such a timer is to come or a goroutine is about to arm one; no timer is set for a time no drain reported; a nonzero mark has its timer |
| `SchedulerSafety.PendingIsLookedAfter` | internal/scheduler/scheduler.go:210-267 | in every interleaving a group with pending messages is queued, timed or worked on, unless since its last activation a dispatch was refused, an activation dropped, it was left at its parallelism, or a message came without activation |
| `SchedulerSafety.NoDropWithFewGroups` | internal/scheduler/scheduler.go:160-166 | with no more groups than channel slots no interleaving ever drops an activation |
| `SchedulerSafety.FullChannelLosesAnActivation` | internal/scheduler/scheduler.go:162-166 | for every capacity, activating one group more than there are slots leaves the last one pending with nobody to look at it |
| `SchedulerSafety.NeverDropsIff` | internal/scheduler/scheduler.go:160-166 | no run over a set of groups drops an activation, if and only if there are no more groups than slots |
| `SchedulerRounds.DrainEndsAllowed` | internal/scheduler/scheduler.go:227-267 | every drain of a sound group ends in a way the machine allows; quiet over pending messages only at the parallelism; a waiting retry and a running lease each ask to be woken in time, and never for a time past |
| `Frames.TakePut` | internal/protocol/codec.go:328-432 | a field that fits its prefix is read back and exactly its bytes are consumed |
| `Frames.RoundTripIffSendable` | internal/protocol/codec.go:197-322 | a frame of any of the twelve types comes back with the rest untouched if and only if its strings are under 64 KiB, its names valid and its body within 16 MiB |
| `Frames.DecodedIsSendable` | internal/protocol/codec.go:197-322 | what the reader returns as itself is within those limits |
| `Frames.ConnectOnWire` | internal/protocol/codec.go:55-63 | type 0x01, then user, password, namespace, API key and token, each behind a two-byte length |
| `Frames.ConnectOKOnWire` | internal/protocol/codec.go:105-107 | type 0x02 and the session id |
| `Frames.ConnectErrOnWire` | internal/protocol/codec.go:109-111 | type 0x03 and the reason |
| `Frames.PublishOnWire` | internal/protocol/codec.go:66-72 | type 0x10, queue, group, and the payload behind a four-byte length |
| `Frames.PublishOKOnWire` | internal/protocol/codec.go:113-118 | type 0x11, message id, and the offset in eight bytes |
| `Frames.SubscribeOnWire` | internal/protocol/codec.go:75-80 | type 0x20, queue and group |
| `Frames.MessageOnWire` | internal/protocol/codec.go:120-128 | type 0x21, id, queue, group, payload, and the attempts in four bytes |
| `Frames.AckOnWire` | internal/protocol/codec.go:83-89 | type 0x30, id, queue and group |
| `Frames.NackOnWire` | internal/protocol/codec.go:92-99 | type 0x31, id, queue, group and reason |
| `Frames.ErrorOnWire` | internal/protocol/codec.go:130-135 | type 0xF0, the code in four bytes and the message |
| `Frames.BackpressureOnWire` | internal/protocol/codec.go:137-142 | type 0xF1, the reason, and the retry time in four bytes |
| `Frames.HeartbeatOnWire` | internal/protocol/codec.go:144-146 | type 0xFF and an empty body |
| `Frames.SubscribeBytes` | internal/protocol/codec.go:148-178 | one frame byte by byte, with numbers most significant byte first |
| `FrameCodec.StreamRoundTrip` | internal/protocol/codec.go:197-322 | any list of sendable frames comes back from its concatenated encodings, consuming exactly their bytes |
| `FrameCodec.TornFrame` | internal/protocol/codec.go:197-218 | a frame cut anywhere is the end of the input |
| `FrameCodec.ByteWriter.Str` | internal/protocol/codec.go:328-333 | appends the length and the string |
| `FrameCodec.ByteWriter.Blob` | internal/protocol/codec.go:335-340 | appends the length and the bytes |
| `FrameCodec.ByteWriter.I32` | internal/protocol/codec.go:354-354 | appends the two's complement of a signed number |
| `FrameCodec.WriteFields` | internal/protocol/codec.go:55-146 | each frame type writes its fields in wire order |
| `FrameCodec.Encoder.Write` | internal/protocol/codec.go:148-178 | the stream grows by exactly the frame's encoding |
| `FrameCodec.CheckIdent` | internal/protocol/codec.go:380-396 | true if and only if the name is 1 to 1024 bytes, all of the allowed set |
| `FrameCodec.ByteReader.Run` | internal/protocol/codec.go:363-375 | a run, or empty; a length without its run is still consumed |
| `FrameCodec.ByteReader.Number` | internal/protocol/codec.go:398-414 | the number, or zero with nothing consumed |
| `FrameCodec.ParseClient` | internal/protocol/codec.go:221-280 | the five client frames from their fields |
| `FrameCodec.ParseBroker` | internal/protocol/codec.go:282-322 | the seven broker frames from their fields, nothing for an unknown type |
| `FrameCodec.Decoder.ReadFrame` | internal/protocol/codec.go:197-322 | the declarative reading of the stream, which is left at the rest |
| `Glob.AcceptsIffMeans` | internal/broker/registry.go:35-68 | reading pattern and name from the front decides the declarative meaning: the name cut into one piece per pattern byte |
| `Glob.LiteralMeansItself` | internal/broker/registry.go:35-68 | a pattern without star and question mark matches itself alone, brackets included |
| `Glob.Match` | internal/broker/registry.go:31-33 | true if and only if the name can be cut to fit the pattern |
| `Glob.MatchRec` | internal/broker/registry.go:35-68 | the loop with its recursion terminates and decides the pattern |
| `Registry.AddAgrees` | internal/broker/registry.go:172-189 | subscribing keeps each connection in each list exactly as often as recorded |
| `Registry.RemoveClears` | internal/broker/registry.go:217-239 | closing takes the connection out of every list and leaves all others as they were |
| `Registry.RunKeeps` | internal/broker/registry.go:172-268 | over every sequential run lists and records agree and no list is empty |
| `Registry.ClosedConnectionIsGone` | internal/broker/registry.go:217-239 | after any run from an empty registry, closing leaves the connection in no list and every other where it stood and as recorded |
| `Subscriptions.SubRegistry.Add` | internal/broker/registry.go:172-189 | exact or pattern list by the group's name, and the record |
| `Subscriptions.SubRegistry.TakeOut` | internal/broker/registry.go:96-114 | the first occurrence goes, the rest keep their order |
| `Subscriptions.SubRegistry.Remove` | internal/broker/registry.go:217-239 | the loop drops every recorded entry, and emptied lists |
| `Subscriptions.SubRegistry.HasAny` | internal/broker/registry.go:193-213 | true if and only if somebody is subscribed by name or by a pattern that means the group, in whatever order patterns come |
| `Subscriptions.SubRegistry.Next` | internal/broker/registry.go:248-268 | a connection if and only if has is true; it is in the current slot of the exact list, else of the first ready pattern in the order given, and only that counter moves |
| `Subscriptions.OrderIsFreeIff` | internal/broker/registry.go:248-268 | which list is taken from does not depend on the order of the patterns, if and only if there is an exact subscriber or at most one pattern has one |
| `Subscriptions.OrderDecides` | internal/broker/registry.go:258-267 | one connection subscribed to `*` and another to `a*`, by names the wire accepts: the order decides which of them gets a message of group `a` |
| `Subscriptions.CallsUseSlots` | internal/broker/registry.go:116-127 | successive calls on an unchanged list use the slots of successive counters |
| `Subscriptions.EachSlotOnceIff` | internal/broker/registry.go:116-127 | n calls on n entries use each slot exactly once if and only if the counter does not wrap meanwhile or n divides 2^64 |
| `Subscriptions.ThreeStutter` | internal/broker/registry.go:116-127 | three entries and the counter at 2^64 - 1: the first is used twice running |
| `KeyIndex.Search` | internal/queue/queue.go:52-54 | the binary search finds how many keys are less |
| `KeyIndex.InsertedSorted` | internal/queue/queue.go:52-66 | insertion keeps the index strictly sorted and adds exactly the key |
| `KeyIndex.GroupKeyIndex.Add` | internal/queue/queue.go:52-66 | the same for the index in place |
| `KeyIndex.PageAfter` | internal/queue/queue.go:68-97 | a page after a cursor is ascending and past it, and every key past the cursor is on it or past the next cursor |
| `KeyIndex.GroupKeyIndex.GetPage` | internal/queue/queue.go:68-97 | the page and the next cursor |
| `KeyIndex.ScanAfter` | internal/queue/queue.go:68-97 | a scan from a cursor with keys added between pages is ascending, and complete for the keys there at the start |
| `KeyIndex.CompletedScanIsFullIff` | internal/queue/queue.go:68-97 | a completed scan returns every key there at the start, each once, if and only if the first cursor is not the empty key of a one-key page |
| `KeyIndex.EmptyKeyEndsTheScan` | internal/queue/queue.go:92-94 | two keys, one empty, one to a page: the scan ends after the first |
| `ShardedQueue.Hash` | internal/queue/hash.go:7-14 | the loop computes the FNV-1a hash of the whole key |
| `ShardedQueue.HashValues` | internal/queue/hash.go:7-14 | the published FNV-1a values of the empty key, of a and of foobar |
| `ShardedQueue.LookupIsFlat` | internal/queue/queue.go:447-463 | looking in a key's shard is looking in one map of all groups |
| `ShardedQueue.StoreIsFlat` | internal/queue/queue.go:472-494 | storing in a key's shard is storing in that map |
| `ShardedQueue.UnionIsFlat` | internal/queue/queue.go:831-848 | going through the shards meets every group exactly once |
| `ShardedQueue.ImportAgreesIff` | internal/queue/queue.go:850-877 | after an import the index lists exactly the groups if and only if every earlier group is among those imported |
| `ShardedQueue.ImportHidesAGroup` | internal/queue/queue.go:850-877 | a group that is there and an import that names only another: the group stays and is not listed |
| `ShardedQueue.ImportIntoEmptyIsListed` | internal/broker/recovery.go:160-160 | an import into a queue without groups, as recovery makes it, lists all |
| `ShardedQueue.SortedIffDistinct` | internal/queue/queue.go:873-875 | the sorted keys are strictly ascending if and only if none was imported twice |
| `ShardedQueue.Queue.constructor` | internal/queue/queue.go:227-240 | no groups, and an index that says so |
| `ShardedQueue.Queue.Get` | internal/queue/queue.go:447-463 | the group of the key, if there is one |
| `ShardedQueue.Queue.Put` | internal/queue/queue.go:472-498 | the one map updated, a new key listed, index and groups still agreeing |
| `ShardedQueue.Queue.Export` | internal/queue/queue.go:831-848 | the loop over the shards returns the one map |
| `ShardedQueue.Queue.Import` | internal/queue/queue.go:850-877 | the groups laid over the map, the index the imported keys in order; a proper index exactly when no key came twice, and then in agreement exactly when no earlier group is left out |
| `ShardedQueue.Queue.GetPageStats` | internal/queue/queue.go:365-393 | the groups of one page of the index in its order, none of its keys without a group, with the limit that applies |

## Left out

- HTTP interface, command line, configuration files, logging, metrics and the SQLite store: plumbing around the core.
- Authentication, authorization, tokens and TLS: policy with shallow control flow.
- The snapshot body format and its import into groups: the same shape as the record codec; only the cut is modelled.
- The global message and credit counters of the broker: their balance depends on client behaviour.
- Liveness of dispatch: a refused dispatch is not re-armed, so only coverage is stated, with its excuses.
- Configuration lookup by path pattern and changes of configuration while a group runs: a group's configuration is constant here.
- The index files themselves, and reading them back: only the offsets written to them.
- Distinguishing the two end-of-file errors of a reader: both are the end of the input.
- heap.Init on import of a group's state.
- Aliasing of messages and lists: messages and subscriber lists are values, each held in one place.
- Ticks skipped by a slow ticker: each tick begins its number of tick lengths after the start, up to the stated slack.
- Activation of a group that does not exist, and deletion of a queue while its groups are scheduled.
- ConsumerGroup.Group.constructor: takes a limiter of at least one event, with none the source fails at its first look, and attempts that are not negative.
- ConsumerGroup.Group.Publish: takes a message with an id the group does not hold, as generated ids are.
- Subscriptions.EachSlotOnceIff: for lists of at most 2^64 entries, which every list is.
- Registry.RunKeeps: states sequential runs; a list emptied by one connection while another adds to it is not modelled.
- RecoveryOutcome.AcknowledgedPublishIsRecovered: recovery from the log alone, with different message ids; what a snapshot of an earlier writer skips is SnapshotHidesTheNextWriter.
- SnapshotCut.CutIsExact: while sequence numbers stay below 2^64, as the other lemmas about the cut.
- Reopen.ReopenIsSafeIffNotTorn: a torn record numbered 1 like its successor is told apart by an earlier, positive time.
