# Prescient channels: a verified model

Prescient is a family of hand-written concurrent channels: a bounded byte stream between two processes, a
broadcast ring, single-producer rings and segment chains, competing consumers, leased payload blocks, and a
gathering receiver with recycled shards. This project models each protocol as a step machine and proves what
its documentation promises for every capacity, every number of participants and every interleaving.

## How to read it

* A protocol is a `State`, an `Event`, a total `Step` and a `Run` over any finite sequence of events. One event is
  one load, store, swap or compare-and-swap of one endpoint (or a purely local step), so a run is any
  interleaving. An event that is not enabled leaves the state as it is.
* Fields described as history (`sent`, `taken`, `log`, `at`, ...) are never read by a step; they are what the
  theorems speak about. A `fault` field is set by any access the original calls undefined: reading an empty slot,
  overwriting an occupied one, touching freed memory, an unreachable branch. Theorems show it is never set.
* Each machine has one inductive invariant, one preservation lemma per kind of step, and a section "theorems"
  whose lemmas quantify over all event sequences.
* Safety alone would hold of a machine that does nothing. The files ending in `Progress` prove that calls end and do their
  work: from every reachable state an endpoint left alone (`Alone`, `Again`: that many of its own steps) comes back within a
  bounded number of steps, with a stated outcome. The files ending in `Winding` prove that from every reachable state a
  channel can be joined, used, and wound up to its reported end.
* Code that loops over buffers in place is modelled in place: `Checksum`, `Source`, `Batch`, `Scan.Cursor` and the
  two-span copies of `Ring` are methods and classes proved against specification functions.

| file | models |
|---|---|
| Stream, StreamSafety, StreamSession, StreamFrames | the produce / consume protocol of one stream direction, both forms, sequences of transfers, and which frames an end accepts |
| Arena, ArenaProgress | one descriptor ring with its process event |
| Shape, Frames, Source, Setup | shape arithmetic and layout, frame codec, chunk reading, setup codec |
| Checksum, ChecksumLaws, ChecksumVectors | the payload checksum and aggregate, what they tell apart, known answers |
| Broadcast, BroadcastProgress | the broadcast ring |
| Ring, RingProgress, Batch, Inbox, InboxProgress, Seg, SegProgress | SPSC ring, owned batch, intrusive inbox, segment chain |
| Scan, Dynamic, DynamicSafety, DynamicProgress, DynamicWinding | scan order, competing consumers |
| Leased, LeasedProgress | leased blocks |
| Mpsc, MpscSafety, MpscProgress, MpscWinding | gathering receiver |
| Pool, PoolSafety, PoolWrap, PoolProgress | producer pool |
| Waker, WakerProgress | capacity wakeups |
| Arith, Bytes, Bits, Wrappers, Tally, Custody, Items | remainders, byte strings, words bit by bit, option and result, counting, containers, tagged values |

## Where the code does less than its comments say

* **Futex wakeups.** src/ipc/event.rs:112-131 presents the waiter exchange as the lost-wakeup proof. With a parking
  primitive that remembers wakes it is one. With a futex it is not: a notify that has stored the sequence but not
  yet swapped the waiter flag can consume the registration of a waiter that registers in between, wake nobody, and
  leave it asleep through the next publication (`Arena.FutexLosesAWake`). The loss happens only to a waiter that
  registers inside that window (`Arena.NoLostWake`). Inside it, every state whose observed word is still current can lose
  (`Arena.MidNotifyCanLose`), and one whose word has moved on never sleeps (`Arena.MovedWordStaysAwake`). The sleep is
  bounded by the liveness poll interval.
* **Streams that fill their generations.** `produce_to_end` computes the next chunk's generation before the read that
  finds the end of the source, so it refuses some sources that fit the declared ceiling (`StreamSafety.GenerationGap` gives
  the run). `StreamSafety.Transferable` is the exact condition: `ReceivedAll` and `SentMeansReceived` show that Ok on either
  side implies it, `Completes` that it suffices, `Refused` that without it the producer ends in a refusal.
* **Pool sweeps across a wrapped cursor.** The pool receiver walks its shards by `cursor % len` with a cursor that wraps at
  the machine word. A pass looks at every shard exactly when the number of shards divides the word or the cursor does
  not wrap during the pass (`PoolSafety.SweepComplete`). So `recv` reports the end only after everything was handed over if
  and only if the number of slots divides the word (`PoolWrap.CompleteExactly`), which for a 64-bit cursor means a power of
  two. Otherwise there is a run in which it returns None with a value left behind (`PoolWrap.WrappedSweepStrands`), for
  example with three producers (`PoolWrap.ThreeProducersStrand`). On a 64-bit machine the cursor needs about 2^64 steps to
  get there.

## Model

| member | source | states |
|---|---|---|
| `StreamSafety.PrefixDelivered` | src/ipc/stream.rs:814-907 | at every point of every interleaving the bytes written so far are a prefix of the bytes read |
| `StreamSafety.ReceivedAll` | src/ipc/stream.rs:878-1031 | a consumer that returns Ok wrote exactly the transfer, the source was one the protocol can carry, and no frame is left for it; a source above the ceiling never yields Ok |
| `StreamSafety.SentMeansReceived` | src/ipc/stream.rs:814-995 | a producer that returns Ok has had everything received, and the source was one the protocol can carry; above the ceiling, too short or out of generations it never returns Ok |
| `StreamSafety.BothOk` | src/ipc/stream.rs:857-907 | when both ends return Ok, totals, chunk counts and checksums agree, both descriptor rings are empty and the slots are all there |
| `StreamSession.TransfersCompose` | src/ipc/stream.rs:411-488 | over any sequence of transfers in which every call returns Ok, the bytes written are the bytes given, and the direction is ready for the next |
| `StreamSession.NextTransfer` | src/ipc/stream.rs:411-488 | after any such sequence a transferable stream has a run in which both calls return Ok |
| `StreamSafety.SlotCustody` | src/ipc/stream.rs:827-855 | while a slot is being filled, no unreleased chunk and no chunk being read uses it |
| `StreamSafety.PushNeverWaits` | src/ipc/stream.rs:712-744 | each descriptor ring holds at most `slots` frames, below its capacity |
| `StreamSafety.FramesFit` | src/ipc/stream.rs:533-558 | every DATA, RELEASED and COMPLETE frame exchanged fits the widths of its encoding |
| `StreamSafety.NoDeadlock` | src/ipc/stream.rs:814-907 | producer and consumer are never both blocked before both are finished |
| `StreamSafety.WorkBounds` | src/ipc/stream.rs:814-907 | the remaining-work measure is never negative and is zero exactly at the end |
| `StreamSafety.ProducerProgress` | src/ipc/stream.rs:814-876 | every unblocked successful producer step lowers the measure |
| `StreamSafety.ConsumerProgress` | src/ipc/stream.rs:878-907 | every unblocked successful consumer step lowers the measure |
| `StreamSafety.HealthyRun` | src/ipc/stream.rs:1046-1203 | between honest peers without aborts no frame validation ever fails |
| `StreamSafety.NextStep` | src/ipc/stream.rs:814-1031 | every unfinished state has a step that lowers the measure |
| `StreamSafety.Completes` | src/ipc/stream.rs:814-1031 | from every point of every run without aborts a transferable stream can be completed within the remaining work |
| `StreamSafety.Refused` | src/ipc/stream.rs:910-995 | from every healthy point a stream that is not transferable can be driven to the producer's refusal, with its reason |
| `StreamSafety.GenerationGap` | src/ipc/stream.rs:910-995 | a source within the ceiling and a run without aborts in which produce_to_end refuses it, out of generations |
| `StreamFrames.ExactChunk` | src/ipc/stream.rs:1132-1157 | in a transfer of known length the consumer accepts as chunk k one frame only: its offset, slot, generation and length, and the sum of what the slot holds |
| `StreamFrames.OpenChunk` | src/ipc/stream.rs:1046-1077 | in a transfer of open length it accepts exactly the frames that continue at its total, stay below the ceiling, name the slot and generation due and carry the sum of that many bytes |
| `StreamFrames.HonestChunk` | src/ipc/stream.rs:1046-1157 | with the chunk in its slot, the honest frame is the only one of its length that is accepted |
| `StreamFrames.ReleaseExactly` | src/ipc/stream.rs:1079-1180 | a release is accepted exactly for the chunk that is due, field by field; its checksum is not looked at, nor its offset in a transfer of open length |
| `StreamFrames.CompleteExactly` | src/ipc/stream.rs:1107-1203 | one COMPLETE frame is accepted: the one with the length and the aggregate |
| `StreamFrames.ForgedRefused` | src/ipc/stream.rs:878-907 | in every run, whatever frame is put in front of a consumer that waits for a chunk ends the transfer with nothing more written, unless it is the honest one (or, of open length, another length with a matching sum) |
| `Source.Reader.Read` | src/ipc/stream.rs:1033-1044 | what one read call may do: some bytes, none at the end, an interrupt, an error |
| `Source.ReadChunk` | src/ipc/stream.rs:1033-1044 | succeeds unless a read fails; for any pattern of short reads and interrupts the destination then holds the next bytes of the source, and the rest of it is untouched |
| `Shape.ChunksTile` | src/ipc/stream.rs:1205-1215 | chunk_meta succeeds for every chunk of a valid shape and the chunks tile [0, total) |
| `Shape.GenerationFits` | src/ipc/stream.rs:70-74 | the generation of every chunk is within the number of generations that validation bounds |
| `Shape.SlotGenerationIdentify` | src/ipc/stream.rs:1205-1215 | slot and generation identify one chunk |
| `Shape.LayoutDisjoint` | src/ipc/stream.rs:1245-1274 | in every accepted layout, with or without slots, header, descriptors and payload windows are disjoint, in bounds and aligned |
| `Shape.CapacityCoversSlots` | src/ipc/stream.rs:1276-1282 | descriptor capacity is a power of two, above twice the slots and at most 2^31 |
| `Shape.CapacityAccepted` | src/ipc/stream.rs:1276-1282 | the descriptor capacity is the least power of two from twice the slots and two on, and exists for exactly the slot counts below 2^62 |
| `Shape.LayoutAccepted` | src/ipc/stream.rs:1245-1274 | a layout is accepted exactly when slots and slot length are zero together, the capacity is a power of two from 2 to 2^31, and the payload behind the first free cache line ends within the address space; and it is that layout |
| `Frames.EncodedFields` | src/ipc/stream.rs:545-558 | each field is at its documented offset |
| `Frames.EncodedPreamble` | src/ipc/stream.rs:545-558 | magic, version and kind as literal bytes |
| `Bytes.LEAt` | src/ipc/stream.rs:545-558 | byte i of a little-endian field is the digit of weight 256^i |
| `Frames.DecodeEncode` | src/ipc/stream.rs:544-578 | decoding an encoded frame returns it |
| `Frames.EncodeDecode` | src/ipc/stream.rs:560-578 | only canonical bytes decode: re-encoding gives the same 48 bytes |
| `Checksum.AddToAny` | src/ipc/stream.rs:1327-1389 | a block added to any of the four accumulators adds to their lane-wise total modulo 2^64 |
| `Checksum.AddBlock` | src/ipc/stream.rs:1309-1315 | one 32-byte block mixed into the four lanes, lane by lane |
| `Checksum.TailWords` | src/ipc/stream.rs:1316-1321 | the partial tail words |
| `Checksum.ChecksumScalar` | src/ipc/stream.rs:1301-1323 | the scalar loop computes the specified sum |
| `Checksum.ChecksumAvx2` | src/ipc/stream.rs:1327-1389 | the unrolled four-accumulator loop, its remainder loop and the tail compute the same sum |
| `ChecksumLaws.ScrambleInjective` | src/ipc/stream.rs:1398-1402 | the finalizer loses nothing: different inputs give different results |
| `ChecksumLaws.LaneSeen` | src/ipc/stream.rs:1391-1403 | a change of one lane changes the checksum |
| `ChecksumLaws.SumSeesTail` | src/ipc/stream.rs:1301-1323 | for payloads with the same block lanes the checksums agree exactly when the tail sums do |
| `ChecksumLaws.WordSeen` | src/ipc/stream.rs:1301-1323 | every change inside one aligned word of a payload changes its checksum |
| `ChecksumLaws.ByteSeen` | src/ipc/stream.rs:1301-1323 | so does every change of a single byte |
| `ChecksumLaws.FoldSees` | src/ipc/stream.rs:1405-1408 | the running aggregate tells apart every value of the aggregate before, of the checksum and of the offset |
| `ChecksumLaws.AggregateSees` | src/ipc/stream.rs:1405-1408 | over a whole transfer the aggregate changes with any one chunk's checksum |
| `ChecksumLaws.FoldAnswers` | src/ipc/stream.rs:1405-1408 | what a fold makes of each part alone, as numbers |
| `ChecksumVectors.KnownAnswers` | src/ipc/stream.rs:1301-1403 | the checksums of the empty payload and of one byte, as numbers |
| `Bits.BitXor64` | src/ipc/stream.rs:1391-1403 | exclusive or, bit by bit |
| `Bits.BitRotL` | src/ipc/stream.rs:1391-1403 | rotation, bit by bit |
| `Bits.BitFolded` | src/ipc/stream.rs:1398-1402 | a word exclusive-ored with itself shifted right, bit by bit |
| `Arena.Fifo` | src/ipc/stream.rs:712-770 | the descriptor ring is a bounded FIFO queue and never reads an unwritten descriptor |
| `Arena.RefinesQueue` | src/ipc/stream.rs:712-770 | each step of ring and event is a step of the bounded queue the stream protocol is stated over: nothing, one frame appended below capacity, or the oldest taken |
| `Arena.SameWord` | src/ipc/event.rs:110-123 | cursors less than 2^32 apart have equal low words only if equal |
| `Arena.TailBound` | src/ipc/stream.rs:1250-1256 | a waiting consumer's observed cursor stays within the descriptor capacity of the stored one |
| `Arena.NoLostWake` | src/ipc/event.rs:120-158 | no sleeping consumer is left with a frame waiting and the notify finished, always with latching primitives, with a futex if it registered outside a notify |
| `Arena.MidNotifyCanLose` | src/ipc/event.rs:120-158 | the converse: from every futex state that registers inside a notify with its observed word still current, a continuation loses the wake |
| `Arena.MovedWordStaysAwake` | src/ipc/event.rs:133-150 | the rest of that window: a registration whose observed word has moved on unregisters without sleeping |
| `Arena.FutexLosesAWake` | src/ipc/event.rs:280-326 | such a state is reachable: a run that ends asleep on a non-empty ring |
| `ArenaProgress.PushCompletes` | src/ipc/stream.rs:712-744 | in every run a push left alone while the ring has room publishes its frame and finishes its notify within six steps |
| `ArenaProgress.PopCompletes` | src/ipc/stream.rs:746-770 | in every run, with a frame in the ring and the producer quiet, a consumer anywhere in its pop or wait gets the oldest frame within nine steps, unless it is a futex waiter that registered inside a notify |
| `Setup.DecodeEncode` | src/ipc/setup.rs:73-158 | reading an encoded handle returns it and leaves any trailing input untouched |
| `Setup.EncodeDecode` | src/ipc/setup.rs:39-158 | whatever is accepted is a valid handle and re-encodes to exactly the bytes consumed |
| `Setup.EncodedFields` | src/ipc/setup.rs:12-146 | each field of the frame is at its offset, with the magic, version, kind and flow bytes as literals, and nothing lies between or after |
| `Setup.RegionCanonical` | src/ipc/setup.rs:148-158 | accepted region bytes are canonical and satisfy the locator's bounds |
| `Setup.PayloadCanonical` | src/ipc/setup.rs:88-103 | accepted payload contracts are canonical and valid |
| `Broadcast.GateHolds` | src/mpmc/broadcast/mod.rs:82-114 | every gating cursor is at or above the cached minimum, the write position within one lap of it; no readable slot is overwritten and the lapped branches are dead |
| `Broadcast.ExactRun` | src/mpmc/broadcast/mod.rs:374-441 | each reader gets exactly the contiguous run from its join or resume point |
| `Broadcast.NothingLost` | src/mpmc/broadcast/mod.rs:261-355 | an offered value is installed once, in order, or handed back; batches are fully published between calls |
| `Broadcast.TeardownExact` | src/mpmc/broadcast/mod.rs:67-80 | every value is destroyed exactly once, by overwriting or by the teardown walk |
| `Broadcast.RefusalNeedsReader` | src/mpmc/broadcast/mod.rs:261-289 | try_send hands a value back only after its scan loaded, from a listed reader, a cursor a full lap behind the write position |
| `BroadcastProgress.JoinWindow` | src/mpmc/broadcast/mod.rs:82-91 | a reader that was outside at one point of a run and reads at a later one joined at a publication count between the two, and was handed exactly the values from there on |
| `BroadcastProgress.DrainHandsOver` | src/mpmc/broadcast/mod.rs:374-441 | in every run a reader left alone is handed the next values: one by try_recv, up to the limit by drain, none exactly when it has caught up |
| `BroadcastProgress.JoinCompletes` | src/mpmc/broadcast/mod.rs:82-91 | joining or resuming completes in five steps once the scan lock is free, at the present publication count |
| `BroadcastProgress.SubscribeAsks` | src/mpmc/broadcast/mod.rs:223-252 | subscribe finds a slot whenever one is not owned |
| `BroadcastProgress.LeaveFrees` | src/mpmc/broadcast/mod.rs:526-534 | a reader that leaves stops gating and its slot can be subscribed again |
| `BroadcastProgress.SendAlone` | src/mpmc/broadcast/mod.rs:261-289 | in every run try_send left alone publishes the value exactly when the gate is open or no listed reader is a full lap behind, and otherwise hands it back |
| `Ring.Fifo` | src/backend/ring.rs:123-301 | with stale caches and wrapping counters, values taken are a prefix of values pushed and at most `cap` are inside |
| `Ring.OwnedOnce` | src/backend/ring.rs:317-491 | every value is handed out or destroyed exactly once, for unwinding drains and pushes racing the receiver's drop |
| `Ring.RefusedOnlyWhenFull` | src/backend/ring.rs:145-210 | a push is refused only for an empty request or a ring seen full after a refresh, and otherwise takes as many as fit |
| `Ring.EmptyOnlyWhenEmpty` | src/backend/ring.rs:221-301 | a drain finds nothing only when the reloaded tail shows an empty ring |
| `Ring.RecycleOnlyDrained` | src/backend/ring.rs:422-443 | a ring is reset only when everything was handed out and every slot is empty |
| `Ring.BulkIsSteps` | src/backend/ring.rs:123-301 | in every run, a push of n values leaves the slots as its n single steps do, and a drain of n hands out the next n values pushed and empties exactly their slots |
| `Ring.PushSteps` | src/backend/ring.rs:145-210 | k single steps of a push change exactly the next k slots |
| `Ring.DrainSteps` | src/backend/ring.rs:242-301 | k single steps of a drain hand out the next k values and empty exactly their slots |
| `Ring.WriteAllAt` | src/backend/ring.rs:145-210 | what each slot holds after that many single steps |
| `Ring.CopySpans` | src/backend/ring.rs:145-210 | the two-span copy in place leaves what that many single steps leave (`PushSteps`) |
| `Ring.DrainSpans` | src/backend/ring.rs:242-301 | the two-span drain in place hands out and empties what that many single steps do (`DrainSteps`) |
| `RingProgress.PushCompletes` | src/backend/ring.rs:123-210 | in every run a push left alone ends; it publishes a first part of its items, none exactly when none was offered or the ring is full |
| `RingProgress.PopCompletes` | src/backend/ring.rs:221-301 | in every run a pop or drain left alone ends with the next values, none exactly when none was asked for or the ring is empty |
| `RingProgress.FinishedSeen` | src/backend/ring.rs:441-443 | in every run is_finished answers true exactly when the sender is gone and everything pushed was handed out |
| `RingProgress.TeardownEnds` | src/backend/ring.rs:454-491 | in every run the receiver's drop ends, with every value handed out or destroyed, and the ring is freed if the sender is gone |
| `RingProgress.FreeEnds` | src/backend/ring.rs:471-491 | whichever end goes last, the teardown walk ends |
| `Batch.Batch.constructor` | src/backend/batch.rs:17-22 | a new batch is empty |
| `Batch.Batch.Clear` | src/backend/batch.rs:27-37 | drops exactly the unread values and resets |
| `Batch.Batch.Len` | src/backend/batch.rs:41-43 | the number of unread values |
| `Batch.Batch.PushBack` | src/backend/batch.rs:70-86 | appends behind the unread values |
| `Batch.Batch.PopFront` | src/backend/batch.rs:96-105 | moves the oldest unread value out, or reports none |
| `Batch.Batch.RestoreFront` | src/backend/batch.rs:108-115 | puts a rejected value back in front |
| `Batch.PushFrom` | src/backend/mod.rs:50-63 | moves the longest allowed prefix in order and leaves exactly the rest |
| `Inbox.PushedOnce` | src/backend/ring.rs:530-570 | each push is on the stack, on the walked chain or handed out, once, even when rings are pushed again |
| `Inbox.DetachesAll` | src/backend/ring.rs:556-570 | the swap detaches exactly the stack, newest first, and the walk follows it whatever is pushed meanwhile |
| `InboxProgress.PushLands` | src/backend/ring.rs:530-553 | in every run a push left alone puts its ring on top of the stack within four attempts |
| `InboxProgress.DrainEnds` | src/backend/ring.rs:556-570 | in every run a drain left alone hands out the whole stack, newest first |
| `Seg.Fifo` | src/backend/seg.rs:149-252 | values come out in order; no step touches a freed segment or an uninitialised slot, or frees twice |
| `Seg.OwnedOnce` | src/backend/seg.rs:71-95 | after both ends are gone each value was handed out or destroyed once and every segment was freed |
| `Seg.EmptyIsExact` | src/backend/seg.rs:254-269 | the emptiness test is exact at the load that decides it, whatever the producer did between its loads |
| `Seg.FinishedIsFinal` | src/backend/seg.rs:271-273 | once is_finished answers true nothing is sent or handed out any more |
| `SegProgress.PushCompletes` | src/backend/seg.rs:150-172 | in every run a push left alone is accepted exactly if the consumer is there |
| `SegProgress.PopCompletes` | src/backend/seg.rs:189-252 | in every run a pop or drain left alone hands out all that is there, up to its limit, across segments |
| `SegProgress.AskCompletes` | src/backend/seg.rs:254-273 | in every run is_empty and is_finished left alone answer the truth |
| `SegProgress.TeardownEnds` | src/backend/seg.rs:71-95 | in every run, once both ends have let go, the teardown walk ends with every value accounted for |
| `Scan.Cursor.constructor` | src/mpmc/brokerless/scan.rs:22-27 | a fresh cursor |
| `Scan.Cursor.Next` | src/mpmc/brokerless/scan.rs:32-34 | selects within range and advances |
| `Scan.Cursor.Prefer` | src/mpmc/brokerless/scan.rs:40-44 | rewinds while credit remains, and keeps the credit below the quantum |
| `Scan.BoundedStarvation` | src/mpmc/brokerless/scan.rs:22-44 | from any turn of any run every ring is selected within 16 * (n - 1) + 1 turns, so any 16 * n turns cover all |
| `Scan.HotService` | src/mpmc/brokerless/scan.rs:32-44 | the bound is met: with every drain productive, turn j selects ring (j / 16) mod n |
| `Scan.EachOnce` | src/round_robin.rs:6-18 | n selections without preference visit each index exactly once |
| `DynamicSafety.Settled` | src/mpmc/brokerless/dynamic.rs:191-238 | once `live` is zero every registration has ended, every ring is listed and no sender remains |
| `DynamicSafety.ClaimExclusive` | src/mpmc/brokerless/mod.rs:26-53 | a claim admits one consumer at a time |
| `DynamicSafety.ExactlyOnce` | src/mpmc/brokerless/dynamic.rs:256-417 | every drained value went to one consumer, once, as sent, in each producer's order, and none is dropped from staging |
| `DynamicSafety.NothingStranded` | src/mpmc/brokerless/dynamic.rs:324-377 | recv reports the end only with no sender left; when every consumer was told so, every ring is empty and every value was handed to a caller, though scans skip rings that peers hold |
| `DynamicProgress.CallOutcome` | src/mpmc/brokerless/dynamic.rs:357-377 | in every run a receive begun when nobody can send any more and left alone ends within 14n + 19 steps: with a value when one is staged or lies in a ring no peer holds, and with the end otherwise |
| `DynamicProgress.TryOutcome` | src/mpmc/brokerless/dynamic.rs:260-278 | the same of the non-blocking calls, whenever no registration is under way: a value exactly when one is staged or can be claimed |
| `DynamicProgress.EndsWithin` | src/mpmc/brokerless/dynamic.rs:324-377 | in every run, wherever a call stands once nobody can send, a bounded number of its own steps ends it: with a value, or with the end, for certain if every ring is drained; what it leaves in a ring is a peer's to look at |
| `DynamicWinding.JoinAndPush` | src/mpmc/brokerless/dynamic.rs:211-222 | in every run a live registrar can register a producer while there is room, and the producer can send |
| `DynamicWinding.CanFinish` | src/mpmc/brokerless/dynamic.rs:357-377 | from every reachable state everybody can leave and a consumer can receive until it reports the end; as the only consumer it has then handed over everything sent |
| `Leased.Open` | src/mpmc/brokerless/leased.rs:124-150 | an accepted declaration gives a non-empty pool that its descriptor rings can hold |
| `Leased.OpenAccepted` | src/mpmc/brokerless/leased.rs:124-150 | a declaration is accepted exactly when it has workers on both sides, a positive whole number of batches, and counts that fit a word; the rings get the least power of two that holds the blocks |
| `Leased.Conservation` | src/mpmc/brokerless/leased.rs:218-276 | free list, write lease, forward ring, read leases and lanes hold each block exactly once; no push meets a full ring; a live producer loses no block |
| `Leased.InFlightExact` | src/mpmc/brokerless/leased.rs:387-407 | between calls in_flight is the number of blocks in forward ring, read leases and lanes |
| `Leased.FlushExact` | src/mpmc/brokerless/leased.rs:281-295 | flush returns true exactly when every block is home; false means no consumer is left and the missing blocks are in the forward ring |
| `LeasedProgress.Reservation` | src/mpmc/brokerless/leased.rs:218-264 | in every run a reservation left alone takes the block of the first non-empty lane in turn, else the last free block, and comes back with nothing exactly when no consumer is left or there is no block |
| `LeasedProgress.NoneOnlyFor` | src/mpmc/brokerless/leased.rs:218-244 | among any steps of anybody, try_reserve returns None only if no consumer was left, or the free list is empty and every lane was empty when looked at |
| `LeasedProgress.CommitPublishes` | src/mpmc/brokerless/leased.rs:387-406 | in every run a commit publishes its block behind the others, and hands it back only when no consumer is left |
| `LeasedProgress.ReturnArrives` | src/mpmc/brokerless/leased.rs:493-507 | in every run a read lease let go of reaches its consumer's lane to the producer that owns the block |
| `LeasedProgress.LentAndReturned` | src/mpmc/brokerless/leased.rs:429-507 | in every run taking and letting go moves the oldest published block to the consumer's own lane |
| `LeasedProgress.ReclaimEnds` | src/mpmc/brokerless/leased.rs:268-276 | in every run reclaim ends, having brought home exactly the blocks in the lanes |
| `LeasedProgress.FlushEnds` | src/mpmc/brokerless/leased.rs:281-295 | in every run flush left alone returns true if no block is in the forward ring or with a consumer, false if one is and no consumer is left, and otherwise goes on waiting |
| `MpscSafety.Settled` | src/mpsc/chan.rs:574-587 | once no sender is live every producer has ended and every deposit is counted |
| `MpscSafety.OrderedExactlyOnce` | src/mpsc/chan.rs:972-1080 | received, staged and still in the ring together are what each producer sent, in order, across removal and reset of shards |
| `MpscSafety.EndMeansAll` | src/mpsc/chan.rs:1084-1107 | recv returns None only when no sender is live and shards, inbox and staging are empty; everything sent was handed over |
| `MpscProgress.EndsWithin` | src/mpsc/chan.rs:1084-1107 | in every run a blocking receive under way once nobody can send ends within a bounded number of its own steps: with the next value if one is left, and with the end exactly otherwise |
| `MpscProgress.DrainsAll` | src/mpsc/chan.rs:1044-1107 | from every such resting point, receiving again and again hands over everything that was sent and then reports the end |
| `MpscWinding.JoinAndSend` | src/mpsc/dynamic.rs:145-156 | in every run a live registrar can register a producer, skipping pooled rings still shared, and the producer can send |
| `MpscWinding.CanFinish` | src/mpsc/chan.rs:1084-1107 | from every reachable state everybody can leave and the receiver can report the end, everything sent before having been handed over |
| `PoolSafety.BitMeansSender` | src/mpsc/chan.rs:396-444 | a set bit means its slot holds a sender; claim never meets an empty slot |
| `PoolSafety.OneSender` | src/mpsc/chan.rs:380-394 | a ring never has two senders, wherever they are held |
| `PoolSafety.EpochsApart` | src/mpsc/chan.rs:523-534 | over recv, try_recv and try_recv_many, values never cross from one producer of a ring to the next; a reset or free ring is empty |
| `PoolSafety.SweepComplete` | src/mpsc/chan.rs:1052-1078 | a pass looks at every shard exactly when the cursor does not wrap in it or wraps between shards |
| `PoolSafety.EndMeansAll` | src/mpsc/chan.rs:1084-1107 | None only with no sender live; under that condition on the last sweep, everything sent was handed over |
| `PoolWrap.WrappedSweepStrands` | src/mpsc/chan.rs:1052-1107 | for every number of slots that does not divide the cursor's word, a run in which recv returns None and a value was never handed over |
| `PoolWrap.ThreeProducersStrand` | src/mpsc/pool.rs:36-56 | such a run for three producers and a 64-bit cursor |
| `PoolWrap.CompleteExactly` | src/mpsc/chan.rs:1084-1107 | the end is never reported early, in any run, if and only if the number of slots divides the cursor's word |
| `PoolProgress.ClaimCompletes` | src/mpsc/chan.rs:415-437 | in every run a claim that meets nobody takes the lowest free slot and its sender, and comes back with none exactly if no slot is free |
| `PoolProgress.EndsWithin` | src/mpsc/chan.rs:1084-1107 | in every run a blocking receive under way once nobody can send ends: with the end if nothing is left, and otherwise with a value unless its last sweep wrapped past a shard |
| `PoolProgress.SlotsReturn` | src/mpsc/chan.rs:440-446 | in every run, with nothing left to hand over, one receive whose sweep does not wrap makes every slot whose producer has gone claimable again |
| `Waker.NoLostWake` | src/task_waker.rs:82-112 | a pending send with room or without a receiver, and no notify in progress, has been woken since it armed; otherwise it is armed |
| `Waker.NextNotifyWakes` | src/mpsc/chan.rs:713-744 | from such an armed state the next publication and notify wake the future |
| `WakerProgress.PollCompletes` | src/mpsc/chan.rs:713-862 | in every run a poll left alone ends: it sends as many values as fit, at most its budget, and then is done, has yielded with the task woken, or waits with its waker registered |

## Left out

- Fairness between threads: progress is stated for an endpoint left alone, and as continuations that exist from every reachable state.
- Memory orderings and fences: every machine is sequentially consistent.
- Raw pointers, `MaybeUninit`, `Arc` counts and alignment: replaced by optional slots, places and `fault`.
- The `space_ready` event of a descriptor ring: it is the mirror image of `data_ready`, and `PushNeverWaits` shows it is never waited on.
- Slot indices are taken with `%` by a positive capacity that divides the counter word, which masking by a power of two does.
- Sequence numbers of the broadcast ring and cursors of the descriptor ring are natural numbers (64-bit counters that do not wrap); ring counters and the gathering receiver's cursor do wrap.
- A consumer that starts its next call before the producer has popped the final reply: it finds an empty ring (`StreamSafety.ReceivedAll`) and waits, so `StreamSession` starts both calls together.
- Timeouts, liveness polling, spinning and back-off: an `AbortP`, `AbortC` or `Timeout` event may happen at any point where the code can give up.
- `drain` and `try_drain` of the gathering receiver: they bypass staged values, so order is stated for `recv`, `try_recv` and `try_recv_many`.
- Inner steps of a ring drain inside the competing-consumer and gathering machines: one step that takes any allowed number of values, at least one when there are any, which is what `Ring.EmptyOnlyWhenEmpty` and `Ring.Fifo` justify.
- Consumers that are dropped before their receive reports the end: `DynamicSafety.NothingStranded` speaks of states in which every consumer was told.
- Contents of leased blocks, forgotten leases and allocation limits of `open`: only the places of blocks are modelled.
- The atomic-waker crate: its slot is one atomic step to register and one to wake.
- Wakeups of parked receivers, `src/park`, `src/select`, `src/mpmc/lanes.rs`, `src/mpmc/brokered`: bounded waits and simpler compositions of the same arguments.
- Shared regions, control sockets, role claims and platform events: operating-system calls.
