# The block layer behind node-lkl, in Dafny

node-lkl gives Node.js programs the file systems of a Linux kernel that is built as a library. This
project models the parts of that repository where the state is hardest to follow, and proves what they
promise for every input, every run or every interleaving:

- the FLUSH/FUA sequencer (`flush.dfy`, `flush-durability.dfy`, `flush-outcome.dfy`): when may a request
  that asks for durability be reported as done, and when has it to be;
- counting and mapping memory segments of requests that grow by merging (`segments.dfy`,
  `scatterlist.dfy`, `request-merge.dfy`, `recount.dfy`), and splitting bios to a queue's limits
  (`bio-split.dfy`);
- the bad-block table (`badblocks.dfy`, `badblocks-flags.dfy`, `badblocks-table.dfy`,
  `badblocks-packing.dfy`);
- the deadline scheduler (`deadline.dfy`, `deadline-service.dfy`, `deadline-order.dfy`);
- the weight tree of CFQ groups (`group-weights.dfy`, `group-shares.dfy`, `group-proportions.dfy`);
- chained bios (`bio-chain.dfy`, `bio-errors.dfy`) and partial completion of requests
  (`request-completion.dfy`);
- the elevator's merge index (`elevator-hash.dfy`, `elevator-merging.dfy`);
- discarding (`discard.dfy`, `discard-chain.dfy`);
- the calls between the JavaScript thread, the worker thread and the kernel's threads (`loop-call.dfy`,
  `worker-queue.dfy`).

`arithmetic.dfy`, `lists.dfy` and `options.dfy` hold what several of them share. `dafny verify
dfyconfig.toml` checks everything.

Each part that the source changes in place has the same shape: pure functions say what an operation
does to a state, lemmas prove what these functions keep and promise over whole runs, and a class with
the source's fields and loops is proved to do what the functions say. Where several threads or a device
take part, a run is a sequence of atomic events in any order that the callers' obligations allow.

Some promises turned out not to hold of the code as it is. They are stated with a concrete input and the
exact condition under which they do hold:

- `badblocks_set` may forget sectors it was asked to record (`SetCanLoseSectors`; exactly when:
  `SetIsExact`), and when the table is full it may forget old ones (`FullSetForgets`; exactly when:
  `FailedSetKeepsOld`); it may also acknowledge sectors outside the range it records, or leave sectors within
  it acknowledged (`SpillAcknowledges`, `PassedOverStaysAcknowledged`; exactly when: `SetFlagsAreFair`);
- `blk_recount_segments` followed by `ll_merge_requests_fn`, taken by themselves, may count fewer segments
  than the scatterlist needs when the queue does not merge and no sizes are recorded
  (`UnsizedBiosUndercount`; exactly when: `RecountUndercountsFront`, `RecountUndercountsBack`); on
  the submission paths `blk_queue_split` comes first and leaves right counters with every bio that may still
  merge (`UnsplitBioIsCounted`), a piece that was split off being marked not to;
- a bio that is not in whole sectors may be cut into nothing or into everything
  (`PartialSectorsCutNothing`, `PartialSectorsCutAll`; exactly when: `CutIsLegalExactly`), and the front
  piece may exceed a positive maximum size (`LeakingCut`; exactly when: `CutIsSmallExactly`) and always
  exceeds a maximum of zero (`CutRespectsLimits`);
- a request's start sector lags behind the bytes done (`OddReportsLagBehind`; exactly when:
  `SectorIsExact`);
- with writes_starved at 0 the deadline scheduler may never serve an expired read (`StarvingRun`), while
  from 1 on it does (`OverdueIsServed`);
- a discard of whole logical blocks may be cut inside a block (`BlockSplitBy`; exactly when:
  `BlocksKeptExactly`).

## Model

| member | source | states |
|---|---|---|
| `FlushDurability.RunsAreDurable` | src/linux/block/blk-flush.c:167-379 | In every run, data of a PREFLUSH request is dispatched only after a flush that was issued after its insertion has completed without error; a request that went through the sequencer completes without error only after such a flush; one with data and POSTFLUSH only after a flush issued after its own data finished. "After" is by positions in the log, not by the code's state. |
| `FlushDurability.RequestScript` | src/linux/block/blk-flush.c:167-477 | For every inserted request, at any point of any run, its own events are exactly the script its policy prescribes: steps in order, data dispatched at most once, completed exactly once if it is no longer linked anywhere. |
| `FlushDurability.NothingStalls` | src/linux/block/blk-flush.c:221-338 | In every reachable state pending_idx differs from running_idx exactly while one flush is outstanding; then the running queue is not empty, otherwise the other queue is; waiting requests without an outstanding flush imply data in flight, so with neither nothing is waiting. |
| `FlushDurability.CompletionsBounded` | src/linux/block/blk-flush.c:221-379 | Every run has at most four completion events per inserted request, so the sequencer cannot loop through flushes forever. |
| `FlushDurability.PolicyStays` | src/linux/block/blk-flush.c:413-418 | The policy a request is treated by is the one computed from its flags when it was inserted, for the rest of the run. |
| `FlushDurability.RunInv` | src/linux/block/blk-flush.c:167-477 | The invariant over queues, index bits, steps and log holds in every state of every run. |
| `FlushDurability.FlushEndKeeps` | src/linux/block/blk-flush.c:221-275 | flush_end_io keeps the invariant although its walk may issue the next flush, and may put the visited request at the tail of the very queue it walks. |
| `FlushDurability.VisitKeeps` | src/linux/block/blk-flush.c:250-255 | One visit of the walk keeps the invariant of a walk in progress. |
| `FlushDurability.DataEndKeeps` | src/linux/block/blk-flush.c:340-379 | The end of a request's data keeps the invariant, on success and on error. |
| `FlushDurability.InsertKeeps` | src/linux/block/blk-flush.c:413-477 | Insertion keeps the invariant for every policy, including requests that need nothing and requests that only carry data. |
| `FlushDurability.KickKeeps` | src/linux/block/blk-flush.c:291-338 | blk_kick_flush keeps the invariant, and a flush it issues serves exactly the requests that were pending. |
| `FlushDurability.RankPositions` | src/linux/block/blk-flush.c:201-338 | The running count used in the invariant (happened, flush issued since, flush completed since) means what the positions in the log say. |
| `FlushDurability.DurableByFlags` | src/linux/block/blk-flush.c:8-25 | The same in the submitter's terms, from the request's flags and the device's capabilities: what waits for which flush, and what waits for none. |
| `FlushOutcome.FailuresHaveCause` | src/linux/block/blk-flush.c:167-379 | In every run, by positions in the log: a request is reported as failed only if its own data failed before, or a flush failed before that was issued after everything that had happened to the request. |
| `FlushOutcome.FlushTellsWaiters` | src/linux/block/blk-flush.c:221-275 | In every run, when a flush ends each request it served is told in the same operation: after a failure it is reported as failed; after a success its data is dispatched if that is still to come, otherwise it is reported as done or waits for its POSTFLUSH. Nobody else is told anything, and nobody is told another outcome. |
| `FlushOutcome.InsertTells` | src/linux/block/blk-flush.c:413-477 | By the submitter's and the device's flags, exactly when an insertion passes the request on, reports it, dispatches its data, or makes it wait. |
| `FlushOutcome.DataTells` | src/linux/block/blk-flush.c:340-379 | When the data ends the request is reported with the data's outcome, exactly unless it succeeded and the flags ask for a flush behind the data; then it waits. |
| `FlushOutcome.FlushesWait` | src/linux/block/blk-flush.c:291-338 | In every run a flush is issued only when none is in flight, and when all dispatched data is done or else the timeout has passed. |
| `FlushOutcome.RunHeldBack` | src/linux/block/blk-flush.c:291-338 | In every state of every run, if requests are pending without a flush in flight, then data is in flight and the timeout had not passed when a step of a sequence last ended. |
| `FlushSequencer.VisitQueue` | src/linux/block/blk-flush.c:250-255 | A visit takes the first request off the walked queue or moves it to the tail, and a weight decreases, so the walk ends. |
| `FlushSequencer.CompleteSeqLists` | src/linux/block/blk-flush.c:167-219 | blk_flush_complete_seq unlinks the request from both queues and appends it to the pending one exactly when its next step is a flush. |
| `FlushSequencer.FlushQueue.constructor` | src/linux/block/blk-flush.c:533-561 | A new flush queue is empty. |
| `FlushSequencer.FlushQueue.KickFlush` | src/linux/block/blk-flush.c:291-338 | The in-place update is the specified one, and reports whether a flush was issued. |
| `FlushSequencer.FlushQueue.CompleteStep` | src/linux/block/blk-flush.c:167-219 | The in-place update is the specified one, and reports exactly whether data or a flush was given to the device. |
| `FlushSequencer.FlushQueue.Insert` | src/linux/block/blk-flush.c:413-477 | The in-place update is the specified one. |
| `FlushSequencer.FlushQueue.DataEnd` | src/linux/block/blk-flush.c:340-379 | The in-place update is the specified one. |
| `FlushSequencer.FlushQueue.FlushEnd` | src/linux/block/blk-flush.c:221-275 | The loop over the running queue, with its saved next pointer, does what the specified walk does. |
| `FlushSequencer.FlushQueue.PlaceRequest` | src/linux/block/blk-flush.c:179-215 | The request is in exactly the list its next step says. |
| `Segments.GreedyIsMinimal` | src/linux/block/blk-merge.c:227-295 | Of all ways to group the vectors of a bio list into legal segments, the greedy one has the fewest. |
| `Segments.StaysAhead` | src/linux/block/blk-merge.c:244-282 | From any point on, greedy opens no more segments than any legal grouping, or one more while its own segment is longer. |
| `Segments.CountedConcat` | src/linux/block/blk-merge.c:495-519 | A counter that over-approximates two parts over-approximates their concatenation when added: what makes additive merging sound. |
| `Segments.CountedJoin` | src/linux/block/blk-merge.c:579-621 | Taking one off when the last segment of the first part and the first of the second touch and fit together is sound, with the sizes that are recorded then. |
| `Scatterlist.MapSg` | src/linux/block/blk-merge.c:362-444 | The mapping loop makes exactly one entry per greedy segment, the entries describe the same bytes in the same order, and each is a single vector or lies within the segment size and, if no vector is empty, within one boundary window. |
| `Scatterlist.RecalcSegments` | src/linux/block/blk-merge.c:227-295 | The recount is the greedy count, hence equal to the number of entries mapped, or one per vector when merging is off; the recorded sizes become the largest of what was recorded and the first and last segment, in both modes. |
| `Scatterlist.RecountIsCounted` | src/linux/block/blk-merge.c:283-294 | What the recount records is a sound over-approximation for later merges. |
| `Scatterlist.MapBio` | src/linux/block/blk-merge.c:438-441 | Mapping the vectors of one more bio continues the entries of the bios before it. |
| `Scatterlist.RecountBio` | src/linux/block/blk-merge.c:254-287 | Counting the vectors of one more bio continues the count of the bios before it. |
| `RequestMerging.CounterBoundsScatterlist` | src/linux/block/blk-merge.c:495-621 | For a request built by any tree of front, back and request merges, with refused request merges in between, nr_phys_segments is at least the number of scatterlist entries. |
| `RequestMerging.BuiltIsCounted` | src/linux/block/blk-merge.c:495-621 | The invariant behind it, including the sizes of the outer segments that decide whether one is taken off, and that a refused merge of two requests has already changed. |
| `RequestMerging.Request.constructor` | src/linux/block/blk-core.c:2939-2952 | A request starts with the count of its one bio, and is valid if that bio is rightly counted, without gaps and within the limit. |
| `RequestMerging.Request.BackMerge` | src/linux/block/blk-merge.c:495-542 | A back merge of any bio happens if and only if the gap, sector and segment limits allow it; then it appends the bio and adds the counts; a refused one changes nothing but the no-merge mark, which it sets unless a gap was the reason; a rightly counted bio keeps the request valid. |
| `RequestMerging.Request.FrontMerge` | src/linux/block/blk-merge.c:544-566 | The same for a front merge, which also moves the start. |
| `RequestMerging.Request.Map` | src/linux/block/blk-merge.c:450-492 | Mapping a request never makes more entries than nr_phys_segments, nor than the queue allows, so the warning at the end is silent. |
| `Recounting.RecountIsSound` | src/linux/block/blk-merge.c:306-328 | The recount of a single bio establishes the invariant that merging keeps if and only if it really groups, or the recorded sizes already cover the outer vectors. |
| `Recounting.RecountUndercountsFront` | src/linux/block/blk-merge.c:306-328 | For every bio: some rightly counted request in front of it makes the merge of the two count fewer segments than the scatterlist has, if and only if the recount took the vector count, the queue clusters, no two vectors of the bio join, and in front of its first vector, in the same boundary window, there is room for the fewest bytes that do not fit into a segment with that vector although they fit with the recorded front size. |
| `Recounting.RecountUndercountsBack` | src/linux/block/blk-merge.c:306-328 | The same, if and only if, for a request behind the bio, its last vector and the recorded back size. |
| `Recounting.SeamTooLong` | src/linux/block/blk-merge.c:330-362 | If nothing can be saved at a seam that touches in memory, the two segments at the seam together exceed the segment size, in every legal grouping of both sides. |
| `Recounting.UnsizedBiosUndercount` | src/linux/block/blk-merge.c:306-328 | Two bios without recorded sizes that are recounted by vectors and then merged as requests count one segment too few: concrete input of the two functions. |
| `Recounting.VectorCountIsCounted` | src/linux/block/blk-merge.c:255-261 | One segment per vector is a sound count exactly when the recorded sizes cover the outer vectors. |
| `BioSplitting.CutRespectsLimits` | src/linux/block/blk-merge.c:85-189 | For every bio the front piece, or the whole bio without a cut, is within the vector, gap and segment limits, and its count bounds its segments; for one in whole sectors the cut is also strictly inside, within the maximum size exactly if that is not zero, and without a cut the recorded sizes are exact. |
| `BioSplitting.SplitAllIsFaithful` | src/linux/block/blk-merge.c:191-225 | Repeated splitting ends; the pieces concatenate to the original bytes, follow each other sector by sector, and those submitted respect the vector, gap and segment limits; of a bio in whole sectors no cut is refused and every piece also respects the size limit computed at its own start. |
| `BioSplitting.SplitKeepsBytes` | src/linux/block/bio.c:1781-1809 | Front piece and rest describe the bytes of the whole, wherever the cut is. |
| `BioSplitting.UnsplitBioIsCounted` | src/linux/block/blk-merge.c:166-189 | A bio that is not split leaves with counters every later merge may rely on. |
| `BioSplitting.PartialSectorsCutNothing` | src/linux/block/blk-merge.c:118-160 | With vectors that are not whole sectors the scan can ask for an empty front piece, which bio_split refuses: concrete input. |
| `BioSplitting.PartialSectorsCutAll` | src/linux/block/blk-merge.c:118-160 | It can also ask for a front piece of all sectors, which bio_split refuses too: concrete input. |
| `BioSplitting.CutIsLegalExactly` | src/linux/block/blk-merge.c:85-189 | For every list of vectors: on all queues and for all maximum sizes the cut is one that bio_split accepts, if and only if there is one vector, or the first vector has a sector and the sectors counted vector by vector up to the last possible cut are fewer than the bio has. |
| `BioSplitting.CutIsSmallExactly` | src/linux/block/blk-merge.c:118-160 | For every list of vectors: on all queues and for all positive maximum sizes the front piece stays within the maximum, if and only if no vector of two sectors or more continues, in memory, vectors too short to have been counted. |
| `BioSplitting.CutOutcome` | src/linux/block/blk-merge.c:85-189 | The scan cuts behind a vector only if the next one is one too many, leaves a gap, needs a segment too many, or is too long with no room for a part of it; within a vector only where the maximum size is reached; and otherwise not at all; with the sectors, segments and sizes it reports in each case. |
| `BioSplitting.PiecesStayInChunks` | src/linux/include/linux/blkdev.h:898-906 | On a device with chunks no piece of a bio in whole sectors crosses a chunk, unless the chunk has no room for a block. |
| `BioSplitting.MaxIoIsLargest` | src/linux/block/blk-merge.c:73-83 | The maximum size is whole blocks, as many as fit into max_sectors or up to the end of the chunk, and ends in the chunk it starts in. |
| `BioSplitting.SegmentSplit` | src/linux/block/blk-merge.c:85-189 | The scanning loop finds the specified cut. |
| `BioSplitting.SubmitPieces` | src/linux/block/blk-merge.c:191-225 | The loop of splitting and resubmitting produces the specified pieces. |
| `BadBlockRanges.SetIsExact` | src/linux/block/badblocks.c:171-322 | While the table has room, badblocks_set leaves a well-formed table of exactly the old and the new bad sectors if and only if the ranges next to the new one satisfy a condition read off the table beforehand. |
| `BadBlockRanges.SetCanLoseSectors` | src/linux/block/badblocks.c:273-290 | It is not exact for every range: concrete table and range after which a sector just recorded is not bad. |
| `BadBlockRanges.PlainRangeIsMergeable` | src/linux/block/badblocks.c:171-322 | The condition holds for every range of at most 512 sectors that overlaps no range starting after it. |
| `BadBlockRanges.FailedSetKeepsOld` | src/linux/block/badblocks.c:291-322 | A set that fails because the table is full keeps all sectors that were bad, if and only if it did not merge with a later range that reaches beyond the room there was: a condition on the old table and the arguments. |
| `BadBlockRanges.FullSetForgets` | src/linux/block/badblocks.c:243-322 | A full table and a range next to its first entry, after which a bad sector is no longer bad: concrete input. |
| `BadBlockRanges.FailedSetIsSorted` | src/linux/block/badblocks.c:291-322 | A set that fails leaves a sorted table of disjoint ranges, if and only if it put in at most one range and the range it stretched does not run into the next one. |
| `BadBlockRanges.SetOfNothing` | src/linux/block/badblocks.c:171-322 | A set of no sectors does not fail and changes no sector. |
| `BadBlockFlags.SetFlagsAreFair` | src/linux/block/badblocks.c:211-312 | For every table and range that is recorded exactly: the flags are fair, if and only if the tail of a long later range that is recorded anew was not flagged otherwise, and no acknowledged later range within an unacknowledged addition is passed over. Fair: an acknowledged range has only sectors that were acknowledged or are now, none of an unacknowledged addition unless it was full before, and an unacknowledged one has a sector that is not acknowledged. |
| `BadBlockFlags.FairSectors` | src/linux/block/badblocks.c:211-312 | What fair flags mean for a sector: outside the addition it is acknowledged only if it was; in an unacknowledged addition it is not, unless a full acknowledged range held it; it loses its acknowledgement only by sharing a range with a sector that has none. |
| `BadBlockFlags.SpillAcknowledges` | src/linux/block/badblocks.c:243-312 | An acknowledged addition before a long unacknowledged range acknowledges that range's last sectors: concrete input. |
| `BadBlockFlags.PassedOverStaysAcknowledged` | src/linux/block/badblocks.c:273-290 | An unacknowledged addition that combines with a short range passes over the acknowledged range behind it: concrete input. |
| `BadBlockTable.ClearCovers` | src/linux/block/badblocks.c:339-431 | Clearing removes exactly the given sectors; every other bad sector stays bad with its acknowledged flag. |
| `BadBlockTable.ClearWellFormed` | src/linux/block/badblocks.c:339-431 | Clearing leaves a sorted table of disjoint ranges. |
| `BadBlockTable.SetAcked` | src/linux/block/badblocks.c:171-322 | Acknowledged ranges and an acknowledged addition leave nothing unacknowledged, however they are merged and cut. |
| `BadBlockTable.UnackedIsReported` | src/linux/block/badblocks.c:61-133 | A range recorded as unacknowledged with fair flags is reported as such by a check, unless a full acknowledged range held its start. |
| `BadBlockTable.BadBlocks.constructor` | src/linux/block/badblocks.c:551-571 | A new table is empty and unchanged, and disabled if asked. |
| `BadBlockTable.BadBlocks.Search` | src/linux/block/badblocks.c:94-106 | The binary search finds the last range that starts before a bound. |
| `BadBlockTable.BadBlocks.Check` | src/linux/block/badblocks.c:61-133 | Binary search and backward walk agree with a scan of the whole table: 0 iff nothing overlaps, -1 iff an overlapping range is unacknowledged, and the range reported is the lowest one that overlaps. |
| `BadBlockTable.BadBlocks.UpdateAcked` | src/linux/block/badblocks.c:136-154 | unacked_exist is cleared exactly when everything is acknowledged. |
| `BadBlockTable.BadBlocks.SetRange` | src/linux/block/badblocks.c:171-322 | The edits of the page in place produce the specified table, error and marks; within the condition above, exactly the union; with fair acknowledged flags exactly under the conditions below. |
| `BadBlockTable.BadBlocks.ClearRange` | src/linux/block/badblocks.c:339-431 | The edits of the page in place remove exactly the range, or fail and change nothing exactly when a range must be split in a full table. |
| `BadBlockTable.BadBlocks.AckAll` | src/linux/block/badblocks.c:441-463 | Unless there are changes to be written first, every range becomes acknowledged and no range moves. |
| `BadBlockTable.BadBlocks.MergeBefore` | src/linux/block/badblocks.c:211-242 | Extending the range before the new one, in place, is the first step of the specified set. |
| `BadBlockTable.BadBlocks.MergeAfter` | src/linux/block/badblocks.c:243-272 | Extending the range after it, in place, is the second step. |
| `BadBlockTable.BadBlocks.CombineAround` | src/linux/block/badblocks.c:273-290 | Joining the two, in place, is the third step. |
| `BadBlockTable.BadBlocks.InsertLeft` | src/linux/block/badblocks.c:291-312 | The loop that records what is left, in ranges of at most 512 sectors, is the last step, and fails exactly when the table fills up. |
| `BadBlockTable.BadBlocks.RecordRange` | src/linux/block/badblocks.c:193-312 | Search and steps together are the specified set. |
| `BadBlockTable.BadBlocks.ClearLast` | src/linux/block/badblocks.c:379-401 | Cutting the range that reaches beyond the end keeps a state from which clearing the rest gives the same table; it fails exactly when a split finds the table full. |
| `BadBlockTable.BadBlocks.ClearUpto` | src/linux/block/badblocks.c:402-423 | The backward loop and the removal finish the specified clearing. |
| `BadBlockTable.BadBlocks.InsertAt` | src/linux/block/badblocks.c:302-310 | Moving the entries up and storing one is an insertion. |
| `BadBlockTable.BadBlocks.CutOut` | src/linux/block/badblocks.c:420-423 | Moving the entries down over a stretch removes exactly that stretch. |
| `BadBlockPacking.PackedRangeReadsBack` | src/linux/include/linux/badblocks.h:10-17 | A 64-bit entry gives back start, length and flag if and only if the start fits 54 bits and the length is 1 to 512. |
| `BadBlockPacking.NonPositiveLengthPacksToTheEnd` | src/linux/include/linux/badblocks.h:10-17 | A length of zero or less becomes an acknowledged entry at the very last start. |
| `DeadlineService.RunInv` | src/linux/block/deadline-iosched.c:76-323 | In every state of every run each direction's sort list and fifo hold the same requests, sorted by sector and by expiry (after merges too); at most one next request is set and it is queued; batch and starvation counters are in range; nothing is dispatched twice. |
| `DeadlineService.OverdueIsServed` | src/linux/block/deadline-iosched.c:241-323 | An expired request at the head of its fifo is dispatched within (writes_starved + 1) * fifo_batch dispatches for a write and, if writes_starved is at least 1, 2 * fifo_batch for a read (a batch of 0 counting as 1), whatever else arrives or merges; if it is merged into requests that expire later, the last of these is dispatched within the same bound. |
| `DeadlineService.SwallowedHeadIsReplaced` | src/linux/block/deadline-iosched.c:159-180 | When the expired head is merged into a request that expires later, that one is the expired head; if both expire at once, the next in the fifo is; the delay that is left does not grow. |
| `DeadlineService.StarvingRun` | src/linux/block/deadline-iosched.c:262-283 | With writes_starved at 0 there is, for every number of dispatches, a run in which they all pass an expired read over. |
| `DeadlineService.DispatchServes` | src/linux/block/deadline-iosched.c:241-323 | Each dispatch serves the overdue request or uses up a part of its remaining delay. |
| `DeadlineService.DrainDispatchesAll` | src/linux/block/elevator.c:577-590 | Forced draining ends with both directions empty, having dispatched each queued request exactly once. |
| `DeadlineService.DelayBound` | src/linux/block/deadline-iosched.c:241-323 | The remaining delay is below those bounds in every reachable state. |
| `DeadlineService.DeadlineData.constructor` | src/linux/block/deadline-iosched.c:338-368 | A new scheduler is empty. |
| `DeadlineService.DeadlineData.AddRequest` | src/linux/block/deadline-iosched.c:98-110 | The in-place update is the specified one and keeps the invariant. |
| `DeadlineService.DeadlineData.MoveRequest` | src/linux/block/deadline-iosched.c:205-218 | The in-place update is the specified one. |
| `DeadlineService.DeadlineData.DispatchRequests` | src/linux/block/deadline-iosched.c:241-323 | The in-place update is the specified one, and returns 0 exactly if nothing was queued. |
| `DeadlineService.DeadlineData.MergedRequest` | src/linux/block/deadline-iosched.c:153-165 | The in-place update is the specified one and keeps the invariant. |
| `DeadlineService.DeadlineData.SwallowRequest` | src/linux/block/deadline-iosched.c:168-187 | The in-place update is the specified one and keeps the invariant. |
| `DeadlineService.DeadlineData.DrainElevator` | src/linux/block/elevator.c:577-590 | The draining loop empties both directions and dispatches what the specification says, in that order. |
| `DeadlineService.ReadsStarve` | src/linux/block/deadline-iosched.c:262-283 | With writes_starved at 0, as long as writes keep coming, every dispatch passes an expired read over, in every such run. |
| `DeadlineOrder.LatterIsNext` | src/linux/block/deadline-iosched.c:60-73 | The next request is the one right behind in sector order, and there is none exactly for the last one. |
| `DeadlineOrder.DispatchGoesUp` | src/linux/block/deadline-iosched.c:199-323 | A dispatch takes the next request while the batch lasts, otherwise the oldest of its direction, or its next request if the oldest has not expired; and it sets the batch to go on with the nearest request at or above the one dispatched, with none queued in between, or with none if none is above. |
| `DeadlineOrder.BatchGoesUp` | src/linux/block/deadline-iosched.c:199-323 | In every run, the next dispatch of a batch takes the request that was nearest above when the one before was dispatched, unless that one was moved or taken away by a merge in between. |
| `DeadlineOrder.BatchNeverGoesDown` | src/linux/block/deadline-iosched.c:81-92 | In every run, whatever arrives or merges in between, two dispatches of one batch do not go down in sectors, as long as no front merge moves the next request. |
| `DeadlineOrder.ReadsArePreferred` | src/linux/block/deadline-iosched.c:262-290 | In every run, with both waiting, a batch of writes begins only after exactly writes_starved batches of reads, and a batch of reads only while fewer have begun since the last batch of writes. |
| `DeadlineOrder.RunExpires` | src/linux/block/deadline-iosched.c:97-112 | In every run, a request expires read_expire or write_expire after it was added, or, if others were merged into it, so long after one of these was. |
| `Deadline.MergedKeeps` | src/linux/block/deadline-iosched.c:168-187 | A request merge, which may move a request to the place of the one it swallows, keeps the invariant and removes exactly the swallowed request. |
| `Deadline.DispatchKeeps` | src/linux/block/deadline-iosched.c:241-323 | A dispatch keeps the invariant through all ways of choosing a request. |
| `Deadline.AddKeeps` | src/linux/block/deadline-iosched.c:98-110 | Adding a request keeps both orders. |
| `Deadline.FrontMergedKeeps` | src/linux/block/deadline-iosched.c:153-165 | Re-sorting after a front merge keeps the invariant. |
| `GroupWeights.RunInv` | src/linux/block/cfq-iosched.c:1302-1447 | In every state of every run of queue arrivals, departures, served groups and weight changes: nr_active is the group's own place on the service tree plus its active children, children_weight its own contribution plus its active children's weights, and shares are in 1..4096 on the tree and 0 while inactive. |
| `GroupWeights.OrderDoesNotMatter` | src/linux/block/cfq-iosched.c:1322-1429 | The counters depend only on which groups have queues: any two histories that end with the same busy groups and weights end with the same counters in every group. |
| `GroupWeights.WarningIsSilent` | src/linux/block/cfq-iosched.c:1413-1415 | A group that has just become inactive has no weight left, at any point of the walk, so the warning cannot trigger. |
| `GroupWeights.ParentLive` | src/linux/block/cfq-iosched.c:1352-1368 | An active group's parent is active and counts it, so every divisor of the walk is positive and at least the dividend's weight. |
| `GroupWeights.ApplyKeeps` | src/linux/block/cfq-iosched.c:1302-1509 | Each operation keeps the invariant. |
| `GroupWeights.ClimbKeeps` | src/linux/block/cfq-iosched.c:1360-1368 | Activation up to the first active ancestor restores the counters of the whole tree. |
| `GroupWeights.RetireKeeps` | src/linux/block/cfq-iosched.c:1410-1424 | Deactivation up to the first ancestor that stays active restores the counters of the whole tree. |
| `GroupWeights.WeightChangesOnActivation` | src/linux/block/cfq-iosched.c:1302-1320 | A pending weight takes effect exactly when its group, not being the root, becomes active, never while the group already counts for its parent; a pending leaf weight when the group itself enters the tree. |
| `GroupWeights.InstalledIsShare` | src/linux/block/cfq-iosched.c:1352-1370 | What is installed as vfraction is the share of the group in the tree it has just joined, or 1 if that rounds to nothing. |
| `GroupShares.SharesNeverExceedOne` | src/linux/block/cfq-iosched.c:1352-1370 | In a hierarchy of any depth, the shares compounded with rounding down at every level add up to at most 4096 over any distinct groups on the service tree. |
| `GroupShares.SharesAddUp` | src/linux/block/cfq-iosched.c:1352-1370 | The same top down, below any active group. |
| `GroupShares.ShareIsEntry` | src/linux/block/cfq-iosched.c:1352-1370 | The leaf-to-root walk of the code computes the share that the top-down view assigns to the group. |
| `GroupShares.ChargeIsFair` | src/linux/block/cfq-iosched.c:970-978 | A smaller share is charged more for the same time, and no group is charged less than the time it used. |
| `GroupShares.CfqData.constructor` | src/linux/block/cfq-iosched.c:1536-1546 | A hierarchy that is set up idle satisfies the invariant. |
| `GroupShares.CfqData.ServiceTreeAdd` | src/linux/block/cfq-iosched.c:1322-1371 | The loop that activates and compounds in one pass produces the specified tree and installs the clamped share of the final tree; the product it divides stays below 2^32. |
| `GroupShares.CfqData.ServiceTreeDel` | src/linux/block/cfq-iosched.c:1398-1429 | The loop produces the specified tree, and the weight it warns about is zero each time. |
| `GroupShares.CfqData.NotifyQueueAdd` | src/linux/block/cfq-iosched.c:1373-1396 | A group enters the tree with its first queue; the invariant is kept. |
| `GroupShares.CfqData.NotifyQueueDel` | src/linux/block/cfq-iosched.c:1431-1447 | A group leaves the tree with its last queue; the invariant is kept. |
| `GroupShares.CfqData.GroupServed` | src/linux/block/cfq-iosched.c:1506-1509 | Leaving, charging by the share that was in force and returning keeps the invariant; the division is defined and the charge is at least the time used. |
| `GroupProportions.ShareIsProportional` | src/linux/block/cfq-iosched.c:1343-1368 | In a hierarchy of any depth, the share is the leaf weight times the weights on the way to the root, over the product of the sums they compete with, to within one unit in 4096 for each division: lower and upper bound. |
| `GroupProportions.InstalledIsProportional` | src/linux/block/cfq-iosched.c:1322-1371 | The same of the fraction that is installed when a group enters the tree, which is never below one unit. |
| `GroupProportions.HeavierGetsNoLess` | src/linux/block/cfq-iosched.c:1352-1368 | Of two groups below one parent that are alike inside, the heavier gets no less. |
| `GroupProportions.ChargeIsInverse` | src/linux/block/cfq-iosched.c:959-978 | Charge times share is the time used, in fixed point, but for the rounding of one division. |
| `GroupProportions.EqualServiceEqualCharge` | src/linux/block/cfq-iosched.c:959-978 | Groups that used the disk in proportion to their shares are charged the same. |
| `BioChain.OwnerCalledOnce` | src/linux/block/bio.c:303-337 | In every run, for every forest of chained bios and every order of reports, the owner of a topmost bio has been called exactly once if every bio in its tree has been reported, and not at all before. |
| `BioChain.ErrorMeansFailure` | src/linux/block/bio.c:303-312 | The error of a bio that ended is non-zero if and only if the I/O of some bio in its tree failed. |
| `BioChain.TreeEndsFirst` | src/linux/block/bio.c:1715-1764 | Every bio in the tree of a bio that ended was reported and ended no later. |
| `BioChain.DoneTreeEnds` | src/linux/block/bio.c:1715-1764 | When all of a tree has been reported, its topmost bio has ended: no count is left over. |
| `BioChain.EndIoKeeps` | src/linux/block/bio.c:1743-1764 | The walk up the parents keeps the invariant, only meets bios that have not ended, and ends. |
| `BioChain.RunInv` | src/linux/block/bio.c:273-337 | In every reachable state __bi_remaining is what a bio still waits for, positive until it ends. |
| `BioChain.Bios.Init` | src/linux/block/bio.c:273-278 | A new bio waits for itself only. |
| `BioChain.Bios.ChainTo` | src/linux/block/bio.c:329-337 | Chaining keeps the invariant. |
| `BioChain.Bios.RemainingDone` | src/linux/block/bio.c:1715-1732 | Counts down a positive counter, and is true exactly for the last report. |
| `BioChain.Bios.EndBio` | src/linux/block/bio.c:1743-1764 | The loop does what the specified walk does. |
| `BioChain.Bios.ReportBio` | src/linux/block/blk-core.c:142-156 | A reported error replaces the bio's, success leaves it; then the bio ends or waits. |
| `BioChain.Bios.constructor` | src/linux/block/bio.c:273-278 | No bios at first. |
| `BioChain.Bios.EndPass` | src/linux/block/bio.c:1745-1763 | One pass counts down, and at zero ends the bio, hands its error to the parent or calls the owner. |
| `BioChain.ErrorHasCause` | src/linux/block/bio.c:303-312 | From a bio with an error there is a way down the chain to one whose own I/O failed. |
| `BioErrors.ErrorWasReported` | src/linux/block/bio.c:303-312 | In every run, the error code that a bio carries, and its owner is told, is one that was reported for the I/O of a bio in its tree. |
| `BioErrors.ErrorsStay` | src/linux/block/bio.c:303-312 | Once a bio carries an error, only a failure of its own I/O replaces it. |
| `RequestCompletion.PlayOne` | src/linux/block/blk-core.c:2596-2611 | After any partial completions, each bio of the request is accounted for once and in its place; it has ended exactly when all its bytes have been reported, and carries an error exactly when it had one or a failed report overlapped its bytes. |
| `RequestCompletion.ConsumeAgain` | src/linux/block/blk-core.c:2596-2611 | Reporting j and then k more bytes is the same as reporting j + k. |
| `RequestCompletion.ConsumeIds` | src/linux/block/blk-core.c:2596-2611 | The bios that end and the bios left are the bios there were, in order. |
| `RequestCompletion.PlayBytes` | src/linux/block/blk-core.c:2596-2626 | The bytes left are the bytes there were less the bytes reported. |
| `RequestCompletion.SectorIsExact` | src/linux/block/blk-core.c:2628-2630 | While bios are left after any reports, the sectors the request has moved and the bytes it has left make up the bytes it had, if and only if every report was of whole sectors; otherwise they are less. |
| `RequestCompletion.CarryIsPlay` | src/linux/block/blk-core.c:2596-2630 | While bios are left, the start sector has moved by the whole sectors of each report. |
| `RequestCompletion.EmptyRequestEnds` | src/linux/block/blk-core.c:2596-2611 | A request of one empty bio ends with the first report, of whatever size, and carries that report's error. |
| `RequestCompletion.OddReportsLagBehind` | src/linux/block/blk-core.c:2628-2630 | Two reports of half a sector on a request of two sectors take off one sector and leave the start sector where it was: concrete input. |
| `RequestCompletion.Request.Update` | src/linux/block/blk-core.c:2539-2651 | The update consumes the specified bios and moves the start sector as specified, __data_len stays the bytes left, and "request botched" is never reached. |
| `RequestCompletion.Request.EndBios` | src/linux/block/blk-core.c:2596-2611 | The loop ends the specified bios. |
| `RequestCompletion.Request.EndBioBytes` | src/linux/block/blk-core.c:142-156 | A bio ends exactly when nothing is left of it, and not at all in a flush sequence. |
| `RequestCompletion.ConsumeOne` | src/linux/block/blk-core.c:2596-2611 | What one report does to the bio at given bytes: whether it ends, its error, and where it is afterwards. |
| `RequestCompletion.ConsumeBytes` | src/linux/block/blk-core.c:2596-2626 | One report takes off its bytes, and whatever it reports beyond the end is ignored. |
| `RequestCompletion.Request.constructor` | src/linux/block/blk-core.c:2939-2952 | A request's length is that of its bios. |
| `ElevatorHash.RunInv` | src/linux/block/elevator.c:245-291 | After every insertion, merge, dispatch and lookup, every hashed request is in the bucket of its current end sector, once, and nothing else is in the buckets; nr_sorted counts the queued requests; the one-hit cache is a queued request. |
| `ElevatorHash.FindIsScan` | src/linux/block/elevator.c:272-291 | The lookup in one bucket finds a request if and only if some hashed, mergeable request ends at the sector, and drops only requests that do not merge. |
| `ElevatorHash.CascadeKeeps` | src/linux/block/elevator.c:480-494 | The cascading insert merge ends, because every round frees a request; it keeps the index right and covers exactly the same sectors. |
| `ElevatorHash.InsertMergedKeeps` | src/linux/block/elevator.c:461-494 | The same with the one-hit cache and the queue's merge settings; the new request is gone exactly if it was merged. |
| `ElevatorHash.MergedCovers` | src/linux/block/blk-merge.c:673-745 | A request merge covers exactly the sectors of the two requests. |
| `ElevatorHash.BackMergedKeeps` | src/linux/block/blk-core.c:1704-1711 | After a bio back merge the request is refiled, also when it swallows its neighbour while still filed under its former end. |
| `ElevatorHash.FrontMergedKeeps` | src/linux/block/blk-core.c:1712-1719 | After a bio front merge nothing needs to be refiled. |
| `ElevatorHash.DispatchedKeeps` | src/linux/block/elevator.c:395-408 | A dispatched request leaves index and cache. |
| `ElevatorHash.ElevatorQueue.constructor` | src/linux/block/elevator.c:153-168 | A new elevator has empty buckets. |
| `ElevatorHash.ElevatorQueue.HashFind` | src/linux/block/elevator.c:272-291 | The walk with deletion does what the specified lookup does, and finds exactly what a scan would. |
| `ElevatorHash.ElevatorQueue.AttemptInsertMerge` | src/linux/block/elevator.c:461-494 | The loop does what the specified cascade does. |
| `ElevatorHash.ElevatorQueue.AddRequest` | src/linux/block/elevator.c:635-660 | Insertion, with or without merging, is the specified one and keeps the invariant. |
| `ElevatorHash.ElevatorQueue.MergeRequests` | src/linux/block/elevator.c:509-526 | Taking over a request is the specified update and keeps the invariant. |
| `ElevatorHash.ElevatorQueue.Reposition` | src/linux/block/elevator.c:266-270 | Unlinking from any bucket and filing anew. |
| `ElevatorHash.ElevatorQueue.BackMerge` | src/linux/block/blk-core.c:1704-1711 | The in-place update is the specified one and keeps the invariant. |
| `ElevatorHash.ElevatorQueue.FrontMerge` | src/linux/block/blk-core.c:1712-1719 | The in-place update is the specified one and keeps the invariant. |
| `ElevatorHash.ElevatorQueue.DispatchAddTail` | src/linux/block/elevator.c:395-408 | The in-place update is the specified one and keeps the invariant. |
| `ElevatorHash.ElevatorQueue.HashDel` | src/linux/block/elevator.c:245-249 | The request is unlinked from whatever bucket it is in. |
| `ElevatorHash.ElevatorQueue.HashAdd` | src/linux/block/elevator.c:257-264 | The request goes to the head of the bucket of its end sector. |
| `ElevatorHash.ElevatorQueue.Absorb` | src/linux/block/blk-merge.c:726-746 | Also on a request that is still filed under its former end, the take-over is the specified one. |
| `ElevatorHash.ApplyKeeps` | src/linux/block/elevator.c:395-526 | Each operation keeps the invariant. |
| `ElevatorHash.RepositionKeeps` | src/linux/block/elevator.c:266-270 | A request that has grown, whatever bucket it was in, is in the right one after repositioning. |
| `ElevatorHash.RunSettled` | src/linux/block/elevator.c:395-660 | In every state of every run each request is in the elevator or on the dispatch list, not both and not twice. |
| `ElevatorMerging.InsertMergesExactly` | src/linux/block/elevator.c:463-495 | When an insertion merges: never with merging off; with the one-hit cache alone, if and only if the cached request can take it; otherwise whenever the cached one can, or unless the request is stuck, that is, nothing in the index ends where it starts or something that does may not be merged with; and only into such a request. |
| `ElevatorMerging.MergesWhenPossible` | src/linux/block/elevator.c:463-495 | If some request of the index ends where the new one starts, and all that do may be merged with, the new one is merged. |
| `ElevatorMerging.CascadeStops` | src/linux/block/elevator.c:483-492 | The loop goes on until it is stuck: what is left ends where the new request ended, starts no later, and cannot be merged further. |
| `ElevatorMerging.RunComplete` | src/linux/block/elevator.c:592-671 | In every state of every run, every queued request that may be merged with is in the index. |
| `ElevatorMerging.RunCovers` | src/linux/block/elevator.c:463-526 | In every run, the requests cover exactly the sectors that insertions and bios brought in, whatever was merged, looked up or dispatched. |
| `ElevatorMerging.BackMergedCovers` | src/linux/block/blk-core.c:1703-1711 | A back merge of a bio adds exactly the bio's sectors behind the request, also when the next request is swallowed. |
| `ElevatorMerging.FrontMergedCovers` | src/linux/block/blk-core.c:1712-1718 | A front merge of a bio adds exactly the bio's sectors in front of the request, also when the request before takes it over. |
| `Discard.IssueDiscard` | src/linux/block/blk-lib.c:25-103 | The error paths, each exactly when its check fails; on success the pieces tile the range, fit 32 bits in bytes and are cut at the device's granularity and alignment. |
| `Discard.IssueLoop` | src/linux/block/blk-lib.c:58-99 | The loop makes progress although it rounds down, since the granularity is at most 2^23 - 1 sectors, and makes the specified pieces. |
| `Discard.PiecesAreSound` | src/linux/block/blk-lib.c:58-99 | The specified pieces tile the range, are cut on the granularity and alignment, have sizes that fit 32 bits, and all but the last are less than a granule short of that. |
| `Discard.BlocksKeptExactly` | src/linux/block/blk-lib.c:54-81 | All cuts of all ranges of whole logical blocks fall on logical blocks, if and only if granularity and alignment do. |
| `Discard.BlockSplitBy` | src/linux/block/blk-lib.c:54-81 | Otherwise there is a range of whole blocks whose first cut is inside a block: constructed for every such device. |
| `Discard.CutsKeepBlocks` | src/linux/block/blk-lib.c:58-99 | With both in whole blocks, every cut is. |
| `Discard.TilesOnce` | src/linux/block/blk-lib.c:58-99 | Pieces that tile a range hold each of its sectors exactly once, and no other. |
| `Discard.DiscardSplit` | src/linux/block/blk-merge.c:14-55 | A split is inside the bio, so bio_split's checks hold, within the device's limit, on the granularity, and less than one granule short of the limit. |
| `Discard.SplitAll` | src/linux/block/blk-merge.c:14-55 | Repeated splitting ends with pieces that tile the bio, are cut on the granularity, respect the limit, and but for the last are less than a granule short of it. |
| `Discard.AlignDownSpec` | src/linux/block/blk-lib.c:73-81 | Rounding down loses less than one granule and lands on the alignment. |
| `DiscardChain.DiscardIsDone` | src/linux/block/blk-lib.c:11-22 | In every run that issues the pieces of a discard through next_bio, with completions in any order: the owner is told once, exactly when every sector of the range was in a piece that has been reported; and it is told of success exactly when every sector was in a piece that did not fail. |
| `DiscardChain.ChainCompletesOnce` | src/linux/block/blk-lib.c:11-22 | The same in terms of the chained bios: one call for the last one, exactly when all have been reported, with an error exactly when one failed. |
| `DiscardChain.RunShape` | src/linux/block/blk-lib.c:11-22 | At any point of issuing, whatever has completed, each bio but the newest is chained to the one after it. |
| `DiscardChain.IssueRun` | src/linux/block/blk-lib.c:11-22 | Runs that issue any number of pieces exist. |
| `LoopCall.CallsRunOnce` | src/async.cc:8-47 | In every interleaving, when run_on_default_loop has returned its function has been run on the loop, no function is run twice, and the loop only works for a caller that still waits, so what it published is still there. |
| `LoopCall.NeverStuck` | src/async.cc:8-47 | While any call is in progress some thread or the loop can take a step. |
| `LoopCall.CallsTakeEightSteps` | src/async.cc:8-47 | Up to any point of any run, the steps taken and the steps that the calls in progress still need make up eight for each call begun, whatever the scheduling. |
| `LoopCall.EachCallTakesEightSteps` | src/async.cc:8-47 | For each single call, from its beginning on: the steps taken for it and the steps it has left are eight, and it has returned exactly when all eight are taken. |
| `LoopCall.ApplyKeeps` | src/async.cc:8-47 | Each atomic step keeps the protocol's invariant. |
| `LoopCall.RunInv` | src/async.cc:8-47 | The invariant holds in every reachable state. |
| `LoopCall.CallsAreAccounted` | src/async.cc:30-47 | No call is lost: each one that was begun has returned or is still in progress. |
| `WorkerQueue.OpsRunInOrder` | lib/queue.js:15-25 | In every interleaving the operations start on the worker in the order they were queued, each once, and end in that order, at most one being in progress. |
| `WorkerQueue.SlotIsNotOverwritten` | src/worker.cc:11-40 | The slot is written only after what it held was read, and the worker reads function and arguments of the same operation. |
| `WorkerQueue.NeverStuck` | src/node_lkl.cc:58-69 | While an operation is not finished, or any thread is in a call to the loop, some step can be taken. |
| `WorkerQueue.ApplyKeeps` | src/worker.cc:11-40 | Each atomic step keeps the invariant of queue, slot, signal and worker together with that of the loop protocol. |
| `WorkerQueue.RunInv` | src/worker.cc:11-40 | The invariant holds in every reachable state. |

## Left out

- The rest of the repository: the JavaScript file-system layer and system-call wrappers, the disk glue, the crypto directory, block integrity, blk-mq tags and timeouts, the other schedulers' heuristics and all of the kernel outside the block directory; thin wrappers or code without a crisp promise.
- FlushDurability.RunsAreDurable: the multi-queue variant of the sequencer (mq_flush_data_end_io, tag borrowing, hctx run-queue kicks) and flush_queue_delayed are not modelled; a flush is issued as soon as the code would hand it to the queue, and a clock reading is a parameter numbered by the log position.
- FlushOutcome.FlushesWait: the timeout counts from flush_pending_since, a moment at which some request began to wait; when the walk of flush_end_io refills the list it walks, that moment may belong to requests served before.
- Segments.GreedyIsMinimal: addresses are page number and offset with unbounded pages; highmem bouncing is not modelled.
- Scatterlist.MapSg: discard and write-same bios, DMA padding and draining, and the chaining of scatterlist arrays are not modelled.
- RequestMerging.Request.BackMerge: the integrity checks, the mixed-merge failfast flags and the I/O priority of the merged request are not modelled.
- Recounting.RecountUndercountsFront: speaks of one merge with a request whose own counters are right and whose vectors hold data; no caller in the tree leaves a bio without recorded sizes before a merge, since blk_queue_split comes first (blk-core.c:1678, blk-mq.c:1284 and 1377), so this is about the two functions and not about a submission path.
- BioSplitting.CutRespectsLimits: vectors of no bytes, integrity payloads and the write-same split are not modelled.
- BadBlockTable.BadBlocks.SetRange: only block size shift 0 (or disabled) and no negative sector count; the sequence lock's retry loop and the text interface are not modelled.
- DeadlineService.OverdueIsServed: jiffies are unbounded integers that do not wrap and tunables do not change during a run; the bound for reads needs writes_starved of at least 1, which DeadlineService.StarvingRun shows to be necessary; writes_starved is the value the unsigned comparison sees (deadline-iosched.c:269), so a negative one written through sysfs (deadline-iosched.c:423) is a number near 2^32 here, and the bound for writes grows accordingly; a head that is merged into a request expiring at the same moment is not followed further, since SwallowedHeadIsReplaced puts the next request in its place.
- DeadlineOrder.BatchGoesUp: a request that arrives between the two dispatches is not considered, as next_rq is not moved by arrivals.
- BadBlockFlags.SetFlagsAreFair: flags of a set that does not record exactly the sectors asked for, or runs out of room, are not described beyond BadBlockTable.SetAcked.
- Deadline.AddKeeps: the red-black tree is a sorted sequence; rebalancing is not modelled.
- GroupWeights.RunInv: groups are not created or removed during a run, children_weight is an unbounded integer, and the ordering of the service tree by vdisktime is not modelled.
- GroupShares.SharesNeverExceedOne: speaks of shares computed from the current weights; an installed vfraction is the share at the moment its group was last put on the tree.
- GroupShares.CfqData.GroupServed: the charge is a parameter; slice accounting and the 64-bit width of the scaled charge are not modelled.
- BioChain.OwnerCalledOnce: a freed bio stays in the state as a record of what happened, and the reference count behind bio_put is not modelled; the callers' side is that a bio is chained before it or its parent ends, not in a circle, and is reported once.
- RequestCompletion.Request.Update: byte counts are unbounded, so the sign of the int total is not modelled; accounting, failfast flags and the recount of segments at the end are left out.
- RequestCompletion.PlayOne: reports of no bytes on a request that has empty bios are covered only for a request of one empty bio (EmptyRequestEnds), the only kind the block layer makes.
- ElevatorHash.RunInv: any hash function into 64 buckets; the conditions of attempt_merge beyond position and mergeability are an arbitrary predicate; requests that are sorted carry at least one sector.
- DiscardChain.DiscardIsDone: the pieces are issued by one call that starts without a bio, as blkdev_issue_discard does; ids are the positions of the pieces.
- Discard.IssueDiscard: sector numbers do not wrap; the logical block size is any positive number of sectors, a power of two in the source.
- LoopCall.CallsRunOnce: libuv's handle is a flag that is cleared before its callback runs; closing the handle and the memory model below atomic steps are not modelled.
- WorkerQueue.OpsRunInOrder: the async library's queue is one slot of concurrency and a list; what an operation does on the worker is any number of calls to the loop followed by the one that ends it.
