# Verified model of pg_batch

pg_batch is a columnar executor for PostgreSQL: batches of rows flow through a hash join and
a grouped aggregate, serially or in parallel, in memory or spilled. This project models its
hard logic in Dafny and proves that it computes what its plain definition says: the joins are
the nested-loop equijoin, the aggregate is the per-key fold in input order, spill files are
plain first-in first-out sequences, a compiled expression is its tree, a compressed snapshot
is its table, and a row view never outlives its publication. None of the theorems bounds the
inputs beyond what the program demands of them; the parallel results range over every
interleaving.

`dafny verify dfyconfig.toml` checks everything.

## Main results

- **Serial hash join** (`SerialJoin.HashJoin`). For any inputs, memory limit, plan estimates,
  evictions, key filter, second-level partitioning and row limits, the output batches hold
  exactly the nested-loop pairs that pass the residual conditions, each once.
- **Parallel hash join** (`ParallelJoin.UnspilledJoin`, `ParallelJoin.SpilledJoin`). The build
  is a transition system over every interleaving of its participants. In every reachable
  state each build row is in exactly one place; at the end of an unspilled build the bucket
  chains list exactly the rows with a key and the duplicate flag is exact; granted memory
  never exceeds the limit. From every ready state the output batches of all participants
  hold together exactly the equijoin that passes the residual conditions, with spilling and
  without. No state is stuck, and every schedule gets to a ready state
  (`ParallelProgress.EverySchedulerFinishes`).
- **Grouped aggregate** (`GroupedAggregate.Aggregate.Run`). One exact row per distinct key.
  The outcome is decided by the input: it is a result if and only if no count or sum of a key
  leaves 64 bits on the way (`Aggregation.FoldFailsIff`) and not both a single group fits and
  the two keys that share a hash are spilled together. The error "cannot repartition" is
  therefore unreachable with a limit of two groups or more, and reachable only in that one
  way with a limit of one.
- **Spill storage** (`SpillSet.ReadTwice`). For every interleaving of writes and every buffer
  limit a finished partition reads back as written, and again after a rewind if frozen.
- **Expressions** (`Expressions.FilterEvaluator.ApplyFilter`, `Expressions.JudgeExact`). The
  step chain with two buffers keeps the meaning of the tree, errors included, with SIMD on or
  off; and that meaning is the mathematical one of the int4 functions the tree names.
- **Compressed snapshot** (`CompressedTable.Compress`, `CompressedScan.ReadAll`). Compressing
  and scanning a table gives its rows back in order, filtered exactly; group pruning loses no
  row; and a scan fails exactly for the rows that reach a failing clause.
- **Bridge** (`Bridge.ViewAcceptedIff`). Exactly when a row view is accepted, over any run of
  calls with fewer than 2^64 publications: never after the publication it was made from has
  ended, even if a source publishes a batch again too early. Sources are assumed to leave
  setting generations to the bridge.

## How it is laid out

| modules | what they model |
|---|---|
| `Vectors`, `Sizes`, `Arithmetic`, `Selecting` | borrowed column views, power-of-two sizes, and lemmas the rest shares |
| `Hashing` | PostgreSQL's 32-bit mixers, defined in full, and the hash kernel |
| `JoinPairs`, `Partitions` | the nested-loop join as a multiset of pairs, and how it splits by key |
| `BuildTable`, `TableLookup`, `SharedLookup` | the open-addressed table with duplicate chains, and lookups in it and in the shared chains |
| `BuildSources`, `ProbeOutput` | where build rows come from, and the resumable probe over either source |
| `SpillRouting`, `SerialBuild`, `PartitionReader`, `SerialJoin` | the serial join with spilling |
| `ParallelState`, `ParallelControl`, `ParallelRows`, `ParallelChains`, `ParallelRuns`, `ParallelResults`, `ParallelPartitions`, `ParallelProgress`, `ParallelJoin` | the parallel join: steps, invariants by concern, runs, results, progress, and the output of all participants |
| `Aggregation`, `GroupedAggregate` | the fold of one group, and the aggregate with recursive spilling |
| `SpillFiles`, `SpillSet` | the block format, and writers, eviction and readers |
| `Int4Kernels`, `Expressions` | kernels, the expression compiler and its evaluation |
| `ColumnCodec`, `StorageGroups`, `CompressedTable`, `CompressedScan` | encodings, group metadata, the snapshot and its scan |
| `Bridge` | publications and row views |

Objects the program updates in place are classes whose methods are proved against functions
of their old state; shared state of the parallel join and the bridge is a value with step
functions, so that lemmas can speak of whole runs. A row of a join is an identity with its
non-NULL key; rows with a NULL key are selected but carry no hash, as in the program.

In one step of the parallel build at most one access is to shared memory that somebody else
may still change: each fetch-add, compare-and-swap, chunk
publication and write of a flag or link is a step of its own, and so is each read of a bucket
head, of the spill flag while it can change, and of an input. Where a step of the model
combines several accesses, the others are to data that is final or nobody else's: the elected
participant lays out directory and buckets between two barrier phases, before anyone visits
them (nodes/parallel_hash_join.c:553-587); published rows and the links of pushed rows never
change again, so the link read together with the duplicate flag, and each link of the walk
after it, are constant; and the counts of all partitions, read together while the probe is
partitioned, are final (`ParallelPartitions.CountsFinal`).

## Model

| member | source | states |
|---|---|---|
| `Hashing.MurmurUndone` | nodes/hash_join.c:389-393 | the 32-bit mixer has an inverse, so it is a permutation; this is proved of PostgreSQL's own constants |
| `Hashing.CombineInjective` | nodes/hash_join.c:389-393 | combining hashes is reversible in its second argument |
| `Hashing.LastKeyDetermined` | nodes/hash_join.c:384-403 | for any number of key columns, equal combined hashes together with equal leading keys hold if and only if the whole keys are equal |
| `Hashing.RowHashFixesLastKey` | nodes/hash_join.c:679-694 | skipping the comparison of the last key column is exact when keys are looked up |
| `Hashing.GroupHashCollisions` | nodes/aggregate.c:397-406 | two group keys share all 32 hash bits if and only if they are equal or are NULL and the single value NULL is hashed as |
| `Hashing.HashTwoKeys` | kernels/int4_hash.c:27-65 | the two-column loop marks exactly the selected rows with no NULL key and gives each the hash of its key; hashes of other rows are untouched |
| `Hashing.HashInt4` | kernels/int4_hash.c:67-141 | for any number of columns the result is the same specification, so the fast loop and the general loop agree |
| `Hashing.HashColumn` | kernels/int4_hash.c:90-140 | one pass over a column narrows the valid rows and extends the hash of each of them by that column |
| `JoinPairs.JoinCount` | nodes/hash_join.c:868-928 | the nested-loop join holds each pair as often as both rows occur if the keys are equal, and never otherwise |
| `Partitions.PartsJoinIsJoin` | nodes/hash_join_spill.c:341-468 | splitting both inputs by any function of the key, and dropping probe rows without a match, keeps the join: no pair is lost or met twice |
| `BuildTable.RowsWithKeyExact` | nodes/hash_join.c:405-439 | the specification of a chain: all rows with a key, once each, newest first, and no others |
| `BuildTable.AbsentKey` | nodes/hash_join.c:666-699 | a probe that reaches an empty slot before meeting the key proves that no stored row has it |
| `BuildTable.EmptySlot` | nodes/hash_join.c:373-382 | fewer occupied slots than buckets leave an empty one, which is why building and probing end |
| `BuildTable.BuildStep` | nodes/hash_join.c:413-437 | inserting a row keeps every chain, every probe path and the duplicate flag exact |
| `BuildTable.Table.KeyMatches` | nodes/hash_join.c:384-403 | comparing the hash and all keys but the last decides equality of the whole key |
| `BuildTable.Table.Probe` | nodes/hash_join.c:418-437 | linear probing with wrap-around ends in a slot that is empty or whose head has the key, having passed only heads of other keys |
| `BuildTable.Table.Build` | nodes/hash_join.c:405-439 | after the loop the table is exact for all rows |
| `BuildTable.Table.constructor` | nodes/hash_join.c:405-439 | the finished table: chains, probe paths and has_duplicates are exact, with room for an empty slot |
| `BuildTable.Table.FindHead` | nodes/hash_join.c:666-699 | for every key, the chain from the returned link lists exactly the rows with that key |
| `TableLookup.HeadPairs` | nodes/hash_join.c:717-738 | the chain found for a probe row is its share of the nested loop; no head means no match |
| `TableLookup.FindTableHead` | nodes/hash_join.c:666-699 | the link found for a probe row of a local table leads to all build rows with its key, which is its share of the nested loop |
| `ProbeOutput.UniqueChain` | nodes/hash_join.c:747-772 | without repeated build keys a chain has one row, so the fused loop may stop at the head |
| `ProbeOutput.RowsAreLive` | nodes/hash_join.c:717-738 | the rows that join are the selected ones whose keys were all non-NULL, each as often as it occurs so |
| `ProbeOutput.SurvivingKeepsPairs` | nodes/hash_join.c:910-927 | compacting the lanes after a partial round keeps every pair still to be visited |
| `ProbeOutput.RoundLowersWork` | nodes/hash_join.c:868-928 | every round lowers the work left in the window, also when the output filled up in the middle |
| `ProbeOutput.Executor.LoadProbeWindow` | nodes/hash_join.c:717-738 | opening up to 64 lanes moves pairs from the batch to the lanes and loses none |
| `ProbeOutput.Executor.ProbeUniqueRows` | nodes/hash_join.c:747-772 | the unique path keeps the pairs owed, stops only at a full output or at the end of the batch |
| `ProbeOutput.Executor.ProbeRound` | nodes/hash_join.c:868-928 | a round moves pairs from the lanes to the output, keeps the pairs owed, and makes progress |
| `ProbeOutput.Executor.QualifyOutput` | nodes/hash_join.c:1090-1131 | of the candidates not yet judged exactly those that pass the residual conditions stay; those judged earlier are not touched |
| `ProbeOutput.Executor.Advance` | nodes/hash_join.c:1393-1437 | one turn of the output loop keeps the qualifying pairs owed, stays within the capacity, and makes progress |
| `ProbeOutput.Executor.ProduceOutput` | nodes/hash_join.c:1389-1438 | each call publishes a nonempty batch of at most 64 pairs and at most as many as asked for, from one probe batch, and fewer only when that batch is used up; what was owed before is what is published plus what is owed after; no batch means nothing is owed |
| `ProbeOutput.Run` | nodes/hash_join.c:1389-1459 | over all calls, whatever row limit each asks for, the output batches hold exactly the qualifying nested-loop pairs, each once |
| `ProbeOutput.RunShared` | nodes/hash_join.c:1389-1459 | the same over the shared chains of an unspilled parallel build: windows, partial rounds, capacity and residual conditions give exactly the qualifying pairs of the participant's probe rows with all build rows, each once, in nonempty bounded batches |
| `BuildSources.VisitedPairsMatch` | nodes/hash_join.c:868-928 | visiting exactly the build rows with the key of a probe row, in a local table or in shared chunks, is that row's share of the nested loop |
| `SpillRouting.LinkByPartition` | nodes/hash_join_spill.c:402-442 | rows of a batch are linked by partition in order; rows of resident partitions are set apart in order; each used partition is listed once |
| `SpillRouting.WritePartitions` | nodes/hash_join_spill.c:443-464 | every partition file is extended by exactly its linked rows |
| `SpillRouting.RouteBatch` | nodes/hash_join_spill.c:341-468 | after routing, every file holds in order the rows of its partition from all batches so far |
| `SerialBuild.AddToFilter` | nodes/hash_join_spill.c:59-67 | the key filter never rejects a key that was added |
| `SerialBuild.EvictionPlaces` | nodes/hash_join_spill.c:499-570 | shrinking the resident set moves rows from memory to files and keeps the placement invariant: each build row is in exactly one place |
| `SerialBuild.SpillPartition` | nodes/hash_join_spill.c:508-537 | one pass over the store writes exactly the rows of one partition, in order, in blocks of at most 64 |
| `SerialBuild.Compact` | nodes/hash_join_spill.c:539-569 | compaction keeps exactly the rows of resident partitions, in order, and recounts them |
| `SerialBuild.LargestResident` | nodes/hash_join.c:320-334 | the partition to evict is a resident one with most rows; none means all are empty |
| `SerialBuild.EstimateCovers` | nodes/hash_join_spill.c:660-669 | the memory estimate covers links, values, validity words and buckets of the store that holds the rows |
| `SerialBuild.PartitionCountPow2` | nodes/hash_join_spill.c:671-679 | the number of partitions is a power of two, so a mask of the hash is a partition number |
| `SerialBuild.BuildSide.BeginSpill` | nodes/hash_join_spill.c:681-792 | spilling starts with empty files, a nonempty resident set and a filter that covers all rows stored so far |
| `SerialBuild.BuildSide.SpillBuildStore` | nodes/hash_join_spill.c:499-570 | after a change of the resident set every build row is again in memory or in the file of its partition, and the counters agree |
| `SerialBuild.BuildSide.LimitResidentBuild` | nodes/hash_join.c:312-339 | eviction ends, keeps the placement, and leaves the resident rows within the limit or nothing to evict |
| `SerialBuild.BuildSide.SpillBatch` | nodes/hash_join.c:341-371 | a batch accepted while spilling is placed completely, filter and counters included |
| `SerialBuild.BuildSide.AcceptBatch` | nodes/hash_join.c:464-514 | a batch is accepted whole; spilling starts exactly when the rows stored and the rows selected in the batch would exceed the memory limit, and what stays in memory is within the limit |
| `SerialBuild.BuildSide.DropEmptyPartitions` | nodes/hash_join.c:519-526 | dropping resident partitions without rows keeps the placement |
| `SerialBuild.BuildSide.BuildHashTable` | nodes/hash_join.c:441-549 | after the input ends the build side holds exactly the joinable rows of all batches, in memory and files together, and what is in memory is within the limit |
| `PartitionReader.RepartitionFile` | nodes/hash_join_spill.c:603-657 | rerouting a file by further hash bits puts each row in its subpartition, in order, except skipped ones |
| `PartitionReader.RepartitionKeepsJoin` | nodes/hash_join_spill.c:902-961 | splitting both files of a partition, with probe rows of empty build subpartitions dropped, keeps their join |
| `PartitionReader.LoadRows` | nodes/hash_join_spill.c:814-847 | a build chunk takes the next rows of the file up to its size, carrying the unused part of a block over to the next chunk |
| `PartitionReader.Reader.Repartition` | nodes/hash_join_spill.c:902-961 | a partition that is split owes the same pairs through its subpartitions |
| `PartitionReader.Reader.StartNext` | nodes/hash_join_spill.c:975-1034 | moving on to the next partition or subpartition skips only what owes nothing, and ends only when nothing is owed |
| `PartitionReader.Reader.Fetch` | nodes/hash_join_spill.c:1124-1150 | each probe block met takes its pairs with the chunk in memory out of what is owed; the end of a probe file rescans it for the next chunk |
| `PartitionReader.ReadAll` | nodes/hash_join_spill.c:1124-1150 | reading all spilled partitions to the end meets exactly the joins of the file pairs |
| `SerialJoin.ProbeSide.BufferRow` | nodes/hash_join_spill.c:317-339 | the resident probe buffer of two blocks always has room |
| `SerialJoin.ProbeSide.AcceptBatch` | nodes/hash_join_spill.c:386-463 | a probe batch is split between the resident buffer and the partition files; rows without a possible match are dropped |
| `SerialJoin.ProbeSide.Publish` | nodes/hash_join_spill.c:1054-1082 | a full block of resident probe rows is published, or the rest at the end |
| `SerialJoin.ProbeSide.Finish` | nodes/hash_join_spill.c:1084-1122 | the rows behind the published ones move down and keep their order |
| `SerialJoin.ProbeSide.Fetch` | nodes/hash_join.c:583-621 | partitioning the probe input ends only when the input is read and the buffer is empty |
| `SerialJoin.PartitionProbe` | nodes/hash_join.c:577-626 | the resident rows met while partitioning are exactly the kept probe rows of resident partitions |
| `SerialJoin.FilterDropsUnmatched` | nodes/hash_join_spill.c:362-385 | the key filter and the test for missing build files drop only probe rows without a match |
| `SerialJoin.MemoryAndFiles` | nodes/hash_join_spill.c:341-468 | the join in memory plus the joins of the file pairs is the whole join |
| `SerialJoin.SpilledPasses` | nodes/hash_join.c:577-626 | all passes of a spilled join together owe the join of the inputs |
| `SerialJoin.HashJoin` | nodes/hash_join.c:1389-1459 | the serial join: for any inputs, memory limit, plan estimates, evictions, filter, repartitioning and row limits the output is exactly the nested-loop equijoin filtered by the residual conditions, each pair once |
| `ParallelRuns.MoveKeeps` | nodes/parallel_hash_join.c:785-874 | every atomic step of every participant, every attachment and every release of the barrier keeps the invariant |
| `ParallelRuns.ReachableInv` | nodes/parallel_hash_join.c:785-874 | every state of every interleaving satisfies the invariant |
| `ParallelControl.AdvanceControl` | nodes/parallel_hash_join.c:785-874 | the barrier releases a phase only when every attached participant has arrived, and each goes on where it must |
| `ParallelRows.StepOcc` | nodes/parallel_hash_join.c:372-541 | no step loses or doubles a build row, also when a reservation fails inside a batch or a chunk is spilled later |
| `ParallelRows.CollectCounts` | nodes/parallel_hash_join.c:348-370 | counting rows when a chunk is published or a batch is spilled keeps the counter and the rows on their way in balance |
| `ParallelRows.BucketsFit` | nodes/parallel_hash_join.c:543-551 | the power-of-two bucket array is covered by what the chunks reserved for their rows |
| `ParallelChains.BuildStep` | nodes/parallel_hash_join.c:682-723 | claiming a chunk, linking, the compare-and-swap and the duplicate walk keep all chains acyclic and exact, for every order of pushes |
| `ParallelChains.PushChain` | nodes/parallel_hash_join.c:704-716 | a successful compare-and-swap puts the row in front of the chain that its link names |
| `ParallelResults.EverythingPushed` | nodes/parallel_hash_join.c:682-723 | at ready in an unspilled run every row of every chunk has been pushed |
| `ParallelResults.ChainedOnce` | nodes/parallel_hash_join.c:704-716 | each row is linked from exactly one bucket chain, the one of its hash, exactly once |
| `ParallelRuns.SpilledRows` | nodes/parallel_hash_join.c:589-640 | in a spilled run every build row is in exactly one participant's file, the one of its partition, as often as in the input |
| `ParallelResults.DuplicatesExact` | nodes/parallel_hash_join.c:642-680 | at ready the duplicate flag is set if and only if two build rows share the full key, in every interleaving |
| `ParallelResults.UniqueProbeIsComplete` | nodes/parallel_hash_join.c:994-1004 | with the flag clear no key has two build rows, so the probe that stops at the first match loses none |
| `ParallelResults.ChainHasEveryMatch` | nodes/parallel_hash_join.c:888-949 | the rows with a key on the chain of its bucket are all build rows with that key, each once |
| `ParallelResults.VisitChain` | nodes/parallel_hash_join.c:888-992 | find_head and repeated next visit exactly the rows of the chain with the key, in chain order |
| `ParallelResults.VisitMatches` | nodes/parallel_hash_join.c:888-992 | in a ready run a probe key meets all build rows with that key, each once |
| `SharedLookup.FindSharedHead` | nodes/parallel_hash_join.c:888-949 | the link found for a probe row leads along the shared chain to all build rows with its key, each once |
| `SharedLookup.NextShared` | nodes/parallel_hash_join.c:951-992 | the link after a row leads to exactly the rows after it: no match is skipped or met again |
| `ParallelResults.ReadyIsProbable` | nodes/parallel_hash_join.c:785-874 | every ready state of an unspilled run, in any interleaving, has sound chains that are exact for every key, and a clear flag only if no key repeats |
| `ParallelResults.RowsCounted` | nodes/parallel_hash_join.c:348-370 | after the first barrier the shared row counter is the number of build rows |
| `ParallelResults.MemoryWithinLimit` | nodes/parallel_hash_join.c:372-396 | granted reservations never exceed the shared limit in any interleaving of fetch-adds, and in an unspilled run they cover chunks, directory and bucket array |
| `ParallelState.ChunkLayout` | nodes/parallel_hash_join.c:110-150 | header, hashes, links, validity words and values of a chunk lie in its size without overlap and with nothing to spare |
| `ParallelRuns.PublishedExact` | nodes/parallel_hash_join.c:725-783 | a partition's count is positive if and only if some build row belongs to it |
| `ParallelPartitions.BuildFilesExact` | nodes/parallel_hash_join.c:589-640 | all participants' files of a partition hold together exactly the build rows of the partition |
| `ParallelPartitions.CountsFinal` | nodes/parallel_hash_join.c:725-783 | the build counts read while the probe is partitioned are final and exact |
| `ParallelPartitions.ProbeFilesExact` | nodes/parallel_hash_join.c:725-783 | the probe files hold exactly the probe rows of partitions with build rows |
| `ParallelPartitions.PartitionsOweJoin` | nodes/parallel_hash_join.c:725-783 | the file pairs of all partitions owe together the join of the inputs |
| `ParallelPartitions.LoadLocalChunk` | nodes/parallel_hash_join.c:1085-1101 | a build chunk takes whole blocks, in order, and reports the end only when the file is read |
| `ParallelPartitions.ScanSubpartitions` | nodes/parallel_hash_join.c:1226-1251 | second-level partitions are all visited, and those skipped owe nothing |
| `ParallelPartitions.ProcessPartition` | nodes/parallel_hash_join.c:1159-1350 | over chunks, rewinds and subpartitions the claimer of a partition meets each of its pairs exactly once |
| `ParallelPartitions.ClaimStepKeeps` | nodes/parallel_hash_join.c:1253-1294 | a fetch-add claim, or the passes made over a claimed partition, keep every partition claimed at most once and its pairs met at most once |
| `ParallelPartitions.TakeMove` | nodes/parallel_hash_join.c:1253-1350 | a participant that is not done claims the next partition, or processes the one it holds into passes, and comes closer to the end |
| `ParallelPartitions.WorkOff` | nodes/parallel_hash_join.c:1253-1350 | for every schedule of the participants' moves all of them come to the end with the claims invariant kept |
| `ParallelPartitions.DoneUnion` | nodes/parallel_hash_join.c:1253-1294 | when all participants are done their passes together owe the joins of all file pairs |
| `ParallelPartitions.ClaimedOnce` | nodes/parallel_hash_join.c:1253-1294 | no partition is held by two participants in any interleaving of claims |
| `ParallelJoin.UnspilledJoin` | nodes/parallel_hash_join.c:1296-1317 | the parallel join in memory: from any reachable ready state, and however the probe rows are dealt out, the output batches of all participants hold together exactly the equijoin filtered by the residual conditions, in nonempty bounded batches |
| `ParallelJoin.SpilledJoin` | nodes/parallel_hash_join.c:1253-1350 | the spilled parallel join: from any reachable ready state, for every order of claims, the output batches of all participants hold together exactly the equijoin filtered by the residual conditions, in nonempty bounded batches |
| `ParallelProgress.CanGoOn` | nodes/parallel_hash_join.c:785-874 | no reachable state is stuck: unless everybody attached is ready to probe, someone can act or attach or the barrier can release its phase |
| `ParallelProgress.BuildLowers` | nodes/parallel_hash_join.c:682-723 | every step of the build phase lowers the work left, failed compare-and-swaps and the steps of the duplicate walk included |
| `ParallelProgress.MoveLowers` | nodes/parallel_hash_join.c:785-874 | every move of every run lowers what is left to do, so no run goes on forever |
| `ParallelProgress.EverySchedulerFinishes` | nodes/parallel_hash_join.c:785-874 | whoever chooses the next move, from any reachable state everybody attached is ready after finitely many moves |
| `ParallelProgress.FinishedIsReady` | nodes/parallel_hash_join.c:824-851 | everybody being ready means that all files are complete if the run spilled, and that the table is if it did not |
| `ParallelProgress.SpilledIff` | nodes/parallel_hash_join.c:372-396 | once collecting is over the join has spilled if and only if the plan said so or more memory was asked for than the limit |
| `ParallelProgress.EnoughMemory` | nodes/parallel_hash_join.c:372-396 | a limit of one reservation for each build row keeps every run in memory unless the plan spills |
| `ParallelProgress.ReadyIsReached` | nodes/parallel_hash_join.c:785-874 | both ends are reached: probing from files when planned, and in memory when the plan allows it and the limit is large enough |
| `Aggregation.FoldMeans` | nodes/aggregate.c:344-380 | a fold without overflow counts the rows and counts, sums and finds the extremes of the non-NULL values of each input |
| `Aggregation.FoldFailsIff` | nodes/aggregate.c:269-279 | a fold is refused if and only if after some of its rows a count of rows, a count of values or a sum is outside -2^63 to 2^63-1 |
| `Aggregation.FoldKeyOne` | nodes/aggregate.c:344-380 | a row advances the fold of its own key and of no other |
| `Aggregation.KeyOverflowStays` | nodes/aggregate.c:269-279 | an overflow among the first rows of a key is an overflow of the key |
| `GroupedAggregate.Aggregate.AdvanceRow` | nodes/aggregate.c:432-456 | a row finds its group, makes it, or is set apart for its partition; every key stays on one side, and an error means its fold overflows |
| `GroupedAggregate.Aggregate.AdvanceGroupedBatch` | nodes/aggregate.c:420-472 | after each batch the table and the spill files hold together exactly the rows seen, no key on both sides |
| `GroupedAggregate.LoadSpillGroups` | nodes/aggregate.c:506-541 | a work item is loaded as the folds of exactly its keys; giving up means it really has more keys than the limit |
| `GroupedAggregate.RepartitionSpill` | nodes/aggregate.c:558-616 | rows are split by up to five more hash bits; only nonempty partitions become work, with the shift raised |
| `GroupedAggregate.AllBitsAgree` | nodes/aggregate.c:567-570 | rows that agree on all 32 hash bits have one key, or NULL and the one value it is hashed as |
| `GroupedAggregate.WeightSplit` | nodes/aggregate.c:618-640 | splitting a work item lowers the measure of the queue, so the queue ends |
| `GroupedAggregate.QueueSplit` | nodes/aggregate.c:612-615 | after a split the queue still covers every key once, no key in two items |
| `GroupedAggregate.QueueEmit` | nodes/aggregate.c:629-637 | emitting a loaded item moves its keys from the queue to the output |
| `GroupedAggregate.SkewedKeys` | nodes/aggregate.c:567-570 | reaching the repartition error implies a limit of one group and both colliding keys spilled |
| `GroupedAggregate.Aggregate.FinishGroupInput` | nodes/aggregate.c:642-658 | the table is emitted and every nonempty partition queued: nothing is forgotten |
| `GroupedAggregate.Aggregate.ProcessWork` | nodes/aggregate.c:618-640 | the queue is worked off completely, or an error is raised only for the stated reason |
| `GroupedAggregate.Aggregate.Run` | nodes/aggregate.c:701-735 | for every batch sequence and group limit: one row per distinct key, NULL included, equal to the in-order fold; this happens if and only if no count or sum of a key leaves 64 bits on the way and not (limit one and both colliding keys spill), so with a limit of two or more the repartition error is unreachable |
| `SpillFiles.BlockBytesExact` | spill/spill.c:124-129 | the byte count of a block is what its words take |
| `SpillFiles.BlockBack` | spill/spill.c:393-438 | reading where a block was written returns its rows, NULLs and hashes and the position behind it; damaged blocks are never reported for written data |
| `SpillSet.FlushPart` | spill/spill.c:163-187 | flushing a writer appends its rows as one block, empties it, and counts the bytes appended |
| `SpillSet.Spill.Evict` | spill/spill.c:195-212 | eviction frees exactly one live writer and loses no row |
| `SpillSet.Spill.GetWriter` | spill/spill.c:189-220 | a writer is live for the partition afterwards, within the bound on live writers |
| `SpillSet.Spill.Append` | spill/spill.c:270-299 | rows go to the end of one partition's log; other logs are unchanged |
| `SpillSet.Spill.Write` | spill/spill.c:258-300 | the selected rows of borrowed vectors are appended in order with NULLs and hashes; the calls refused change nothing |
| `SpillSet.Spill.WriteDense` | spill/spill.c:302-334 | the same for packed column-major rows with any stride |
| `SpillSet.Spill.Finish` | spill/spill.c:336-355 | finishing flushes every writer: each tape now holds exactly its log; a second call is refused |
| `SpillSet.Reader.Next` | spill/spill.c:393-438 | blocks come back in the order written, and the end is reported only after the last |
| `SpillSet.Reader.Rewind` | spill/spill.c:440-449 | only a frozen set can be rewound, to the first block |
| `SpillSet.Reader.ReadRest` | spill/spill.c:393-438 | reading to the end returns the rows not read yet, in order |
| `SpillSet.ReadTwice` | spill/spill.c:371-449 | a finished partition is read exactly as written, and a frozen one again after a rewind |
| `Int4Kernels.NormalizedCompares` | kernels/int4.c:10-53 | turning the operator round with its operands is the same comparison |
| `Int4Kernels.SimdCompare` | kernels/int4_simd.c:80-175 | four-lane groups and the scalar tail give each row its comparison |
| `Int4Kernels.NotNullMask` | kernels/int4.c:116-141 | all three paths mark exactly the given rows that are not NULL |
| `Int4Kernels.FilterWord` | kernels/int4.c:153-177 | with four-lane compares or without, one word keeps exactly its selected non-NULL rows that compare TRUE |
| `Int4Kernels.FilterInt4` | kernels/int4.c:143-178 | word by word, exactly the selected non-NULL rows that compare TRUE stay selected |
| `Int4Kernels.TruncatedDivision` | kernels/int4.c:200-216 | quotient and remainder as C has them: the remainder is smaller than the divisor and has the sign of the dividend |
| `Int4Kernels.ArithmeticExact` | kernels/int4.c:180-225 | for int4 operands the result is the sum, difference, product, truncated quotient, remainder or negation if there is one and it is an int4, and an error if and only if not |
| `Expressions.ScalarIgnoresColumn` | expr/expr.c:103-142 | a tree in which no Var is found has the same value for every row |
| `Expressions.EvalExact` | expr/expr.c:72-142 | a tree has a value exactly as the built-in functions it names have mathematical results that are int4 values, NULL for a NULL argument; it fails if and only if some call has no such result |
| `Expressions.JudgeExact` | expr/expr.c:152-180 | a filter is TRUE if and only if both sides have values that compare so, and an error if and only if a side has none |
| `Expressions.CompileKeepsMeaning` | expr/expr.c:225-275 | the step chain gives every column value the tree's value, NULL or error |
| `Expressions.PartsKeepVerdict` | expr/expr.c:152-171 | the filter taken apart, with the column on the left, has the verdict of the tree |
| `Expressions.Evaluator.ArithmeticScalar` | kernels/int4.c:227-264 | one step leaves each selected row its value or NULL in one buffer without touching the other; it fails if and only if some selected row does |
| `Expressions.Evaluator.RunStepInto` | expr/expr.c:428-448 | one turn of the loop, with the scalar evaluated only for a batch with rows and NULL clearing the result |
| `Expressions.Evaluator.RunChain` | expr/expr.c:426-451 | the alternating buffers never overwrite the input of a step |
| `Expressions.Evaluator.BuildScalarVector` | expr/expr.c:368-402 | a tree without a Var is evaluated once, and only if a row is selected |
| `Expressions.Evaluator.GetInt4` | expr/expr.c:404-455 | each selected row gets the tree's value or NULL, also from a cached result; an error is raised if and only if evaluating some selected row raises one |
| `Expressions.FilterEvaluator.ApplyFilter` | expr/expr.c:457-478 | exactly the selected rows for which the comparison is TRUE stay, with SIMD on or off; an error if and only if some selected row has one |
| `ColumnCodec.ChooseCompression` | examples/compressed_tam/compressed.c:164-201 | the narrowest encoding whose width holds every delta, with NULLs filled from the left, its base and its size |
| `ColumnCodec.WriteColumn` | examples/compressed_tam/compressed.c:203-238 | the validity map, NULL count and data of the column, with deltas of the same filling |
| `ColumnCodec.RoundTrip` | examples/compressed_tam/compressed.c:602-624 | decoding returns every non-NULL value, and no running sum leaves int4 |
| `ColumnCodec.EncodedItems` | examples/compressed_tam/compressed.c:626-658 | NULLs and values come back, also when a NULL count of zero stands for the validity map |
| `ColumnCodec.ColumnVector` | examples/compressed_tam/compressed.c:626-658 | the vector of a batch part shows the stored rows from its start |
| `StorageGroups.UpdateValue` | examples/compressed_tam/compressed.c:316-344 | minimum, maximum and distinct values summarize exactly the values seen, overflow only after 16 distinct ones and another |
| `StorageGroups.UpdateColumn` | examples/compressed_tam/compressed.c:304-349 | the summary of a column takes in the non-NULL values of a batch |
| `StorageGroups.SkippingIsSound` | examples/compressed_tam/compressed.c:573-599 | a summary that rejects a clause has no value the clause is TRUE for |
| `StorageGroups.SkippingIsExact` | examples/compressed_tam/compressed.c:573-599 | it rejects a clause if and only if no value satisfies it, except for equality after an overflow |
| `StorageGroups.OverflowKeepsAbsent` | examples/compressed_tam/compressed.c:573-599 | for equality after an overflow the converse fails: a group without the value may be kept |
| `StorageGroups.DirectVerdict` | expr/expr.c:182-205 | a clause that compares a column itself has the verdict of that comparison |
| `StorageGroups.GroupMayMatch` | examples/compressed_tam/compressed.c:552-600 | a group is skipped if and only if its summaries reject some prunable clause |
| `CompressedTable.BuildBatch` | examples/compressed_tam/compressed.c:240-281 | a compressed batch holds the given rows in every column |
| `CompressedTable.UpdateGroup` | examples/compressed_tam/compressed.c:304-349 | all column summaries of a group take in the batch |
| `CompressedTable.Relation.Append` | examples/compressed_tam/compressed.c:351-378 | the batch goes to the end of the last group, or of a new one when that is full; groups stay contiguous and their summaries exact |
| `CompressedTable.Compress` | examples/compressed_tam/compressed.c:409-492 | refused exactly for a table without columns or a bad group size; otherwise the snapshot holds the table's rows in order |
| `CompressedScan.RejectedGroup` | examples/compressed_tam/compressed.c:552-600 | no row of a rejected group passes the clauses |
| `CompressedScan.SkippingLosesNothing` | examples/compressed_tam/compressed.c:897-917 | leaving out the skipped groups loses no row that passes |
| `CompressedScan.FilterSpan` | examples/compressed_tam/compressed.c:839-859 | clause after clause, exactly the rows for which all are TRUE stay selected; an error if and only if a clause fails for a row that all clauses before it are TRUE for |
| `CompressedScan.Scan.EnterGroup` | examples/compressed_tam/compressed.c:897-917 | a group is judged once, and skipping it keeps what was presented in step with the position |
| `CompressedScan.Scan.TakeSpan` | examples/compressed_tam/compressed.c:918-945 | the next rows of the current batch, at most as many as asked for, each presented once |
| `CompressedScan.Scan.Next` | examples/compressed_tam/compressed.c:875-954 | every call publishes a batch with a selected row or reports the end; the rows published follow those published before in storage order; it fails only for a scalar, or for a failing row among the next ones, and no row gone over fails otherwise |
| `CompressedScan.Scan.Complete` | examples/compressed_tam/compressed.c:875-954 | at the end filtering has shown exactly the rows that pass, pruning all rows of the groups kept, and plain batches every row, in storage order |
| `CompressedScan.ReadAll` | examples/compressed_tam/compressed.c:875-954 | a whole scan with any row limit per call returns those rows, each once; it fails if and only if the scalar of a prunable clause does, or with filtering a row of a group not skipped makes a clause fail that it comes to |
| `Bridge.CountedKeeps` | bridge/bridge.c:476-598 | every call keeps the generations given out behind the counter |
| `Bridge.RunCounts` | bridge/bridge.c:476-598 | so does every run with fewer than 2^64 publications, early republication included |
| `Bridge.NoOldGeneration` | bridge/bridge.c:509-517 | no call gives a batch a generation that was given out before |
| `Bridge.HolderStays` | bridge/bridge.c:542-598 | a binding holds its batch until that binding is finished, cleared or detached |
| `Bridge.EndTakesAway` | bridge/bridge.c:125-138 | finishing, clearing or detaching takes the generation from the batch |
| `Bridge.GenerationStep` | bridge/bridge.c:125-138 | a published batch keeps its generation until a call takes it away, and has none then |
| `Bridge.ViewAcceptedIff` | include/pg_batch/batch.h:175-187 | over every run with fewer than 2^64 publications, early republication included, a view is accepted only while its binding still holds that same publication unfinished; and if and only if no call took the generation from the batch since and the row is selected |
| `Bridge.ApplyKeeps` | include/pg_batch/batch.h:101-117 | when sources wait for release, every call keeps: an unfinished batch has the generation of its one holder, requests of holders are sealed, batch sizes respect the request |
| `Bridge.RunKeeps` | include/pg_batch/batch.h:101-117 | every state of a run whose sources wait for release satisfies this |
| `Bridge.ViewAcceptedUntilEnd` | include/pg_batch/batch.h:101-117 | in such a run only the holder ends a view: it is accepted if and only if its binding was not finished, cleared or detached since and the row is selected |
| `Bridge.RepublishedTooEarly` | include/pg_batch/batch.h:101-117 | why a source must wait for release before publishing a batch again: otherwise a valid view is rejected |
| `Bridge.Backend.RequestRows` | bridge/bridge.c:402-441 | a sealed request and a negative limit are refused and nothing changes then; otherwise the limit is recorded |
| `Bridge.Backend.PublishBatch` | bridge/bridge.c:476-523 | accepted exactly for an idle binding and an idle, well-formed batch within the requested size; it gets a fresh generation and seals the request |
| `Bridge.Backend.FinishBatch` | bridge/bridge.c:542-549 | accepted exactly for an active batch, which loses its generation |
| `Bridge.Backend.ReleaseBatch` | bridge/bridge.c:125-138 | the binding lets go of the batch and the batch loses its generation |
| `Bridge.Backend.GetRowView` | bridge/bridge.c:586-598 | a view is issued exactly for an unfinished batch |
| `Bridge.Backend.RowViewSelect` | include/pg_batch/batch.h:175-187 | accepted exactly for the generation of the batch and a row of it whose selection bit is set |

## Left out

- Payload columns of the joins: rows are identities with keys. Compaction leaves validity bits above the new row count set (nodes/hash_join_spill.c:539-569) and later appends only set bits (nodes/hash_join.c:276-279), so a NULL build payload appended there would read as a value; the join theorems are about which rows meet.
- Lazy binding of probe columns: `hash_join_publish_resident_probe` rebinds key columns only (nodes/hash_join_spill.c:1076-1080), unlike nodes/hash_join_spill.c:1137-1138; the model reads a probe row from its block.
- SerialJoin.HashJoin, ParallelJoin.UnspilledJoin and ParallelJoin.SpilledJoin: all passes are collected before the first output batch, where the program fetches each probe block when the one before it is used up (nodes/hash_join.c:1389-1459); and participants produce their batches one after another, since nothing they read changes any more.
- Files of the joins and of the aggregate are sequences of rows; they are not connected with the readers of `SpillSet`, whose own theorem is that a partition reads back as it was written.
- Barrier detach at shutdown, end and rescan of the parallel join (nodes/parallel_hash_join.c:1372-1423): a participant that is attached stays attached until it is ready.
- Late attachment: participants attach before the directory and buckets are bound, in barrier phases 0 and 1 (nodes/parallel_hash_join.c:813-819).
- Weak memory and the barrier's own implementation: atomics are sequentially consistent and the barrier is correct.
- ParallelRuns.MoveKeeps: row ids and the shared row counter are unbounded, so wrap-around of 32-bit row ids beyond 2^22 chunks is not modelled.
- The parallel spill writers and readers (spill/spill.c:550-953) repeat the serial ones per participant; the parallel model uses their logs as sequences.
- Fewer than 2^31 build rows are required where the program stores row numbers plus one in 32 bits.
- ProbeOutput.Run: the residual conditions are an uninterpreted predicate of the pair; batch and scalar evaluation of them is not told apart.
- SerialBuild.ResidentCount: the quotient is not cast to a C int, so a memory limit of 2^31 times the partition size or more is treated as large rather than negative; no result depends on the number of resident partitions.
- SerialBuild.FilterBits: the sizes chosen for the key filter, the resident set and the chunks, and the number of passes from which a partition is split again, are the program's formulas; results are proved not to depend on them, and rows kept in memory to stay within the limit.
- SpillRouting.LinkByPartition: the linked heads, tails and next arrays are sequences per partition.
- The redundant second test for a missing build file while linking probe rows (nodes/hash_join_spill.c:424-429) is left out; the first pass has already removed those rows.
- Selection words are sequences of booleans; visiting set bits of a word is visiting its selected rows in order, and masks with a power of two minus one are remainders.
- Which error an expression raises: division by zero and overflow are one outcome. Expressions.FilterEvaluator.ApplyFilter says nothing about the selection after an error.
- Expressions.Evaluator.Bind: a compiled expression is bound to values; PostgreSQL's own evaluation of scalar subexpressions is the meaning of the tree.
- pg_batch_reduce_int4 and the ungrouped aggregate: sums over whole words, with no hard property.
- The spill tape below its words (logical tapes, BufFile, memory contexts) and the byte layout of a compressed batch (offsets and alignment).
- CompressedScan.FilterSpan: each clause is compiled anew for a batch instead of being bound again.
- Column positions of a compressed scan: a clause names the stored column, not the position among the columns requested.
- Replacing a compressed snapshot and its reference count; a scan works on a fixed snapshot.
- Bridge: the reset callback of a slot's memory context, `slot_reset` (bridge/bridge.c:140-158), which forgets the binding of a slot and leaves its batch to the source.
- Bridge: slot lookup, source and node registries, version and size checks (one flag says whether a batch passes them), and callbacks of consumers and sources.
- Statistics counters (rows, batches, bytes and groups counted for EXPLAIN), except the spill byte and row counters.
- Planner, plan serialization, EXPLAIN, configuration, output materialization as Datum or Arrow, heap and Arrow sources, the limit node and the unary nodes: no hard property.
