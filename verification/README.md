# Verified models of verl's state machines and layouts

This Dafny project models six parts of the repository and proves what they promise.

* **Activation offloading** (`Offload*.dfy`). The two offload handlers are classes whose methods
  update tag map, buffer map, host map, window map and counters as the source does, together with
  the order of the work they put on the compute, copy-out and copy-in streams. Every method is tied
  to a state machine over values (`OffloadModel`), and the machines are driven by an autograd tape:
  forward phases, then backward phases, over any number of training steps. The double-buffered
  handler refines the synchronous one (`OffloadProof`); its streams are free of races for every
  number of groups (`OffloadStreams`), and its copies out overlap compute (`OffloadOverlap`). What is
  buffered, and where every save is at every moment, is settled exactly (`OffloadBuffers`,
  `OffloadPlaces`), and so is when buffers are dropped after their copy out, groups are read after
  their reload, and offloaded tensors are off the device (`OffloadSafety`, `OffloadOrder`,
  `OffloadCondition`).
* **Sequence-length balancing** (`Differencing`, `Partitioning`, `PopOrder`, `Balancing`, `Greedy`,
  `MicroBatches`, `SeqlenBalancing`, `RewardScores`). Karmarkar-Karp over mutable sets and states,
  the greedy variant, the micro-batch splitter and the way back to row order.
* **The multi-attempt rollout** (`RolloutModel`, `RolloutHistory`, `RolloutLog`, `Rollout`,
  `Credit`, `RolloutResults`, `RolloutWins`). The environments are an oracle that may report anything in any step, except
  that during reflection it reports neither done nor won, as the managers do
  (`agent_system/environments/minesweeper/env_manager.py:110-124`). The loops are proved to give every
  environment its own history, which is what that environment reported, and success, credit and the
  collected batch are proved about those histories.
* **Megatron weight layout** (`Tensors`, `QkvLayout`, `QkvMerge`, `GateUp`, `LayerOffsets`,
  `StateDicts`). Rows interleaved by query group, sharded, and taken apart in three places; global
  layer numbers computed in two independent ways.
* **Ulysses sequence parallelism** (`Ulysses`, `UlyssesPadding`). A collective is a function from
  the tensors of all ranks to the tensors of all ranks.
* **DataProto and the memory buffer** (`DataProtos`, `BufferLayout`, `MemoryBuffers`). A column
  store that behaves like a list of rows, and a bump allocator on arrays.

`Results`, `Arith`, `Seqs` and `Sorting` hold what the others share. Python exceptions are `Raise` values of
`Results.Result`; where a method can raise after it has changed fields, its contract says when it
raises and leaves the half-changed state open.

Assumptions, all of them about what lies outside the modelled code:

* Saved tensors of one layer group that share storage address and dtype have the same flattened
  content (`OffloadModel.Legal`). The code does not enforce this: a tensor and its transpose share
  both and differ in content.
* A reloaded tensor lives wherever the allocator puts it (the `alloc` argument).
* Each saved tensor is fetched in the backward phase of its own group.
* Lengths are natural numbers. A heap pops a least element; which one is settled by `PopOrder`.
* Ranks of a collective hold tensors of one shape.
* A stage of the merged checkpoint holds exactly its share of the layers, each under at least one
  name (`StateDicts.Shaped`); how the layers are dealt out is not part of this repository and enters
  as `LayerOffsets.SizesOf`.

Where code and documentation disagree, the model follows the code:

* `activation_offload.py` asks for at most as many offload groups as commits. Delivered values and
  race freedom hold for every number of groups. Offloaded tensors are off the device, and buffers
  wait for their copy, if and only if there are fewer groups than layers or one layer
  (`OffloadCondition`): otherwise group 1 is copied out before its tensors exist. The caller passes
  fewer.
* `rearrange_micro_batches` documents a token limit per micro-batch that it does not guarantee
  (`MicroBatches.LimitCanBeExceeded`). Twice the limit is never reached; the limit itself holds when
  the micro-batches leave room for a longest row in all but one of them (`LimitHoldsWithRoom`), and
  on rows of one length exactly when evenly divided rows fit (`LimitIffEvenRowsFit`). A batch
  without any token fails inside the partitioner.
* `get_transformer_layer_offset` does not tile when virtual stages are combined with an uneven split
  that leaves the first stage's count open or has no middle stage (`LayerOffsets.TilesIffPlaced`).
  It takes the rank of the stage as an argument but looks at the asking process to place the
  embedding, so an answer for another stage can be one layer off (`LayerOffsets.AskedForAnother`).
* The copy mode of `adjust_batch` leaves the length indivisible when more rows are missing than
  there are (`DataProtos.AdjustPadsIffEnoughRows`).
* The rollout counts an environment as won also when it reports so in a step that is no longer
  recorded for it, while success is read off recorded steps. The two differ for an environment if
  and only if its first reported win comes in a play step it sits out (`RolloutWins.WonIffRecorded`,
  with an example in `WonWithoutRecord`).

Loops that the source writes inline are methods of their own where that keeps a proof short
(`LabelGroup`, `StepAll`, `RepointAll`, …). Run `dafny verify dfyconfig.toml` to check everything.

## Model

| member | source | states |
|---|---|---|
| OffloadProof.AsyncRefinesSync | verl/utils/activation_offload.py:130-391 | over every legal sequence of pushes, forward commits, backward commits, fetches and new steps, for every number of offload groups and layers from 1 on, neither handler faults and both deliver, fetch by fetch, exactly the tensor that was saved |
| OffloadProof.StepKeeps | verl/utils/activation_offload.py:256-391 | one event of the double-buffered handler never fails an assertion, misses a lookup or meets an offloaded label; it delivers what was saved and keeps the invariant on windows, host copies, tags and counters |
| OffloadProof.RunDelivers | verl/utils/activation_offload.py:256-391 | the same over whole runs from any reachable state |
| OffloadProof.DrainedIsInitial | verl/utils/activation_offload.py:369-391 | once a step's saves are all fetched, tag map, buffer map and counters are empty again, and so is the host map (more offload groups than layers leave one empty entry) |
| OffloadProof.WindowBounds | verl/utils/activation_offload.py:238-247 | window entries lie inside the layers, leave room for the next group when there are fewer groups than layers, and the last one is the last layer |
| OffloadProof.WindowMonotone | verl/utils/activation_offload.py:238-247 | window entries strictly increase |
| OffloadProof.ForwardControl | verl/utils/activation_offload.py:315-348 | a forward commit finds its window entry, copies out only groups that are on the device and keeps the host map equal to the groups up to the counter |
| OffloadProof.BackwardControl | verl/utils/activation_offload.py:369-391 | a backward commit finds its window entry and the host copy it reloads, and nothing stays evicted once the last window has opened |
| OffloadProof.OffloadKeeps | verl/utils/activation_offload.py:294-313 | copying a group out keeps every saved tensor recoverable, given that equal keys in one group mean equal content |
| OffloadProof.ReloadKeeps | verl/utils/activation_offload.py:351-367 | reloading a group brings back every evicted tensor with its shape and content |
| OffloadProof.SyncRunDelivers | verl/utils/activation_offload.py:130-211 | the synchronous handler delivers every saved tensor on every legal run |
| OffloadStreams.RunsAreRaceFree | verl/utils/activation_offload.py:256-391 | for every number of offload groups and layers from 1 on, any two operations that touch one group's device memory from different streams are ordered by waits, at every point of every legal run |
| OffloadOrder.CopiesAreInTime | verl/utils/activation_offload.py:315-391 | with fewer offload groups than layers (or one layer), at every point of every legal run: a group's buffers are dropped only after a copy out of everything saved in it is complete, and a group is read only after a reload is complete that no copy out has undone |
| OffloadOrder.OffloadedSavesAreOut | verl/utils/activation_offload.py:294-348 | under the same condition, at every forward point of every legal run after the first commit, every tracked save of the groups up to the counter is off the device and recoverable, shape and content, from its group's host copies |
| OffloadCondition.CopiesInTimeIff | verl/utils/activation_offload.py:315-341 | drops follow their copies and reads their reloads in every legal run if and only if there are fewer offload groups than layers or only one layer |
| OffloadCondition.OffloadsFullyIff | verl/utils/activation_offload.py:315-341 | every legal run keeps all saves of the offloaded groups off the device if and only if there are fewer offload groups than layers or only one layer |
| OffloadCondition.ShortFails | verl/utils/activation_offload.py:315-341 | otherwise a run of two commits with one save between them leaves the save on the device and drops its buffer with no copy before it |
| OffloadBuffers.BuffersAreExact | verl/utils/activation_offload.py:256-341 | for every number of offload groups and layers, at every point of every legal run: a stray or unwanted tensor is handed back as it is; any other is buffered if and only if its group is offloaded, and the buffer holds the saved tensor itself in forward until its group's window has closed and nothing afterwards |
| OffloadBuffers.OperationsAreLive | verl/utils/activation_offload.py:294-391 | for every number of groups and layers, at every point of every legal run: a drop or a copy out finds tensors if and only if its group saved some since its last drop, a copy in if and only if a copy out of its group awaits its reload |
| OffloadOverlap.CopiesOverlapCompute | verl/utils/activation_offload.py:315-391 | for every number of groups and layers, at every point of every legal run: nothing that compute does between a group's copy out and the drop of its buffers waits for that copy |
| OffloadPlaces.WhereSavesAre | verl/utils/activation_offload.py:238-391 | with fewer offload groups than layers, at every point of every legal run: each tracked save still to be fetched is off the device exactly in the span the window formula gives, and otherwise on it, in forward as the very tensor saved |
| OffloadPlaces.WindowGaps | verl/utils/activation_offload.py:238-247 | the windows split the layers evenly, the longer ones first |
| OffloadPlaces.CounterIs | verl/utils/activation_offload.py:324-341 | the counter counts exactly the groups whose window has closed |
| OffloadPlaces.WhereSyncSavesAre | verl/utils/activation_offload.py:188-211 | at every point of every legal run the synchronous handler keeps a wanted tensor of an offloaded group as a host value and any other as it is |
| OffloadSafety.EachGroupMovesOncePerRound | verl/utils/activation_offload.py:315-391 | in every step each group below the limit gets one bulk copy out, ascending, and one bulk reload, descending, and no other group gets any |
| OffloadSafety.AtMostTwoGroupsOnDevice | verl/utils/activation_offload.py:315-391 | with one group fewer than layers only the current group and the one before it hold device memory, at every point of every legal run |
| OffloadHandler.ReachableFaithful | verl/utils/activation_offload.py:34-36 | on the forward phases of every legal run, tensors of one group with equal keys have equal content, which is what the handler's methods ask for |
| OffloadHandler.SynchronizedGroupOffloadHandler.constructor | verl/utils/activation_offload.py:136-152 | starts empty |
| OffloadHandler.SynchronizedGroupOffloadHandler.TensorPush | verl/utils/activation_offload.py:188-201 | new state and token of the synchronous machine's push, and its assertion |
| OffloadHandler.SynchronizedGroupOffloadHandler.TensorPop | verl/utils/activation_offload.py:203-211 | new state and value of the synchronous machine's pop, and its assertion |
| OffloadHandler.SynchronizedGroupOffloadHandler.OnGroupCommitForward | verl/utils/activation_offload.py:154-158 | next group, tags from 0 |
| OffloadHandler.SynchronizedGroupOffloadHandler.OnGroupCommitBackward | verl/utils/activation_offload.py:160-163 | previous group, or the assertion |
| OffloadHandler.AsyncDoubleBufferGroupOffloadHandler.constructor | verl/utils/activation_offload.py:221-254 | the window loop with its running constant computes the window map |
| OffloadHandler.AsyncDoubleBufferGroupOffloadHandler.TensorPush | verl/utils/activation_offload.py:256-279 | state, token and compute-stream work of a push; what that state buffers is OffloadBuffers.BuffersAreExact |
| OffloadHandler.AsyncDoubleBufferGroupOffloadHandler.TensorPop | verl/utils/activation_offload.py:281-292 | state, tensor and compute-stream work of a pop, and its two assertions |
| OffloadHandler.AsyncDoubleBufferGroupOffloadHandler.LabelGroup | verl/utils/activation_offload.py:299-307 | labels exactly the group's tensors with key and shape and keeps one tensor per key, or fails on an already offloaded one |
| OffloadHandler.AsyncDoubleBufferGroupOffloadHandler.BulkOffloadGroup | verl/utils/activation_offload.py:294-313 | state after the bulk copy out, which host copies there are, and the work on the copy stream |
| OffloadHandler.AsyncDoubleBufferGroupOffloadHandler.FreeBuffers | verl/utils/activation_offload.py:331-334 | lets go of the buffers of one group and of no other |
| OffloadHandler.AsyncDoubleBufferGroupOffloadHandler.CloseOldestWindow | verl/utils/activation_offload.py:324-341 | waits, frees, copies out and counts on exactly when the window of the oldest group closes |
| OffloadHandler.AsyncDoubleBufferGroupOffloadHandler.SynchronizeOnGroupCommitForward | verl/utils/activation_offload.py:315-341 | the forward commit's synchronisation, with the first copy at group 0 |
| OffloadHandler.AsyncDoubleBufferGroupOffloadHandler.OnGroupCommitForward | verl/utils/activation_offload.py:343-348 | state and stream work of a forward commit |
| OffloadHandler.AsyncDoubleBufferGroupOffloadHandler.RestoreGroup | verl/utils/activation_offload.py:361-367 | turns every label of the group back into a tensor, unless a key is missing or a shape does not fit |
| OffloadHandler.AsyncDoubleBufferGroupOffloadHandler.BulkReloadGroup | verl/utils/activation_offload.py:350-367 | state and copy-in work of a reload, and when it raises |
| OffloadHandler.AsyncDoubleBufferGroupOffloadHandler.OnGroupCommitBackward | verl/utils/activation_offload.py:369-391 | state and stream work of a backward commit, and when it raises |
| Differencing.MergeSpread | verl/utils/seqlen_balancing.py:65-72 | merging never raises the spread above the larger of the two |
| Differencing.MergeBag | verl/utils/seqlen_balancing.py:65-68 | merging loses and duplicates no item |
| Differencing.MergeFilled | verl/utils/seqlen_balancing.py:39-68 | a merge of states with p and q non-empty sets has min(k, p + q), thanks to the tie-break on the number of items |
| Differencing.MergeUniform | verl/utils/seqlen_balancing.py:65-68 | merging states whose sets are equally large gives equally large sets |
| Differencing.SetOrder | verl/utils/seqlen_balancing.py:39-44 | the order on sets is a strict total order |
| Differencing.StateLessOrder | verl/utils/seqlen_balancing.py:74-80 | the order on states is asymmetric and total on states with different first sets |
| Differencing.SetLessIs | verl/utils/seqlen_balancing.py:39-44 | a set is less than another by sum, then by number of items, then by its first differing item |
| Differencing.NewStateIs | verl/utils/seqlen_balancing.py:47-54 | a new state has each item in a set of its own and empty sets besides, in decreasing order of sum, count and items |
| Differencing.MergeIs | verl/utils/seqlen_balancing.py:65-68 | a merge has exactly the sets made of the first state's heaviest and the second's lightest, second heaviest and second lightest and so on, in decreasing order |
| PopOrder.EveryPopIsDetermined | verl/utils/seqlen_balancing.py:96-115 | from the loop's own initial queue, at every turn, the state popped first and the state popped second are each strictly less than all others left, so the pops do not depend on the heap |
| PopOrder.InitialIsLive | verl/utils/seqlen_balancing.py:96-108 | in the initial queue no item occurs twice and no state is empty |
| PopOrder.PopIsDetermined | verl/utils/seqlen_balancing.py:74-80 | two live states never compare equal |
| PopOrder.PopsAreLargest | verl/utils/seqlen_balancing.py:74-117 | at every turn of the loop from the initial queue, both states popped have the largest spread of what is left, on equal spread the first set of the largest sum, then of the most items, then with the larger first differing item |
| Partitioning.SortedItemsAscend | verl/utils/seqlen_balancing.py:96 | items are taken shortest first, and equally long ones in their original order |
| Partitioning.RoundIs | verl/utils/seqlen_balancing.py:110-115 | a turn takes the two popped states out of the queue and puts their merge in, and nothing else changes |
| Partitioning.DifferKeeps | verl/utils/seqlen_balancing.py:110-117 | the merge loop keeps spread bound and items, and fills min(k, n) sets |
| Partitioning.DifferUniform | verl/utils/seqlen_balancing.py:98-117 | with full chunks the merge loop ends with equally large sets |
| Balancing.KarmarkarKarpPartitions | verl/utils/seqlen_balancing.py:23-122 | succeeds exactly when there are items, k is positive and, for equal sizes, divides their number; the parts split 0..n-1 exactly, none is empty when n >= k, and equal-size parts have n/k each |
| Balancing.KarmarkarKarpBalance | verl/utils/seqlen_balancing.py:23-122 | no two parts differ by more than the longest length (equal sizes: the largest difference within a chunk) |
| Balancing.BalancedPartitionsSucceed | verl/utils/seqlen_balancing.py:143-184 | exactly when the call succeeds; every later assertion then holds and the indices of every part ascend |
| Balancing.BalancedLoads | verl/utils/seqlen_balancing.py:143-184 | the spread bound on the sorted partitions |
| Balancing.LoadsDescend | verl/utils/seqlen_balancing.py:56-72 | the partitions stand in the order of their loads, heaviest first |
| Balancing.HeaviestPart | verl/utils/seqlen_balancing.py:143-184 | of any exact partition whose loads lie within a bound: k times the heaviest load is at most the total plus (k - 1) times the bound |
| Balancing.HeaviestBalanced | verl/utils/seqlen_balancing.py:143-184 | for the returned partitions: k times any part's load is at most the total plus (k - 1) times the longest length |
| SeqlenBalancing.ItemSet.Add | verl/utils/seqlen_balancing.py:30-32 | appends the item and keeps the running sum right |
| SeqlenBalancing.ItemSet.Merge | verl/utils/seqlen_balancing.py:34-37 | appends the other set's items in order and keeps the running sum right |
| SeqlenBalancing.ItemSet.LessThan | verl/utils/seqlen_balancing.py:39-44 | the order by sum, then count, then items |
| SeqlenBalancing.State.constructor | verl/utils/seqlen_balancing.py:47-54 | one item per set, sets in decreasing order |
| SeqlenBalancing.State.Merge | verl/utils/seqlen_balancing.py:65-68 | heaviest meets lightest, sets in decreasing order again, in place |
| SeqlenBalancing.State.LessThan | verl/utils/seqlen_balancing.py:74-80 | larger spread first, then heavier first set |
| SeqlenBalancing.State.GetPartitions | verl/utils/seqlen_balancing.py:56-63 | the indices set by set |
| SeqlenBalancing.Pop | verl/utils/seqlen_balancing.py:111-112 | takes the least state off the queue and leaves the others |
| SeqlenBalancing.MergeRound | verl/utils/seqlen_balancing.py:110-115 | one turn of the merge loop on shared objects does what the queue of values does |
| SeqlenBalancing.BuildQueue | verl/utils/seqlen_balancing.py:96-108 | one fresh state per item or per chunk of k items |
| SeqlenBalancing.RunKarmarkarKarp | verl/utils/seqlen_balancing.py:23-122 | the loop over mutable states returns the partitions the theorems above are about, or the same exception |
| SeqlenBalancing.GetSeqlenBalancedPartitions | verl/utils/seqlen_balancing.py:143-184 | the checked and sorted partitions, or the same exception |
| Greedy.Fill | verl/utils/seqlen_balancing.py:126-136 | at the end every index is placed once, each where its turn put it: in the first lightest part of those before it; without bias loads lie within the longest length, with the bias counts lie within one |
| Greedy.FillStep | verl/utils/seqlen_balancing.py:129-136 | placing the next index into the first lightest part keeps sums exact, the placement in turn, loads within the longest length without bias, and counts within one with the bias |
| Greedy.GreedyPartition | verl/utils/seqlen_balancing.py:125-140 | when it succeeds, an exact partition, every index in the part that was first lightest in its turn, equally large parts for equal sizes, loads within the longest length otherwise |
| MicroBatches.TokensFitTheRows | verl/utils/seqlen_balancing.py:249-251 | the count needed for the tokens never exceeds the number of rows, so the minimum never bites |
| MicroBatches.EnoughMicroBatches | verl/utils/seqlen_balancing.py:251-260 | raising the count to a minimum, to the other ranks' maximum and to a multiple never drops below the needed count |
| MicroBatches.MaxOfIs | verl/utils/seqlen_balancing.py:254-258 | the reduction over the ranks is an upper bound of every rank's count and one of them |
| MicroBatches.CountIsLeast | verl/utils/seqlen_balancing.py:249-260 | the number of micro-batches is the least that covers the tokens, the minimum and every other rank, and with a divisor the least such multiple of it |
| MicroBatches.CountTrueIs | verl/utils/seqlen_balancing.py:247-248 | a row's effective length is the number of its attended tokens |
| MicroBatches.RearrangeIsBounded | verl/utils/seqlen_balancing.py:229-277 | exactly when the split succeeds; every row is in one micro-batch, none is empty and each has fewer than twice the token limit |
| MicroBatches.LimitCanBeExceeded | verl/utils/seqlen_balancing.py:235 | three full rows of 6 tokens with limit 10 break the limit the documentation states |
| MicroBatches.LimitHoldsWithRoom | verl/utils/seqlen_balancing.py:229-277 | with k micro-batches the limit holds in each whenever all tokens plus k - 1 longest rows fit k times the limit |
| MicroBatches.LimitIffEvenRowsFit | verl/utils/seqlen_balancing.py:229-277 | on rows of one common length the limit holds in every micro-batch if and only if the rows divided evenly, rounded up, fit it |
| RewardScores.RearrangeMicroBatches | verl/utils/seqlen_balancing.py:229-277 | the index part of the splitter, with all its adjustments and assertions |
| RewardScores.GetReverseIdx | verl/utils/seqlen_balancing.py:280-295 | what the reversing loop computes for any list of indices in range, and when it raises |
| RewardScores.ReverseInverts | verl/utils/seqlen_balancing.py:280-295 | on a permutation the result is its inverse |
| RewardScores.ComputeRmScore | verl/workers/fsdp_workers.py:1557-1573 | with or without dynamic batching, score i belongs to row i |
| RolloutModel.ScheduleEntries | agent_system/multi_turn_rollout/metarl_rollout_loop.py:355-364 | entry by entry, the schedule of plays and reflections and where each attempt's phase stands |
| RolloutModel.EnvStep | agent_system/multi_turn_rollout/metarl_rollout_loop.py:381-485 | one step keeps an environment's records in order: turns from 0 without gap, phases in schedule order, nothing once won |
| RolloutModel.EnvNextPhase | agent_system/multi_turn_rollout/metarl_rollout_loop.py:369-380 | entering a phase sits out exactly the environments that have won |
| RolloutModel.RecordsIffNotWon | agent_system/multi_turn_rollout/metarl_rollout_loop.py:367-487 | an environment has records in a phase exactly when it had not won before it |
| RolloutModel.ReflectThenPlay | agent_system/multi_turn_rollout/metarl_rollout_loop.py:355-364 | a reflection is always followed by a play step of the same attempt |
| RolloutModel.NothingAfterWin | agent_system/multi_turn_rollout/metarl_rollout_loop.py:367-487 | after a won step no later phase is recorded |
| RolloutHistory.HistoryKeeps | agent_system/multi_turn_rollout/metarl_rollout_loop.py:367-487 | the invariant holds for every environment at every point of every run, whatever the environments report |
| RolloutHistory.WonWasReported | agent_system/multi_turn_rollout/metarl_rollout_loop.py:479-480 | an environment counts as won only because it reported so in a play step that was taken |
| RolloutHistory.RolloutIsFinished | agent_system/multi_turn_rollout/metarl_rollout_loop.py:328-487 | every environment of every rollout ends with a finished record list: in order, last record a play, lengths equal to records and infos, own trajectory id |
| RolloutLog.RecordsAreReports | agent_system/multi_turn_rollout/metarl_rollout_loop.py:367-487 | every environment of every rollout ends with exactly one record per step it took part in: it takes part until it first reports done in the phase, unless it won before the phase; it counts as won exactly when it reported a win in a play step |
| RolloutLog.RewardsAreReported | agent_system/multi_turn_rollout/metarl_rollout_loop.py:462-480 | every record's reward is what the environment reported in that step of that phase, and its win what it reported in that play step |
| RolloutLog.SuccessIsReported | agent_system/environments/base.py:111-141 | success up to attempt k holds if and only if in a play step of an attempt up to k the environment took part in it reported a win |
| RolloutWins.WonIffRecorded | agent_system/multi_turn_rollout/metarl_rollout_loop.py:367-487 | at the end of every rollout an environment counts as won exactly when its success is recorded, if and only if it never first reported a win in a play step it sat out |
| RolloutWins.WonWithoutRecord | agent_system/multi_turn_rollout/metarl_rollout_loop.py:367-487 | an environment that is done in its first step and reports a win in the next ends as won with one record, no success and no second attempt |
| Rollout.BuildSchedule | agent_system/multi_turn_rollout/metarl_rollout_loop.py:355-364 | the loop builds the schedule |
| Rollout.StepAll | agent_system/multi_turn_rollout/metarl_rollout_loop.py:381-480 | one step over all environments advances each by its own history |
| Rollout.RunPhase | agent_system/multi_turn_rollout/metarl_rollout_loop.py:381-487 | a phase stops as soon as everyone is done and at the latest after its steps |
| Rollout.VanillaMultiTurnLoop | agent_system/multi_turn_rollout/metarl_rollout_loop.py:284-497 | the nested loops give every environment its history, with the steps each phase took |
| RolloutResults.SuccessEvaluator | agent_system/environments/base.py:111-141 | success up to attempt k holds exactly when a recorded play step of an attempt up to k was won, so it only grows with k; an index error exactly when attempt or info is missing |
| RolloutResults.OnlyActivePlaysCount | agent_system/environments/base.py:111-141 | what was noted for a reflection or for an inactive record changes no success |
| RolloutResults.DiscountedReturns | agent_system/multi_turn_rollout/metarl_rollout_loop.py:601-617 | the backward loop computes the two-rate return of every record; empty lists raise |
| RolloutResults.EpisodeRewards | agent_system/multi_turn_rollout/metarl_rollout_loop.py:621-641 | every play gets its whole attempt's reward, every reflection 0 |
| RolloutResults.AttemptsConserveReward | agent_system/multi_turn_rollout/metarl_rollout_loop.py:621-641 | attempt rewards add up to all play rewards |
| RolloutResults.AttemptRewardIsOwn | agent_system/multi_turn_rollout/metarl_rollout_loop.py:621-641 | an attempt's reward is the sum over its own play records |
| RolloutResults.CreditAssignment | agent_system/multi_turn_rollout/metarl_rollout_loop.py:585-643 | returns and episode rewards of all environments, and exactly when it raises |
| Credit.ScanClosedForm | agent_system/multi_turn_rollout/metarl_rollout_loop.py:601-617 | the backward scan equals the sum of later play rewards, weighted by the step rate within attempts and the attempt rate per attempt crossed |
| Credit.ReturnClosedForm | agent_system/multi_turn_rollout/metarl_rollout_loop.py:601-617 | the closed form on every finished rollout |
| Credit.ReflectionsOnlyInherit | agent_system/multi_turn_rollout/metarl_rollout_loop.py:601-617 | a reflection gets the next play's return, and deleting all reflections changes no return |
| RolloutResults.GatherRolloutData | agent_system/multi_turn_rollout/metarl_rollout_loop.py:218-282 | collects the active records in order with their annotations; raises exactly when a trajectory id differs |
| RolloutResults.RowsAreActive | agent_system/multi_turn_rollout/metarl_rollout_loop.py:218-282 | exactly the active records have rows, each with its own reward, return and annotations |
| RolloutResults.MultiTurnLoop | agent_system/multi_turn_rollout/metarl_rollout_loop.py:499-546 | rollout, success, credit and collection raise nothing exactly when some phase has a step or there is no environment; then every record is returned once, in order, with its reward and return, and success is read off the records |
| QkvMerge.QkvRoundTrip | scripts/converter_hf_to_mcore.py:112-116 | for all head counts, head sizes and ranks dividing the key/value heads, interleaving by query group, sharding and taking apart returns q, k and v |
| QkvMerge.SeparateThenInterleave | scripts/converter_hf_to_mcore.py:112-116 | every fused weight is the interleaving of the parts it is taken apart into |
| QkvMerge.MergeQkv | scripts/model_merger.py:377-405 | the merge over ranks returns the group-wise parts of the shards; its assertions |
| QkvMerge.DefaultTpConcatQkv | verl/utils/megatron_utils.py:682-703 | the same parts when split simply, their concatenation otherwise |
| QkvMerge.ConvertQkvShard | verl/utils/megatron_utils.py:481-527 | on the gathered tensor the trunk-wise conversion returns the same group-wise parts; with fewer key/value heads than ranks, q of every rank and k and v of the kept ranks; raises exactly when ranks are 0 or more than the query groups |
| QkvMerge.ReplicatedRoundTrip | verl/utils/megatron_utils.py:507-527 | with key/value heads repeated over m ranks each, the conversion returns every rank's q and every key/value head once, in order |
| QkvLayout.ShardedBlocks | scripts/model_merger.py:390-405 | the groups of the shards, shard by shard, are the groups of the whole tensor |
| GateUp.GateUpRoundTrip | scripts/model_merger.py:365-375 | fusing gate and up per rank and taking the shards apart returns gate and up |
| GateUp.MergeGateUp | scripts/model_merger.py:365-375 | for all shards: the first halves in order, then the second halves in order, the first half longer on an odd number of rows; raises exactly on a shard of one row |
| GateUp.ConvertGateUpShard | verl/utils/megatron_utils.py:529-544 | the same halves from the gathered tensor |
| LayerOffsets.OffsetIsPlace | verl/utils/megatron_utils.py:838-926 | on exact splits the offset formula is the running sum of the stages before, for even and uneven splits with and without virtual stages |
| LayerOffsets.TilesIffPlaced | verl/utils/megatron_utils.py:838-926 | the offsets tile the layers without gap or overlap exactly when the split is even, has no virtual stages, or gives the first stage's count and has a middle stage |
| LayerOffsets.NotPlacedFails | verl/utils/megatron_utils.py:866-887 | otherwise the second rank collides with the first, or a division by zero is raised |
| LayerOffsets.EndsTile | verl/utils/megatron_utils.py:888-926 | with embedding and loss counted into an even split, every stage asking for itself starts where the one before it ends, the first at 0, and the last ends at the number of layers |
| LayerOffsets.AskedForAnother | verl/utils/megatron_utils.py:888-926 | asked on behalf of another stage, the formula gives that stage's own offset if and only if the embedding is not counted or the asking process is on the first stage just when that stage is the first |
| StateDicts.MergeStage | scripts/model_merger.py:439-470 | one stage's keys: renumbered entries, skipped keys, highest local layer |
| StateDicts.MergeStateDicts | scripts/model_merger.py:431-472 | the nested loops merge the stages in order of virtual round and rank; raises exactly when a stage is missing |
| StateDicts.CumIsPlace | scripts/model_merger.py:434-472 | the running layer count at a stage is the sum of the stages before |
| StateDicts.LayerLandsAtOffset | scripts/model_merger.py:447-472 | every layer of every stage is in the merged dictionary under the number the offset formula gives it, with its value |
| StateDicts.LayerComesFrom | scripts/model_merger.py:447-472 | every entry of the merged dictionary comes from a stage, renumbered by the count before it |
| StateDicts.MergedExactly | scripts/model_merger.py:439-472 | the merged dictionary has exactly the written keys, each with the value written last: every entry that is no extra state, and no output layer under tied embeddings, under its renumbered key |
| StateDicts.HandledIsTop | scripts/model_merger.py:439-470 | a stage's layer count is set by its highest local layer number |
| Ulysses.SwappedExchangeInverts | verl/utils/ulysses.py:133-191 | exchanging back along the swapped dimensions, as the backward pass does, restores every rank's tensor |
| Ulysses.ShardsOfOneTensor | verl/utils/ulysses.py:62-101 | gathering the sequence and scattering the heads turns the sequence shards of a tensor into its head shards, and back |
| UlyssesPadding.HeadsThenSeqRestores | verl/utils/ulysses.py:62-114 | head shards of any sequence length survive the way to sequence shards and back |
| UlyssesPadding.SeqThenHeadsRestores | verl/utils/ulysses.py:62-101 | sequence shards survive the way to head shards and back |
| UlyssesPadding.PaddedShards | verl/utils/ulysses.py:86-108 | head shards become the sequence shards of the tensor padded with zero rows |
| UlyssesPadding.ParallelMapIsMap | verl/utils/ulysses.py:237-313 | padding, slicing over the ranks, mapping token by token, gathering and unpadding is mapping token by token, for every length and number of ranks |
| UlyssesPadding.IdsAndPositionsAligned | verl/utils/ulysses.py:271-313 | in every slice a token stands beside its own position, and padding counts its positions from 0 |
| UlyssesPadding.SlicesAreBlocks | verl/utils/ulysses.py:117-130 | the slices of a divisible tensor are its equal blocks |
| UlyssesPadding.GatherBackwardIsOwnPart | verl/utils/ulysses.py:194-234 | the backward pass of the gather, along any dimension, gives every rank its own part, scaled if asked |
| DataProtos.PadToDivisor | verl/protocol.py:70-95 | the copying loop pads with copies from the beginning to the next multiple |
| DataProtos.PaddedRows | verl/protocol.py:70-95 | row i of the padded data is row i mod n in every column, and the divisor divides the length |
| DataProtos.ConcatSelections | verl/protocol.py:689-710 | concatenating row selections is selecting the concatenated indices, in all columns at once |
| DataProtos.ChunksAreSelections | verl/protocol.py:652-687 | equal chunks are consecutive rows in all columns |
| DataProtos.ChunkedWork | verl/protocol.py:652-710 | chunking, working row by row and concatenating is working row by row |
| DataProtos.PaddedChunkedWork | verl/protocol.py:70-101 | padding, chunking, working row by row, concatenating and unpadding is working row by row |
| DataProtos.AdjustPadsIffEnoughRows | agent_system/multi_turn_rollout/utils.py:86-125 | copy mode reaches a divisible length, and equals padding, exactly when the batch has as many rows as are missing |
| BufferLayout.PaddedHolds | verl/utils/memory_buffer.py:53-57 | the padded size holds the tensor and is the least multiple of 128 bits that does |
| BufferLayout.InBounds | verl/utils/memory_buffer.py:70-110 | every tensor lies within the buffer of its type, so the range assertion never fires |
| BufferLayout.Disjoint | verl/utils/memory_buffer.py:99-110 | tensors of one type never overlap |
| BufferLayout.StartsAligned | verl/utils/memory_buffer.py:53-110 | every tensor starts on a multiple of 128 bits |
| BufferLayout.TensorsAdjoin | verl/utils/memory_buffer.py:70-110 | a type's tensors follow each other without gap from 0 to the end of its buffer |
| MemoryBuffers.MemoryBuffer.constructor | verl/utils/memory_buffer.py:30-37 | a fresh zeroed buffer |
| MemoryBuffers.MemoryBuffer.Get | verl/utils/memory_buffer.py:43-50 | a window into the buffer, or the range assertion |
| MemoryBuffers.Totals | verl/utils/memory_buffer.py:79-92 | the totals per type; a type without a float format raises |
| MemoryBuffers.BuildMemoryBuffer | verl/utils/memory_buffer.py:70-96 | one buffer per type in use, large enough for its tensors, none sharing memory |
| MemoryBuffers.BuildMemoryReferenceFromModule | verl/utils/memory_buffer.py:99-110 | copying and re-pointing parameter after parameter never runs out of range, ends every parameter at its place and, if asked, keeps every weight; otherwise the buffers stay as they were |
| MemoryBuffers.PlacesAreApart | verl/utils/memory_buffer.py:99-110 | the parameters' windows are in bounds and pairwise disjoint |
| MemoryBuffers.WrapModule | verl/utils/memory_buffer.py:146-151 | building the buffers for a module and moving its parameters there keeps every weight |

## Left out

- Ray workers, checkpoint input and output, loggers, configuration, model construction: no logic of their own beyond library calls.
- Floating-point rounding, dtypes' numeric behaviour and autograd numerics: lengths are integers, rewards and weights are reals or an abstract type.
- Elements' byte sizes, pinned memory and device placement in the offload handlers.
- OffloadHandler.AsyncDoubleBufferGroupOffloadHandler.BulkReloadGroup: says that a reload raises, not which of two failing tags is met first, because dictionary order is not modelled.
- OffloadSafety.AtMostTwoGroupsOnDevice: residency as the handler's references see it; tensors that autograd or the model keep alive themselves are not modelled.
- RolloutModel.EnvStep: prompts, tokenisation, text projection, diagnostics metadata and trajectory logs of the rollout loop.
- RolloutResults.GatherRolloutData: means, minima and maxima over the batch, which are NumPy aggregates copied to every row.
- RolloutResults.SuccessEvaluator: the dictionary of named arrays is a list indexed by attempt.
- MicroBatches.LimitHoldsWithRoom: goes one way only; on rows of different lengths whether the limit holds depends on the heuristic's own choices.
- SeqlenBalancing.FindLeast: heapq's array layout; a pop is a search for the least state.
- QkvMerge.ConvertQkvShard: the result when sizes do not divide evenly, or when there are fewer key/value heads than ranks and yet several query groups per rank.
- QkvMerge.MergeQkv: names of the split parameters and the choice of branch by substrings of the key.
- LayerOffsets.TilesIffPlaced: embedding and loss layers counted into the split, which EndsTile covers for even splits; the code counts them in no other.
- StateDicts.MergeStage: merged values of several tensors under one key are one value; expert parallelism and key renaming.
- Ulysses.AllToAll: asynchronous variants and process-group bookkeeping; uneven splits raise.
- DataProtos.ChunkedWork: chunking a batch without rows (TensorDict's own rule) and the automatic padding mode.
- DataProtos.AdjustPadsIffEnoughRows: delete mode, which draws its rows at random, and the least common multiple of the configured divisors.
- Union, pop, repeat, reorder, fold and unfold of DataProto: easy members over the same columns.
- MemoryBuffers.WrapModule: shapes beyond their number of elements, and the Megatron rollout buffers built from the same parts.
- Rate limiter, FLOPs formulas, learning-rate schedules, dictionary helpers: easy members only.
