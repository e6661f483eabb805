# Verified model of awex's weight resharding

awex moves the weights of a model from the ranks that train it to the ranks that serve it.
The two sides cut the same tensors in different ways, every rank plans only its own part,
and the ranks must then meet often enough, and in the right order, for every element to
arrive. This project models that in Dafny and proves it, from the metadata the ranks
report to the last copy:

- `ShardMeta`: reported shards become replicas with offsets in the global tensor.
- `TransferPlan`, `Reshard`, `AnyOrder`: the planner, step by step as the source does it (one
  reused scratch list included), and what its plans mean: each element of each inference
  shard is written once, with the training value of the same global index, in any order.
- `LocalPlan`, `PlanStats`: pruning, filtering, grouping and sorting per rank; the two ends
  of every pair hold the same list; element counts are conserved.
- `Rendezvous`: ranks as programs of blocking exchanges and barriers, and a theorem that
  a stamp that climbs along all programs excludes deadlock.
- `Butterfly`, `Chunked`: the recursive-partition schedule and its chunked form.
- `TwoPhase`, `CircleShift`: the circle-shift transport and its two-colouring.
- `Colocate`: planner, mappings, self copies, chunks and schedule put together.
- `Separated`: single sends and receives between separate devices, in the order built.
- `EndToEnd`: from the ranks' reports to the copied elements, on shared and on separate devices.
- `QkvLayout`, `MlaFusion`: the layout transformations of attention weights.
- `PipelineLayers`, `MetaLayers`: global layer ids from the configuration and from metadata.
- `TensorGroups`, `Handshake`: sharing weights between the processes of one device.
- `Interleave`: round-robin building of operations, and the cache of training slices.
- `Seqs`, `Slices`, `Arithmetic`, `Wrappers`: what the others share.

Every method is proved against a function that says what it computes; the lemmas then
prove what the source promises about those functions, in terms that do not name them where
they decide something: which rank a shard goes to, which report joins which replica, which
operation a call carries, which layout a layer gets, which id a layer gets. Tensors are lists of elements or
functions from indices to values of an opaque type. Names are natural numbers, which
stand for ordered keys.

Where the code and its own documentation disagree, the model follows the code:

- `group_tensors_by_shape_and_dtype` says groups stay under the limit. A tensor joins its
  group before the size is tested, so only the group without its last tensor does
  (`TensorGroups.GroupsWithinLimit`, `TensorGroups.GroupOverLimit`). Whole groups do exactly
  when the tensors of each shape and dtype do all together (`TensorGroups.WholeGroupsFitIff`).
- `execute_recursive_partition_stream_transfer` says each rank exchanges with all ranks of
  the other half, down to partitions of two. Halving with rounding reaches every pair, and
  each exactly once, only in powers of two (`Butterfly.CoverageIffPowerOfTwo`); elsewhere pairs
  are missed, and some may meet twice (`Butterfly.MeetsTwice`).
- Reconstruction refuses groups without elements, so empty tensors do not survive the round
  trip (`TensorGroups.RoundTripIffNonEmpty`).
- The two-phase colouring says every sender and its receiver pick opposite phases. They do
  at every stage only in powers of two (`CircleShift.EvenCyclesIffPowerOfTwo`). What the
  transport needs is less: a run can finish exactly when whatever is sent joins ranks in
  opposite phases (`CircleShift.CircleFinishesIffPassable`), which in other sizes depends on
  the plan (`CircleShift.ThreeRanksMayPass`, `CircleShift.PassableIffPowerOfTwo`).
- Replicas are sorted by tp rank even when they were grouped by another rank. They are in
  rank-key order exactly when tp ranks ascend with the keys (`ShardMeta.KeyOrderIff`), which
  sharding by tp rank ensures and other sharding does not (`ShardMeta.OutOfOrderReports`).
- The handshake deletes its answers but never the announcements, so it needs step ids that
  are never used twice, and no more than that (`Handshake.MapsSharedIffDistinct`).

## Model

| member | source | states |
|---|---|---|
| ShardMeta.GroupReplicas | awex/meta/meta_resolver.py:128-170 | the dictionary-and-column grouping gives exactly the replicas of the specification, or the uneven-replicas error |
| ShardMeta.GroupByRankKey | awex/meta/meta_resolver.py:147-149 | the dictionary holds, for every rank key seen and no other, the reports with that key in the order they came |
| ShardMeta.TakeColumns | awex/meta/meta_resolver.py:158-170 | replica i takes the i-th report of every key in key order and is then sorted stably by tp rank |
| ShardMeta.AssignGlobalOffsets | awex/meta/meta_resolver.py:188-196 | each record's offset is the extent of the records before it along the sharding dimension, and zero elsewhere |
| ShardMeta.PlaceRecords | awex/meta/meta_resolver.py:188-206 | one replica's records end with the offsets that its metadata reports |
| ShardMeta.BuildParamMeta | awex/meta/meta_resolver.py:124-207 | the whole resolver for one parameter returns the specified metadata, or its error |
| ShardMeta.EveryReportOnce | awex/meta/meta_resolver.py:147-170 | every reported shard lands in exactly one place of exactly one replica, for all five sharding types |
| ShardMeta.UnshardedReplicas | awex/meta/meta_resolver.py:128-130 | unsharded reports are as many replicas as there are reports, replica i the i-th report alone at the origin, and the global shape and element count are those of one report |
| ShardMeta.WholeReplica | awex/meta/meta_resolver.py:131-133 | a parameter cut into one shard is one replica of all reports as they came, laid end to end |
| ShardMeta.ReplicaRanks | awex/meta/meta_resolver.py:134-145 | every replica of a sharded parameter has exactly one shard of each reported rank: tp rank, attention tp rank, expert tp rank or expert rank, as its type says |
| ShardMeta.UnevenIff | awex/meta/meta_resolver.py:151-158 | grouping fails exactly when two ranks were reported unequally often; otherwise there are as many replicas as reports per rank |
| ShardMeta.ReportsInOrder | awex/meta/meta_resolver.py:147-161 | every report of a rank goes to one replica, an earlier report to an earlier one |
| ShardMeta.ReplicaIsSorted | awex/meta/meta_resolver.py:158-170 | replica i of the resolver holds the i-th report of every rank key and nothing else, in ascending order of tp rank, ties in key order |
| ShardMeta.KeyOrderIff | awex/meta/meta_resolver.py:162-168 | a replica of the resolver lists its shards in rank-key order if and only if the tp ranks of its reports ascend with their rank keys |
| ShardMeta.TpKeepsKeyOrder | awex/meta/meta_resolver.py:134-168 | parameters sharded by tp rank always keep rank-key order |
| ShardMeta.KeyOrderOffsets | awex/meta/meta_resolver.py:188-196 | in rank-key order a shard's offset along the sharding dimension is the extent of the shards of all smaller keys |
| ShardMeta.OutOfOrderReports | awex/meta/meta_resolver.py:138-168 | two attention-sharded reports out of rank order, whose one replica lists attention rank 1 before attention rank 0 |
| ShardMeta.SlabsTile | awex/meta/meta_resolver.py:188-196 | slabs laid end to end stay inside the shape, leave no element out and share none |
| ShardMeta.ReplicasTile | awex/meta/meta_resolver.py:178-196 | for consistently shaped reports, every replica's boxes are disjoint and cover exactly the global shape |
| ShardMeta.RanksDistinct | awex/meta/meta_resolver.py:90-170 | if every rank reports a parameter once, no rank holds two shards of it |
| ShardMeta.GlobalNumel | awex/meta/meta_resolver.py:178-186 | the global element count is the product of the global shape |
| TransferPlan.CreateShardOffsets | awex/transfer/transfer_plan.py:372-433 | the boxes of a replica, or of one rank of it, through the reused scratch list; or the first badly placed shard's error |
| TransferPlan.PlacedIff | awex/transfer/transfer_plan.py:399-409 | a replica is accepted exactly when every shard has an offset with an entry per dimension |
| TransferPlan.EndOffset | awex/transfer/transfer_plan.py:419-422 | a shard's far corner is its offset plus its shape in every dimension |
| TransferPlan.IntersectBoxes | awex/transfer/transfer_plan.py:454-484 | the common box if the boxes meet in every dimension, else none |
| TransferPlan.FindOverlappingRegions | awex/transfer/transfer_plan.py:444-486 | all pairs of overlapping boxes, inference-major, in order |
| TransferPlan.BuildRegionOp | awex/transfer/transfer_plan.py:488-557 | one region's operation, although all four tuples pass through one scratch list; or the rank error |
| TransferPlan.BuildRegionOps | awex/transfer/transfer_plan.py:364-368 | the regions' operations in order, or the first rank error |
| TransferPlan.BuildPairPlan | awex/transfer/transfer_plan.py:331-368 | the operations of an inference replica on one engine against its training replica, or the first error |
| TransferPlan.ListReplicaPairs | awex/transfer/transfer_plan.py:300-324 | inference replicas engine by engine, training replicas assigned in turn |
| TransferPlan.BuildPairPlans | awex/transfer/transfer_plan.py:331-370 | all pairs in order, stopping at the first error |
| TransferPlan.BuildParameterPlan | awex/transfer/transfer_plan.py:274-370 | one parameter's plan; the missing-replicas error if either side has none |
| TransferPlan.BuildWeightsMapping | awex/transfer/transfer_plan.py:183-272 | the plan of all common parameters in name order; nothing for empty metadata, and the mismatch error for names that do not match |
| TransferPlan.ByNameIsLast | awex/transfer/transfer_plan.py:205-207 | the metadata used for a name is the last entry with that name |
| TransferPlan.KeysMatchIff | awex/transfer/transfer_plan.py:209-225 | names match exactly when they are the same on both sides or, if not strict, when training lacks one tied-embedding name whose other name both sides have |
| Reshard.CoversIff | awex/transfer/transfer_plan.py:504-531 | an operation writes an element if and only if the element's global index lies in both boxes |
| Reshard.TilingHoldsOnce | awex/transfer/transfer_plan.py:452-484 | a tiling training replica holds every element of an inference box exactly once |
| Reshard.RankInEngine | awex/transfer/transfer_plan.py:435-442 | the planner's transfer rank of an inference shard, divided by the size of an engine, is the engine, and the remainder is the shard's rank in it |
| Reshard.EngineBlocks | awex/reader/weights_reader.py:671-672 | if the engines are of one size, that is the size the planner numbers by |
| Reshard.SameRankSamePlace | awex/transfer/transfer_plan.py:435-442 | the planner gives two inference shards the same transfer rank if and only if they sit on the same rank of the same engine |
| Reshard.MatchedPlan | awex/transfer/transfer_plan.py:274-370 | for matching metadata the parameter's plan exists and is its pairs' operations in order |
| Reshard.ResolvedMatched | awex/meta/meta_resolver.py:124-207 | metadata resolved from sound reports with equal global shapes meets every premise of the planner |
| Reshard.ParameterExactlyOnce | awex/transfer/transfer_plan.py:274-557 | every element of every inference shard, on every engine and replica, is written by exactly one operation |
| AnyOrder.PairSource | awex/transfer/transfer_plan.py:516-531 | the operation that writes an element reads the training element of the same global index |
| AnyOrder.PlanAddressed | awex/transfer/transfer_plan.py:300-557 | every operation of the whole plan goes from the rank the training process of its sending shard gives itself to the rank the reader of its receiving shard gives itself, moves the same box of the global tensor out of the one shard and into the other, and takes the training replicas in turn |
| AnyOrder.NamesCover | awex/transfer/transfer_plan.py:253-272 | only a location's own parameter is planned onto it |
| AnyOrder.ReshardExactlyOnce | awex/transfer/transfer_plan.py:183-272 | the whole plan exists and writes each element of each inference shard of each common parameter exactly once |
| AnyOrder.ReshardAnyOrder | awex/transfer/transfer_plan.py:183-557 | applied in any order, the plan leaves every inference element with the training value of its global index |
| LocalPlan.CollectByPeer | awex/transfer/transfer_plan.py:562-567 | for each opposite rank seen, its operations in the order planned |
| LocalPlan.SortGroups | awex/transfer/transfer_plan.py:569-582 | every group is sorted stably by name and offsets; the groups stay the same |
| LocalPlan.GroupOperationsByRank | awex/transfer/transfer_plan.py:559-582 | the grouped plan as specified |
| LocalPlan.BuildLocalTransferPlan | awex/transfer/transfer_plan.py:584-687 | a rank's plan, pruned above the threshold and not below it, filtered, grouped and sorted |
| LocalPlan.PruningRefinesFiltering | awex/transfer/transfer_plan.py:410-417 | planning for one rank alone gives exactly that rank's part of the global plan, in the same order, on either side |
| LocalPlan.LocalPlanIsGroupedPart | awex/transfer/transfer_plan.py:612-655 | a rank's plan does not depend on whether the planner pruned for it |
| LocalPlan.PeersAgree | awex/transfer/transfer_plan.py:639-655 | sender and receiver hold, each under the other's rank, the same list, which is the stable sort of the operations between them |
| LocalPlan.LocalPlanOps | awex/transfer/transfer_plan.py:639-655 | an operation is under a peer in a rank's plan if and only if it is a global operation from the one to the other, training ranks sending and inference ranks receiving |
| LocalPlan.OpOrder | awex/transfer/transfer_plan.py:571-577 | the sort key's comparison is a strict weak order |
| LocalPlan.GroupsSorted | awex/transfer/transfer_plan.py:569-577 | each group is a permutation of the rank's operations with that peer: names ascend, within a name the send offsets ascend lexicographically, within those the receive offsets, and ties stay as planned |
| PlanStats.ComputePlanStats | awex/transfer/transfer_plan.py:782-798 | the reported element count is the sum over all groups of the operations' volumes |
| PlanStats.CountOps | awex/transfer/transfer_plan.py:791-793 | the volumes of one group add up |
| PlanStats.CountShape | awex/transfer/transfer_plan.py:763-767 | the product of the extents |
| PlanStats.GroupingKeepsNumel | awex/transfer/transfer_plan.py:559-582 | grouping and sorting neither lose nor repeat an element |
| PlanStats.ShardNumel | awex/transfer/transfer_plan.py:444-506 | the operations of one inference shard against a slab-cut replica carry exactly the shard's elements, whatever the two axes |
| PlanStats.ResolvedSlabs | awex/meta/meta_resolver.py:188-196 | metadata resolved from sound reports cuts the training side into slabs |
| PlanStats.Conservation | awex/transfer/transfer_plan.py:782-798 | an inference rank's reported element count equals the elements of its shards of the common parameters |
| Rendezvous.StepKeepsSync | awex/transfer/nccl_stream_batch.py:334-341 | completing an exchange keeps every two occurrences of it together, behind or ahead |
| Rendezvous.Progress | awex/transfer/nccl_stream_batch.py:334-341 | with stamps that climb along every program, every reachable unfinished state has an exchange all of whose parties are at it |
| Rendezvous.RunsEnd | awex/transfer/nccl_stream_batch.py:360-389 | every completed exchange leaves fewer ahead, so a run is no longer than all programs together |
| Rendezvous.CanFinish | awex/transfer/nccl_stream_batch.py:360-389 | every run can be continued until all ranks have finished |
| Rendezvous.RunFollowsPrograms | awex/transfer/nccl_stream_batch.py:360-389 | what a rank has seen of a run is the part of its program behind it |
| Rendezvous.FinishedOnce | awex/transfer/nccl_stream_batch.py:360-389 | a finished run has carried out every exchange exactly once and nothing else |
| Rendezvous.CrossedStaysShort | awex/transfer/nccl_comm.py:188-213 | two ranks that need two exchanges in opposite orders wait for each other for ever |
| Butterfly.ExecuteOpsConcurrent | awex/transfer/nccl_stream_batch.py:358-393 | one batch per peer that has operations, peers ascending |
| Butterfly.OtherRange | awex/transfer/nccl_stream_batch.py:254-269 | which half the rank is in and the bounds of the other half |
| Butterfly.ExecuteRound | awex/transfer/nccl_stream_batch.py:251-301 | the two phases of one round |
| Butterfly.ExecuteRecursivePartition | awex/transfer/nccl_stream_batch.py:218-314 | the schedule of all rounds, for any world size |
| Butterfly.OtherHalf | awex/transfer/nccl_stream_batch.py:254-269 | the peers a rank walks in a round are exactly the ranks in the opposite half of its partition |
| Butterfly.RoundsHave | awex/transfer/nccl_stream_batch.py:251-301 | a batch is scheduled if and only if the two ranks face each other in its round, its phase fits its direction and it is not empty |
| Butterfly.LowerSendsFirst | awex/transfer/nccl_stream_batch.py:276-301 | of two ranks that face each other the lower one sends in the first phase and the higher one in the second, each what it holds for the other |
| Butterfly.ButterflyWellFormed | awex/transfer/nccl_stream_batch.py:324-341 | both ends have every exchange in their programs, in orders that climb in (chunk, round, phase, sum of ranks), for every world size |
| Butterfly.OneDirection | awex/transfer/nccl_stream_batch.py:334-341 | within a phase no rank both sends and receives |
| Butterfly.ButterflyNeverStuck | awex/transfer/nccl_stream_batch.py:324-341 | no reachable state is stuck and every run ends, for every world size and any traffic |
| Butterfly.CoverageIffPowerOfTwo | awex/transfer/nccl_stream_batch.py:245-269 | every pair faces each other in exactly one round if and only if the world is a power of two, and otherwise some pair never does |
| Butterfly.MeetsTwice | awex/transfer/nccl_stream_batch.py:252-259 | a pair of an eleven-rank world that faces each other in two rounds |
| Butterfly.PlannedOnce | awex/transfer/nccl_stream_batch.py:251-301 | in a power of two, what one rank holds for another is planned as exactly one exchange, the same for both |
| Butterfly.DeliveredOnce | awex/transfer/nccl_stream_batch.py:251-301 | a finished run has carried each chunk's batch of each pair exactly once |
| Chunked.BuildChunk | awex/transfer/nccl_stream_batch.py:613-665 | the dictionary of one chunk: the chunk of every peer's list, peers with nothing left dropped |
| Chunked.RunChunked | awex/transfer/nccl_stream_batch.py:613-680 | one rank runs the schedule of every chunk in turn |
| Chunked.ChunkOfOp | awex/transfer/nccl_stream_batch.py:614-625 | operation k is in chunk k / step, at position k % step, and in no other chunk |
| Slices.ChunksJoin | awex/transfer/nccl_stream_batch.py:572-577 | enough chunks put together are the whole list |
| Chunked.OwnChunksEnough | awex/transfer/nccl_stream_batch.py:572-577 | the agreed number of chunks covers every list of every rank |
| Chunked.AgreedStepTight | awex/transfer/nccl_stream_batch.py:548-565 | the agreed step is the smallest proposed, at least one |
| Chunked.AgreedChunksTight | awex/transfer/nccl_stream_batch.py:572-600 | the agreed number of chunks covers every list of every rank, and one chunk less would cut some list short |
| Chunked.CutConsistent | awex/transfer/nccl_stream_batch.py:402-416 | chunk c on the sender is chunk c on the receiver |
| Chunked.DeliveredInOrder | awex/transfer/nccl_stream_batch.py:613-680 | every finished run delivers, between every two ranks, all chunks in their order |
| Chunked.ChunkedRefinesOneShot | awex/transfer/nccl_stream_batch.py:548-680 | whatever step sizes the ranks propose, the chunked and the one-shot transfer both deliver the full list between every two ranks |
| TwoPhase.Reduced | awex/transfer/nccl_comm.py:271-273 | dividing by the greatest common divisor is exact and leaves coprime numbers, so the inverse exists |
| TwoPhase.InverseWorks | awex/transfer/nccl_comm.py:274-274 | what the source takes for the modular inverse is one |
| TwoPhase.CyclePosAdvances | awex/transfer/nccl_comm.py:263-279 | along every edge of a stage the place on the cycle advances by exactly one, modulo the cycle's length |
| TwoPhase.CycleStarts | awex/transfer/nccl_comm.py:276-279 | every cycle is numbered from its lowest rank, and that rank sends first |
| TwoPhase.OppositeIffEven | awex/transfer/nccl_comm.py:263-279 | sender and receiver are in opposite partitions at every rank if and only if the cycles are of even length |
| CircleShift.EvenCyclesIffPowerOfTwo | awex/transfer/nccl_comm.py:263-279 | all stages alternate if and only if the world is a power of two |
| CircleShift.PairsAtOneStage | awex/transfer/nccl_comm.py:90-98 | every ordered pair meets at exactly one stage, (j - i) mod W, the same for sender and receiver |
| CircleShift.BuildStage | awex/transfer/nccl_comm.py:91-153 | one stage's sends, receives and self copies, or the inconsistent-plan error |
| CircleShift.BuildStages | awex/transfer/nccl_comm.py:87-157 | all stages' groups, or the first error |
| CircleShift.ExecuteStages | awex/transfer/nccl_comm.py:171-213 | the calls of every stage in two phases with a barrier after each |
| CircleShift.UpdateWeightsInColocateMode | awex/transfer/nccl_comm.py:58-224 | self copies and calls of one rank: the operations sent to and received from every other rank are, in order, exactly the plan's lists; refused exactly when the plan has an empty list for another rank |
| CircleShift.CallsCarry | awex/transfer/nccl_comm.py:99-137 | all stages together send every other rank its whole list in order, and receive from it what is expected |
| CircleShift.StagePhases | awex/transfer/nccl_comm.py:179-213 | a stage sends before its first barrier in partition 0 and after it in partition 1, and receives the other way |
| CircleShift.FaultIff | awex/transfer/nccl_comm.py:138-153 | the stages are refused exactly when the plan has an entry without operations for another rank |
| CircleShift.CircleWellFormed | awex/transfer/nccl_comm.py:171-213 | where traffic only joins ranks in opposite partitions, the programs with their barriers fit together, operation by operation |
| CircleShift.CircleNeverStuck | awex/transfer/nccl_comm.py:171-213 | then no reachable state is stuck and every run ends, in worlds of any size |
| CircleShift.CircleDelivers | awex/transfer/nccl_comm.py:171-213 | a finished run has moved every operation of every pair once, at the pair's own stage: the call of index k carries the k-th operation of the sender's list, which is the k-th of the receiver's |
| CircleShift.TogetherCross | awex/transfer/nccl_comm.py:179-213 | two ranks of one partition with something to send wait for each other across the barrier |
| CircleShift.CircleFinishesIffPassable | awex/transfer/nccl_comm.py:171-213 | for every consistent plan a run can finish if and only if everything sent joins ranks in opposite partitions at its stage |
| CircleShift.PassableIffPowerOfTwo | awex/transfer/nccl_comm.py:171-213 | powers of two let all traffic through, and no other size lets traffic between all ranks through |
| CircleShift.ThreeRanksMayPass | awex/transfer/nccl_comm.py:263-279 | a plan of three ranks, with traffic from rank 0 to rank 1 alone, that gets through |
| Colocate.ValidateRankMappings | awex/transfer/nccl_comm.py:244-260 | accepts exactly the pairs of mappings that undo each other |
| Colocate.ExecuteTensorsToCopy | awex/transfer/nccl_comm.py:226-236 | copies position by position, refusing lists of different lengths |
| Colocate.JoinedMoves | awex/transfer/nccl_comm.py:232-236 | a copy writes exactly where the receive operation says and reads, element for element, where the send operation says |
| Colocate.MapReceives | awex/transfer/nccl_stream_batch.py:466-471 | the receive plan under the device of each sender, or an unmapped sender |
| Colocate.PrepareDevice | awex/transfer/nccl_stream_batch.py:432-499 | a device's self copies, sends and receives; succeeds exactly when senders are mapped and the self lists are of one length |
| Colocate.DevicesAligned | awex/transfer/nccl_stream_batch.py:402-416 | what the devices of a colocated world hold for one another fits together |
| Colocate.DeviceReady | awex/transfer/nccl_stream_batch.py:432-499 | preparing a device of such a world succeeds |
| Colocate.AppliedIsPlan | awex/transfer/nccl_stream_batch.py:395-680 | copies and exchanges of any finished run apply the operations of the global plan and no others |
| Colocate.ColocatedUpdate | awex/transfer/nccl_stream_batch.py:395-680 | any step sizes, any finished run, its writes in any order: every inference element has the training value of its global index |
| EndToEnd.ResolvedBy | awex/meta/meta_resolver.py:90-207 | the metadata of a name comes from the reports of that name |
| EndToEnd.ResolvedWorld | awex/meta/meta_resolver.py:124-207 | metadata resolved from sound reports of equal global shapes meets every premise of the planner, training replicas in slabs |
| EndToEnd.ReportsExactlyOnce | awex/transfer/transfer_plan.py:183-272 | planned from the ranks' reports, every element of every inference shard of a common parameter is written exactly once |
| EndToEnd.ReportsAnyOrder | awex/transfer/transfer_plan.py:183-557 | run in any order, that plan leaves every such element with the training value of its global index |
| EndToEnd.ReportsConservation | awex/transfer/transfer_plan.py:782-798 | an inference rank's reported element count equals the elements of its shards of the common parameters, from the reports on |
| EndToEnd.ReportsColocatedUpdate | awex/transfer/nccl_stream_batch.py:395-680 | from reports to weights on shared devices: any step sizes, any finished run, its writes in any order |
| EndToEnd.ReportsSeparateUpdate | awex/writer/nccl_writer.py:306-325 | from reports to weights on separate devices: any finished run of single sends and receives, its writes in any order |
| Separated.BuiltCarries | awex/transfer/nccl_comm.py:387-422 | the k-th operation built is the operation of the plan that the k-th place names |
| Separated.SeparatedWellFormed | awex/writer/nccl_writer.py:306-325 | sent and received one by one in the order built, the operations of all ranks fit together |
| Separated.SeparatedNeverStuck | awex/reader/nccl_reader.py:410-437 | no reachable state is stuck and every run ends, for any number of ranks on either side |
| Separated.SeparatedDelivers | awex/reader/nccl_reader.py:410-437 | a finished run has moved each operation of each pair once, and nothing else |
| Separated.LocalPlansPaired | awex/transfer/transfer_plan.py:639-655 | the local plans of all ranks fit together as the schedule needs |
| Separated.WritesArePlan | awex/writer/nccl_writer.py:306-325 | a finished run writes the operations of the global plan and no others |
| QkvLayout.SplitGroups | awex/converter/mcore_converter.py:1118-1123 | query, key and value rows gathered group by group |
| QkvLayout.TransformMcoreQkv | awex/converter/mcore_converter.py:1085-1126 | the compact format split into all query, key and value rows, or the error, for weights and biases |
| QkvLayout.BuildKvShards | awex/converter/mcore_converter.py:1201-1208 | KV shards, repeated when there are more ranks than groups |
| QkvLayout.ConvertQkvAlongTpAttention | awex/converter/mcore_converter.py:1176-1226 | the regrouped tensor, or a training rank's chunk of it, with every error |
| Slices.TorchChunkEven | awex/converter/mcore_converter.py:1118-1118 | an even torch.chunk is n slices of one length |
| Slices.TorchChunkJoins | awex/converter/mcore_converter.py:1220-1225 | torch.chunk loses nothing, even or not |
| QkvLayout.CompactIsHeads | awex/converter/mcore_converter.py:1108-1118 | a compact tensor is nothing but its heads, group by group |
| QkvLayout.SplitIsHeads | awex/converter/mcore_converter.py:1112-1123 | splitting gives all query heads, all key heads and all value heads in order |
| QkvLayout.HeadSizeIff | awex/converter/mcore_converter.py:33-37 | a head has the configured rows, or the hidden size shared out exactly among the heads |
| QkvLayout.RegroupingKeepsHeads | awex/converter/mcore_converter.py:1193-1216 | the merged tensor is block after block: rank i's query heads, its key heads, its value heads; uncut training keeps all of it |
| QkvLayout.BlockAttends | awex/converter/mcore_converter.py:1187-1208 | a block's KV heads are exactly those its query heads attend to |
| QkvLayout.QueryHeadOnce | awex/converter/mcore_converter.py:1200-1200 | every query head is in exactly one block |
| QkvLayout.KvHeadCopies | awex/converter/mcore_converter.py:1201-1208 | every KV head is in max(1, ranks / groups) blocks |
| QkvLayout.TrainChunksJoin | awex/converter/mcore_converter.py:1217-1225 | the chunks the training ranks keep make up the merged tensor, for biases as for weights |
| MlaFusion.PackedChunk | awex/converter/mcore_converter.py:86-91 | chunk i of the packed tensor is rank i's query rows followed by its KV rows |
| MlaFusion.Converter.PackFused | awex/converter/mcore_converter.py:48-91 | the first shape error, or a tensor whose chunk for every inference rank is that rank's query rows followed by its KV rows |
| MlaFusion.Converter.FuseHalves | awex/converter/mcore_converter.py:889-907 | uncut attention gets all query rows and then all KV rows; cut attention a tensor whose chunk i is rank i's query rows and then its KV rows; refused exactly for shapes that do not allow it |
| MlaFusion.FuseLaysOut | awex/converter/mcore_converter.py:889-907 | so do the halves of a layer whatever the setting |
| MlaFusion.Converter.TryFuseQkvAProj | awex/converter/mcore_converter.py:873-910 | cache and output after one parameter: other parameters pass and change nothing, the first half and refused halves wait, and a fused layer leaves the cache; other layers stay as they were |
| MlaFusion.EveryLayerFusedOnce | awex/converter/mcore_converter.py:873-910 | in any arrival order every layer gets exactly one fused tensor, its own two projections in the layout that its readers cut or keep, and the cache ends empty |
| MlaFusion.OrderIrrelevant | awex/converter/mcore_converter.py:873-910 | what a layer gets, and what waits for it, does not depend on the order of arrival |
| PipelineLayers.LayersPerRank | awex/converter/mcore_converter.py:196-284 | layers per pipeline rank, with every configuration error |
| PipelineLayers.BuildStageLayerCounts | awex/converter/mcore_converter.py:193-314 | the table of stage counts, or the error that applies first |
| PipelineLayers.TableIff | awex/converter/mcore_converter.py:193-314 | a table comes out if and only if it is the one that gives the first and last rank their own sizes, shares the rest equally among the other ranks and each rank's layers among its stages, the embedding and the loss each counted as a layer |
| PipelineLayers.StartOffset | awex/converter/mcore_converter.py:352-361 | the layers of all stages before this one, virtual stage by virtual stage |
| PipelineLayers.TotalLayers | awex/converter/mcore_converter.py:363-363 | the sum of the table |
| PipelineLayers.ResolveStageIds | awex/converter/mcore_converter.py:345-370 | the id range of one stage, or the error |
| PipelineLayers.ResolveSplit | awex/converter/mcore_converter.py:317-370 | the resolver on a split configuration, errors in their order |
| PipelineLayers.StagesConsecutive | awex/converter/mcore_converter.py:345-370 | stage after stage, virtual stage by virtual stage, the resolved ids are exactly 0, 1, 2 and on to the last layer |
| PipelineLayers.EveryLayerOneStage | awex/converter/mcore_converter.py:345-370 | every layer id below the total is in the range of exactly one stage |
| PipelineLayers.TotalIffEndsFit | awex/converter/mcore_converter.py:222-305 | an accepted configuration accounts for all layers unless fixed first and last stages leave layers to no one, and only then |
| MetaLayers.CollectLocalIds | awex/meta/train_meta_resolver.py:243-255 | the dictionary holds the distinct local ids of every stage that shows one |
| MetaLayers.BuildPpStageLayerIdMap | awex/meta/train_meta_resolver.py:240-276 | the map built from the ranks' metadata, stage by stage |
| MetaLayers.StageMapHas | awex/meta/train_meta_resolver.py:265-275 | which stages the map has, and where each stage's numbering starts |
| MetaLayers.MetadataAgreesWithConfig | awex/meta/train_meta_resolver.py:240-276 | where the sizes agree, a stage's ids go, in their order, to exactly the configured range |
| MetaLayers.NumberingKeepsOrder | awex/meta/train_meta_resolver.py:262-275 | different layers never get the same global id, and later ones get larger ids |
| MetaLayers.EveryIdUsed | awex/meta/train_meta_resolver.py:262-275 | the map numbers from zero without gaps |
| MetaLayers.CanonicalizeRank | awex/meta/train_meta_resolver.py:286-309 | one rank's names are rewritten by the map; or the names before the first missing stage or layer are, that one is reported, and the rest stay |
| MetaLayers.RewriteNames | awex/meta/train_meta_resolver.py:279-311 | all ranks' names are rewritten, or some name is refused |
| MetaLayers.CanonicalizeMetadata | awex/meta/train_meta_resolver.py:186-189 | over the resulting names: those without a layer are unchanged, the new layers count from zero without gaps, ordered exactly as stages and local ids order them, and wherever the configured sizes agree a layer has the configured id of its place; refused exactly when some layers are inside the pipeline and some outside |
| MetaLayers.RewriteFailsOutsidePipeline | awex/meta/train_meta_resolver.py:286-309 | with the map built from the same metadata, a rewrite fails only on a rank outside the first rank's pipeline size |
| TensorGroups.BucketByKey | awex/util/tensor_util.py:214-222 | keys in order of first appearance, each with its tensors' positions |
| TensorGroups.CloseGroup | awex/util/tensor_util.py:244-260 | a group is concatenated and its members' offsets recorded |
| TensorGroups.AddTensor | awex/util/tensor_util.py:235-264 | a tensor joins the current group, which is closed once it is over the limit |
| TensorGroups.PackBucket | awex/util/tensor_util.py:227-285 | one key's groups and metadata |
| TensorGroups.GroupTensorsByShapeAndDtype | awex/util/tensor_util.py:186-289 | all groups and metadata; the error of concatenating scalars exactly when there is one |
| TensorGroups.KeysInOrder | awex/util/tensor_util.py:214-222 | keys come in the order of their first tensors |
| TensorGroups.GroupsByKey | awex/util/tensor_util.py:227-285 | key after key, the groups are the key's own tensors in order, each group closed as soon as it is over the limit and not before |
| TensorGroups.ReconstructTensorsFromGroups | awex/util/tensor_util.py:293-342 | the slots filled from the groups, or the first error |
| TensorGroups.GroupsWithinLimit | awex/util/tensor_util.py:235-264 | every group is non-empty, of one shape and dtype, and within the limit without its last tensor |
| TensorGroups.WholeGroupsFitIff | awex/util/tensor_util.py:186-264 | whole groups keep to the limit if and only if the tensors of every shape and dtype do so all together |
| TensorGroups.GroupOverLimit | awex/util/tensor_util.py:235-260 | two tensors of one byte each, put into one group over a limit of one byte |
| TensorGroups.EveryTensorGrouped | awex/util/tensor_util.py:214-285 | every tensor is in some group |
| TensorGroups.CutsBack | awex/util/tensor_util.py:331-341 | cutting a member out of its packed group gives the member |
| TensorGroups.RoundTripIffNonEmpty | awex/util/tensor_util.py:186-342 | packing and unpacking gives the tensors back in order if and only if none of them is empty |
| Handshake.WriterKeeps | awex/writer/nccl_writer.py:388-417 | a writer's move keeps its pair in step and the store in agreement with both |
| Handshake.ReaderKeeps | awex/reader/nccl_reader.py:442-500 | so does a reader's |
| Handshake.RunKeepsStep | awex/reader/nccl_reader.py:442-500 | every interleaving keeps all pairs in step, over any number of steps |
| Handshake.MappedIsShared | awex/reader/nccl_reader.py:288-323 | whatever a reader has mapped is shared by its writer right now, and is of the reader's step |
| Handshake.FreeAfterDrop | awex/writer/nccl_writer.py:401-406 | a writer frees only after its reader has dropped its mapping of that step and answered |
| Handshake.LeaveAfterFree | awex/reader/nccl_reader.py:490-500 | a reader leaves a step only after its writer freed that step's groups |
| Handshake.SomeoneCanMove | awex/reader/nccl_reader.py:442-500 | in every reachable state some party can move, the readers' barrier and exchange included, whichever readers exchange with one another |
| Handshake.EveryStepEnds | awex/reader/nccl_reader.py:442-500 | no pair is left behind: every run can be continued until all writers and readers have left the step they were in |
| Handshake.CanReach | awex/writer/nccl_writer.py:388-417 | every run can be continued until all parties stand at the beginning of any later step |
| Handshake.MapsSharedIffDistinct | awex/reader/nccl_reader.py:288-303 | readers map only what their writers share, in every run, if and only if no step id is used twice, for any number of pairs |
| Handshake.RepeatedIdMapsFreed | awex/reader/nccl_reader.py:288-303 | whenever two steps have one id, some run has a reader map groups that its writer does not share |
| Interleave.BuildOps | awex/transfer/nccl_comm.py:379-446 | the round-robin builder ends and gives every peer its operations in order, all first ones before all second ones and so on, peers ascending in each round, own copies apart |
| Interleave.InterleaveP2pOpsByPeer | awex/transfer/nccl_comm.py:491-521 | the same order over any list of operations, none lost or added |
| Interleave.RobinInOrder | awex/transfer/nccl_comm.py:497-521 | rounds put every peer's operations in their order, one per peer and round, peers ascending |
| Interleave.KeepsPeers | awex/transfer/nccl_comm.py:497-521 | interleaving keeps every peer's operations, all of them and in their order |
| Interleave.InterleavedIsFixed | awex/transfer/nccl_comm.py:491-521 | a list the rounds made is left as it is |
| Interleave.BuiltIsFixed | awex/transfer/nccl_comm.py:379-488 | so is whatever the builder made of a plan |
| Interleave.SliceContext.SliceTensor | awex/transfer/transfer_plan.py:690-727 | both sides get what slicing afresh would give; only the training side keeps what had to be made contiguous, and what is kept stays right |

## Left out

- HTTP, pickling, retries, timeouts, process and device management, streams, garbage
  collection: I/O. The handshake keeps an abstract key store with put, wait and delete.
- NCCL itself: an exchange of the recursive partition is one batch per pair that completes
  when both ranks are at it, lists matched position by position; all-reduced minimum and
  maximum are primitives. If an all-reduce fails, the source falls back to local values and
  warns that ranks may drift; that branch is not modelled.
- PlanStats.ComputePlanStats: the element count; counts of operations, bytes and hashes of the
  report are not modelled.
- Conversion between dtypes on the wire, logging, debug dumps.
- Parameter names as strings: parsing and rewriting of layer ids inside a name, suffix
  tests and the alias test are modelled on keys, ids and kinds; a slice's cache key is the
  pair of name and slices.
- The fields of an operation that only travel along (pp_rank, placement_version, param_class).
- QkvLayout.TransformMcoreQkv: the replicated and the 4 * hidden formats are reported as another
  format. A bias of replicated size is never taken as compact, as in the source.
- QkvLayout.ConvertQkvAlongTpAttention: refuses those formats likewise.
- QkvLayout.RegroupingKeepsHeads: heads, groups and ranks divide one another, as the layout
  needs; the method itself follows uneven chunks too.
- PipelineLayers.ResolveStageIds: a pipeline layout string is not parsed; the table of stage
  counts it gives is an argument.
- TransferPlan.BuildPairPlan: the shards of both sides have the same number of dimensions; the
  source indexes past a tuple otherwise.
- TransferPlan.BuildParameterPlan: likewise.
- TransferPlan.BuildWeightsMapping: likewise, for common parameters.
- Butterfly.ExecuteRecursivePartition: the number of rounds is the exact logarithm rounded down;
  the source computes it in floating point, which is the same for any world that exists.
- CircleShift.BuildStage: operations are opaque, so the assertions that compare an operation's
  ranks with the group it is in are not modelled; every operation of a local plan passes them
  (`LocalPlan.LocalPlanOps`).
- CircleShift.UpdateWeightsInColocateMode: likewise; the receive plan is keyed by the device of
  each sender, and the mapping from training ranks is in Colocate.
- Chunked.RunChunked: a rank's own proposal for the step size is an argument; the source derives
  it from bytes of a sample operation. The AWEX_CHUNK_OPS override, which fixes a rank's step
  size and skips the agreement on it, is not modelled.
- Colocate.PrepareDevice: the peers of a send plan are inference ranks, as in every local plan
  (`Colocate.DeviceReady`), so none of them is mapped. The branch for operations of another
  training rank under a device's own key is empty, because a rank's plan holds its own only.
- Interleave.BuildOps: one builder stands for sends and receives; making received slices
  contiguous is not modelled.
- Separated.SeparatedWellFormed: a send waits for its receive, the strictest reading of the
  source's wait; the barrier after all operations is not modelled.
- The handshake's exchange step waits for the readers it exchanges with to have mapped their
  weights; what is exchanged is the subject of Colocate.
- The unstepped keys of the meta server and barriers with reused keys, whose use across steps lies with callers elsewhere.
- Default sharding dimensions, configuration validation, the model registry, adapters and engines: one-branch facts.
