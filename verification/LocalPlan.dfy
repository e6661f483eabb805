/**
 The plan each rank builds for itself: pruned to the rank when there are many shards,
 filtered to it, grouped by the opposite rank, each group sorted. Pruning changes nothing,
 and the two ends of every pair hold the same list of operations.
 */
module LocalPlan {
  import opened Wrappers
  import opened Seqs
  import opened ShardMeta
  import opened TransferPlan
  import opened Reshard

  const PRUNE_THRESHOLD: nat := 10000

  // ----- filtering to a rank, grouping by the opposite rank

  function OwnRank(op: CommOp, isTrain: bool): nat { if isTrain then op.sendRank else op.recvRank }
  function PeerRank(op: CommOp, isTrain: bool): nat { if isTrain then op.recvRank else op.sendRank }

  function OwnedBy(rank: nat, isTrain: bool): CommOp -> bool {
    (op: CommOp) => OwnRank(op, isTrain) == rank
  }

  function WithPeer(peer: nat, isTrain: bool): CommOp -> bool {
    (op: CommOp) => PeerRank(op, isTrain) == peer
  }

  function Between(sender: nat, receiver: nat): CommOp -> bool {
    (op: CommOp) => op.sendRank == sender && op.recvRank == receiver
  }

  /** Lexicographic order on offset tuples. */
  predicate TupleBefore(a: seq<int>, b: seq<int>)
    decreases |a|
  {
    if a == [] then b != []
    else if b == [] then false
    else a[0] < b[0] || (a[0] == b[0] && TupleBefore(a[1..], b[1..]))
  }

  /** By parameter name, then send offset, then receive offset. */
  predicate OpBefore(x: CommOp, y: CommOp) {
    if x.sendShard.raw.name != y.sendShard.raw.name then x.sendShard.raw.name < y.sendShard.raw.name
    else if x.sendOffset != y.sendOffset then TupleBefore(x.sendOffset, y.sendOffset)
    else TupleBefore(x.recvOffset, y.recvOffset)
  }

  function SortOps(ops: seq<CommOp>): seq<CommOp> { StableSort(ops, OpBefore) }

  function Peers(ops: seq<CommOp>, isTrain: bool): set<nat> {
    if ops == [] then {} else Peers(ops[..|ops| - 1], isTrain) + {PeerRank(ops[|ops| - 1], isTrain)}
  }

  /** A rank's plan: for each opposite rank, the sorted list of operations shared with it. */
  function GroupByPeer(ops: seq<CommOp>, isTrain: bool): map<nat, seq<CommOp>> {
    map peer | peer in Peers(ops, isTrain) :: SortOps(Filter(ops, WithPeer(peer, isTrain)))
  }

  method GroupOperationsByRank(ops: seq<CommOp>, isTrain: bool) returns (grouped: map<nat, seq<CommOp>>)
    ensures grouped == GroupByPeer(ops, isTrain)
  {
    var unsorted := CollectByPeer(ops, isTrain);
    grouped := SortGroups(unsorted);
    assert forall peer :: peer in grouped ==> grouped[peer] == SortOps(Filter(ops, WithPeer(peer, isTrain)));
  }

  method SortGroups(groups: map<nat, seq<CommOp>>) returns (sorted: map<nat, seq<CommOp>>)
    ensures sorted.Keys == groups.Keys
    ensures forall peer :: peer in groups ==> sorted[peer] == SortOps(groups[peer])
  {
    sorted := groups;
    var keys := SortedKeys(groups.Keys);
    SortedKeysProperties(groups.Keys);
    for j := 0 to |keys|
      invariant sorted.Keys == groups.Keys
      invariant forall i :: 0 <= i < j ==> sorted[keys[i]] == SortOps(groups[keys[i]])
      invariant forall i :: j <= i < |keys| ==> sorted[keys[i]] == groups[keys[i]]
    {
      sorted := sorted[keys[j] := SortOps(sorted[keys[j]])];
    }
    forall peer | peer in groups ensures sorted[peer] == SortOps(groups[peer]) {
      assert peer in keys;
    }
  }

  method CollectByPeer(ops: seq<CommOp>, isTrain: bool) returns (grouped: map<nat, seq<CommOp>>)
    ensures grouped.Keys == Peers(ops, isTrain)
    ensures forall peer :: peer in grouped ==> grouped[peer] == Filter(ops, WithPeer(peer, isTrain))
  {
    grouped := map[];
    for i := 0 to |ops|
      invariant Collected(grouped, ops[..i], isTrain)
    {
      var key := PeerRank(ops[i], isTrain);
      CollectStep(grouped, ops, i, isTrain);
      grouped := grouped[key := PeerOps(grouped, key) + [ops[i]]];
    }
    assert ops[..|ops|] == ops;
    forall peer | peer in grouped ensures grouped[peer] == Filter(ops, WithPeer(peer, isTrain)) {
      assert PeerOps(grouped, peer) == Filter(ops, WithPeer(peer, isTrain));
    }
  }

  ghost predicate Collected(m: map<nat, seq<CommOp>>, ops: seq<CommOp>, isTrain: bool) {
    m.Keys == Peers(ops, isTrain) && forall peer: nat :: PeerOps(m, peer) == Filter(ops, WithPeer(peer, isTrain))
  }

  lemma CollectStep(m: map<nat, seq<CommOp>>, ops: seq<CommOp>, i: nat, isTrain: bool)
    requires i < |ops| && Collected(m, ops[..i], isTrain)
    ensures var key := PeerRank(ops[i], isTrain);
            Collected(m[key := PeerOps(m, key) + [ops[i]]], ops[..i + 1], isTrain)
  {
    var key := PeerRank(ops[i], isTrain);
    assert ops[..i + 1][..i] == ops[..i];
    forall peer: nat
      ensures PeerOps(m[key := PeerOps(m, key) + [ops[i]]], peer) == Filter(ops[..i + 1], WithPeer(peer, isTrain))
    {
      assert PeerOps(m, peer) == Filter(ops[..i], WithPeer(peer, isTrain));
    }
  }

  function PeerOps(m: map<nat, seq<CommOp>>, peer: nat): seq<CommOp> { if peer in m then m[peer] else [] }

  // ----- pruning

  /** The planner is asked for one rank's operations only. */
  function KeptFor(b: Builder, only: nat): CommOp -> bool { OwnedBy(only, only >= b.inferWorld) }

  function BoxOfRank(rank: nat): ShardOffset -> bool { (box: ShardOffset) => box.rank == rank }

  lemma {:induction false} PrunedBoxes(b: Builder, replica: seq<Shard>, engine: nat, isInfer: bool, rank: nat)
    ensures BoxesOf(b, replica, engine, isInfer, Some(rank))
            == Filter(BoxesOf(b, replica, engine, isInfer, None), BoxOfRank(rank))
  {
    if replica != [] {
      var last := |replica| - 1;
      PrunedBoxes(b, replica[..last], engine, isInfer, rank);
      var box := BoxOf(b, replica[last], engine, isInfer);
      FilterConcat(BoxesOf(b, replica[..last], engine, isInfer, None), [box], BoxOfRank(rank));
    }
  }

  /** The operations of one inference box, and of many, listed directly. */
  function WithOps(i: ShardOffset, trains: seq<ShardOffset>, n: nat): seq<CommOp>
    requires BoxDims(i, n) && Boxed(trains, n)
  {
    if trains == [] then [] else
      var last := |trains| - 1;
      WithOps(i, trains[..last], n)
      + (if Overlaps(i, trains[last], n) then [OpOf(RegionOf(i, trains[last], n), n)] else [])
  }

  function BoxOps(infs: seq<ShardOffset>, trains: seq<ShardOffset>, n: nat): seq<CommOp>
    requires Boxed(infs, n) && Boxed(trains, n)
  {
    if infs == [] then []
    else BoxOps(infs[..|infs| - 1], trains, n) + WithOps(infs[|infs| - 1], trains, n)
  }

  lemma {:induction false} OpListWith(i: ShardOffset, trains: seq<ShardOffset>, n: nat)
    requires BoxDims(i, n) && Boxed(trains, n)
    ensures AllBoxed(RegionsWith(i, trains, n), n)
    ensures OpList(RegionsWith(i, trains, n), n) == WithOps(i, trains, n)
  {
    RegionsWithBoxed(i, trains, n);
    if trains != [] {
      OpListWith(i, trains[..|trains| - 1], n);
    }
  }

  lemma {:induction false} OpListBoxes(infs: seq<ShardOffset>, trains: seq<ShardOffset>, n: nat)
    requires Boxed(infs, n) && Boxed(trains, n)
    ensures AllBoxed(Regions(infs, trains, n), n)
    ensures OpList(Regions(infs, trains, n), n) == BoxOps(infs, trains, n)
  {
    RegionsBoxed(infs, trains, n);
    if infs != [] {
      OpListBoxes(infs[..|infs| - 1], trains, n);
      OpListWith(infs[|infs| - 1], trains, n);
      OpListConcat(Regions(infs[..|infs| - 1], trains, n), RegionsWith(infs[|infs| - 1], trains, n), n);
    }
  }

  lemma OpListConcat(x: seq<Region>, y: seq<Region>, n: nat)
    requires AllBoxed(x, n) && AllBoxed(y, n) && AllBoxed(x + y, n)
    ensures OpList(x + y, n) == OpList(x, n) + OpList(y, n)
  {}

  lemma {:induction false} BoxedFilter(boxes: seq<ShardOffset>, n: nat, rank: nat)
    requires Boxed(boxes, n)
    ensures Boxed(Filter(boxes, BoxOfRank(rank)), n)
  {
    if boxes != [] {
      BoxedFilter(boxes[..|boxes| - 1], n, rank);
    }
  }

  /** Filtering the training boxes first, or the operations after, comes to the same. */
  lemma {:induction false} PrunedWith(i: ShardOffset, trains: seq<ShardOffset>, n: nat, rank: nat)
    requires BoxDims(i, n) && Boxed(trains, n) && Boxed(Filter(trains, BoxOfRank(rank)), n)
    ensures WithOps(i, Filter(trains, BoxOfRank(rank)), n) == Filter(WithOps(i, trains, n), OwnedBy(rank, true))
  {
    if trains != [] {
      var last := |trains| - 1;
      var few, ops := Filter(trains[..last], BoxOfRank(rank)), WithOps(i, trains[..last], n);
      BoxedFilter(trains[..last], n, rank);
      PrunedWith(i, trains[..last], n, rank);
      var tail := if Overlaps(i, trains[last], n) then [OpOf(RegionOf(i, trains[last], n), n)] else [];
      FilterConcat(ops, tail, OwnedBy(rank, true));
      if trains[last].rank == rank {
        assert Filter(tail, OwnedBy(rank, true)) == tail;
        assert (few + [trains[last]])[..|few|] == few;
        assert WithOps(i, few + [trains[last]], n) == WithOps(i, few, n) + tail;
      } else {
        assert Filter(tail, OwnedBy(rank, true)) == [];
        assert Filter(trains, BoxOfRank(rank)) == few;
      }
    }
  }

  lemma {:induction false} PrunedTrains(infs: seq<ShardOffset>, trains: seq<ShardOffset>, n: nat, rank: nat)
    requires Boxed(infs, n) && Boxed(trains, n) && Boxed(Filter(trains, BoxOfRank(rank)), n)
    ensures BoxOps(infs, Filter(trains, BoxOfRank(rank)), n) == Filter(BoxOps(infs, trains, n), OwnedBy(rank, true))
  {
    if infs != [] {
      var last := |infs| - 1;
      PrunedTrains(infs[..last], trains, n, rank);
      PrunedWith(infs[last], trains, n, rank);
      FilterConcat(BoxOps(infs[..last], trains, n), WithOps(infs[last], trains, n), OwnedBy(rank, true));
    }
  }

  lemma {:induction false} PrunedInfers(infs: seq<ShardOffset>, trains: seq<ShardOffset>, n: nat, rank: nat)
    requires Boxed(infs, n) && Boxed(trains, n) && Boxed(Filter(infs, BoxOfRank(rank)), n)
    ensures BoxOps(Filter(infs, BoxOfRank(rank)), trains, n) == Filter(BoxOps(infs, trains, n), OwnedBy(rank, false))
  {
    if infs != [] {
      var last := |infs| - 1;
      var fewer, own := Filter(infs[..last], BoxOfRank(rank)), WithOps(infs[last], trains, n);
      BoxedFilter(infs[..last], n, rank);
      PrunedInfers(infs[..last], trains, n, rank);
      FilterConcat(BoxOps(infs[..last], trains, n), own, OwnedBy(rank, false));
      WithOwnRank(infs[last], trains, n);
      if infs[last].rank == rank {
        FilterAll(own, OwnedBy(rank, false));
        assert (fewer + [infs[last]])[..|fewer|] == fewer;
      } else {
        FilterNone(own, OwnedBy(rank, false));
        assert Filter(infs, BoxOfRank(rank)) == fewer;
      }
    }
  }

  lemma {:induction false} WithOwnRank(i: ShardOffset, trains: seq<ShardOffset>, n: nat)
    requires BoxDims(i, n) && Boxed(trains, n)
    ensures forall op :: op in WithOps(i, trains, n) ==> op.recvRank == i.rank
  {
    if trains != [] {
      WithOwnRank(i, trains[..|trains| - 1], n);
    }
  }

  /** The planner's operations, once none of them joins the wrong worlds. */
  lemma {:induction false} OpsOfIff(b: Builder, regions: seq<Region>, n: nat)
    requires AllBoxed(regions, n)
    ensures OpsOf(b, regions, n).Ok? <==> forall op :: op in OpList(regions, n) ==> RankError(b, op).None?
    ensures OpsOf(b, regions, n).Ok? ==> OpsOf(b, regions, n).value == OpList(regions, n)
  {
    if regions != [] {
      var last := |regions| - 1;
      OpsOfIff(b, regions[..last], n);
      assert OpList(regions, n) == OpList(regions[..last], n) + [OpOf(regions[last], n)];
    }
  }

  /** A pair's plan, from its boxes. */
  lemma PlanOfBoxes(b: Builder, p: Pair, only: Option<nat>, n: nat, infs: seq<ShardOffset>, trains: seq<ShardOffset>)
    requires Dims(p.inf, n) && Dims(p.train, n) && p.inf != [] && p.train != []
    requires PlacementError(p.inf).None? && PlacementError(p.train).None?
    requires infs == BoxesOf(b, p.inf, p.engine, true, OnlyInfer(b, only))
    requires trains == BoxesOf(b, p.train, 0, false, OnlyTrain(b, only))
    ensures Boxed(infs, n) && Boxed(trains, n) && AllBoxed(Regions(infs, trains, n), n)
    ensures PairPlan(b, p.inf, p.engine, p.train, only, n) == OpsOf(b, Regions(infs, trains, n), n)
  {
    BoxesBoxed(b, p.inf, p.engine, true, OnlyInfer(b, only), n);
    BoxesBoxed(b, p.train, 0, false, OnlyTrain(b, only), n);
    RegionsBoxed(infs, trains, n);
  }

  lemma PrunedPair(b: Builder, p: Pair, n: nat, rank: nat)
    requires Dims(p.inf, n) && Dims(p.train, n)
    requires PairPlan(b, p.inf, p.engine, p.train, None, n).Ok?
    ensures PairPlan(b, p.inf, p.engine, p.train, Some(rank), n)
         == Ok(Filter(PairPlan(b, p.inf, p.engine, p.train, None, n).value, KeptFor(b, rank)))
  {
    var infs, trains := InfBoxes(b, p), TrainBoxes(b, p);
    PlanOfBoxes(b, p, None, n, infs, trains);
    OpListBoxes(infs, trains, n);
    OpsOfIff(b, Regions(infs, trains, n), n);
    if rank < b.inferWorld {
      PrunedBoxes(b, p.inf, p.engine, true, rank);
      PlanOfBoxes(b, p, Some(rank), n, Filter(infs, BoxOfRank(rank)), trains);
      PrunedInfer(b, infs, trains, n, rank);
    } else {
      PrunedBoxes(b, p.train, 0, false, rank);
      PlanOfBoxes(b, p, Some(rank), n, infs, Filter(trains, BoxOfRank(rank)));
      PrunedTrain(b, infs, trains, n, rank);
    }
  }

  lemma PrunedInfer(b: Builder, infs: seq<ShardOffset>, trains: seq<ShardOffset>, n: nat, rank: nat)
    requires Boxed(infs, n) && Boxed(trains, n) && rank < b.inferWorld
    requires forall op :: op in BoxOps(infs, trains, n) ==> RankError(b, op).None?
    ensures var kept := Filter(infs, BoxOfRank(rank));
            && Boxed(kept, n) && AllBoxed(Regions(kept, trains, n), n)
            && OpsOf(b, Regions(kept, trains, n), n) == Ok(Filter(BoxOps(infs, trains, n), KeptFor(b, rank)))
  {
    BoxedFilter(infs, n, rank);
    PrunedInfers(infs, trains, n, rank);
    PrunedOps(b, Filter(infs, BoxOfRank(rank)), trains, n, BoxOps(infs, trains, n), KeptFor(b, rank));
  }

  lemma PrunedTrain(b: Builder, infs: seq<ShardOffset>, trains: seq<ShardOffset>, n: nat, rank: nat)
    requires Boxed(infs, n) && Boxed(trains, n) && rank >= b.inferWorld
    requires forall op :: op in BoxOps(infs, trains, n) ==> RankError(b, op).None?
    ensures var kept := Filter(trains, BoxOfRank(rank));
            && Boxed(kept, n) && AllBoxed(Regions(infs, kept, n), n)
            && OpsOf(b, Regions(infs, kept, n), n) == Ok(Filter(BoxOps(infs, trains, n), KeptFor(b, rank)))
  {
    BoxedFilter(trains, n, rank);
    PrunedTrains(infs, trains, n, rank);
    PrunedOps(b, infs, Filter(trains, BoxOfRank(rank)), n, BoxOps(infs, trains, n), KeptFor(b, rank));
  }

  lemma PrunedOps(b: Builder, infs: seq<ShardOffset>, trains: seq<ShardOffset>, n: nat, all: seq<CommOp>,
                  kept: CommOp -> bool)
    requires Boxed(infs, n) && Boxed(trains, n) && BoxOps(infs, trains, n) == Filter(all, kept)
    requires forall op :: op in all ==> RankError(b, op).None?
    ensures AllBoxed(Regions(infs, trains, n), n) && OpsOf(b, Regions(infs, trains, n), n) == Ok(Filter(all, kept))
  {
    OpListBoxes(infs, trains, n);
    OpsOfIff(b, Regions(infs, trains, n), n);
    forall op | op in Filter(all, kept) ensures RankError(b, op).None? {
      FilterIn(all, kept, op);
    }
  }

  lemma {:induction false} PrunedPairs(b: Builder, pairs: seq<Pair>, n: nat, rank: nat)
    requires PairsDims(pairs, n) && PairsPlan(b, pairs, None, n).Ok?
    ensures PairsPlan(b, pairs, Some(rank), n) == Ok(Filter(PairsPlan(b, pairs, None, n).value, KeptFor(b, rank)))
  {
    if pairs != [] {
      var last := |pairs| - 1;
      PrunedPairs(b, pairs[..last], n, rank);
      PrunedPair(b, pairs[last], n, rank);
      FilterConcat(PairsPlan(b, pairs[..last], None, n).value,
                   PairPlan(b, pairs[last].inf, pairs[last].engine, pairs[last].train, None, n).value,
                   KeptFor(b, rank));
    }
  }

  lemma {:induction false} PrunedNames(b: Builder, ims: map<nat, ParamMeta>, tms: map<nat, ParamMeta>, names: seq<nat>,
                                       rank: nat)
    requires AllCompatible(ims, tms)
    requires forall k :: 0 <= k < |names| ==> names[k] in ims && names[k] in tms
    requires NamesPlan(b, ims, tms, names, None).Ok?
    ensures NamesPlan(b, ims, tms, names, Some(rank))
         == Ok(Filter(NamesPlan(b, ims, tms, names, None).value, KeptFor(b, rank)))
  {
    if names != [] {
      var last := |names| - 1;
      var im, tm := ims[names[last]], tms[names[last]];
      PrunedNames(b, ims, tms, names[..last], rank);
      PrunedParameter(b, im, tm, rank);
      FilterConcat(NamesPlan(b, ims, tms, names[..last], None).value, ParameterPlan(b, im, tm, None).value,
                   KeptFor(b, rank));
    }
  }

  lemma PrunedParameter(b: Builder, im: ParamMeta, tm: ParamMeta, rank: nat)
    requires Compatible(im, tm) && ParameterPlan(b, im, tm, None).Ok?
    ensures ParameterPlan(b, im, tm, Some(rank)) == Ok(Filter(ParameterPlan(b, im, tm, None).value, KeptFor(b, rank)))
  {
    PairListDims(b, im, tm);
    PrunedPairs(b, PairList(b, im, tm), DimCount(tm), rank);
  }

  /** Planning for one rank alone gives exactly that rank's part of the global plan, in order. */
  lemma PruningRefinesFiltering(b: Builder, inferMetas: seq<ParamMeta>, trainMetas: seq<ParamMeta>, rank: nat)
    requires AllCompatible(ByName(inferMetas), ByName(trainMetas))
    requires MappingPlan(b, inferMetas, trainMetas, None).Ok?
    ensures MappingPlan(b, inferMetas, trainMetas, Some(rank))
         == Ok(Filter(MappingPlan(b, inferMetas, trainMetas, None).value, KeptFor(b, rank)))
  {
    if inferMetas != [] && trainMetas != [] {
      var ims, tms := ByName(inferMetas), ByName(trainMetas);
      CommonNames(ims, tms);
      PrunedNames(b, ims, tms, SortedKeys(ims.Keys * tms.Keys), rank);
    }
  }

  // ----- the local plan

  function ShardCount(metas: seq<ParamMeta>): nat {
    if metas == [] then 0
    else ShardCount(metas[..|metas| - 1]) + |Flatten(metas[|metas| - 1].replicas)|
  }

  predicate Prunes(b: Builder, inferMetas: seq<ParamMeta>, trainMetas: seq<ParamMeta>) {
    ShardCount(inferMetas) * b.numEngines + ShardCount(trainMetas) > PRUNE_THRESHOLD
  }

  ghost function LocalPlanOf(b: Builder, inferMetas: seq<ParamMeta>, trainMetas: seq<ParamMeta>, rank: nat)
    : Result<map<nat, seq<CommOp>>, PlanError>
    requires AllCompatible(ByName(inferMetas), ByName(trainMetas))
  {
    var isTrain := rank >= b.inferWorld;
    match MappingPlan(b, inferMetas, trainMetas, if Prunes(b, inferMetas, trainMetas) then Some(rank) else None)
    case Err(e) => Err(e)
    case Ok(ops) => Ok(GroupByPeer(Filter(ops, OwnedBy(rank, isTrain)), isTrain))
  }

  method BuildLocalTransferPlan(b: Builder, inferMetas: seq<ParamMeta>, trainMetas: seq<ParamMeta>, rank: nat)
    returns (r: Result<map<nat, seq<CommOp>>, PlanError>)
    requires AllCompatible(ByName(inferMetas), ByName(trainMetas))
    ensures r == LocalPlanOf(b, inferMetas, trainMetas, rank)
  {
    var isTrain := rank >= b.inferWorld;
    var operations;
    if Prunes(b, inferMetas, trainMetas) {
      operations := BuildWeightsMapping(b, inferMetas, trainMetas, Some(rank));
    } else {
      operations := BuildWeightsMapping(b, inferMetas, trainMetas, None);
    }
    if operations.Err? {
      return Err(operations.error);
    }
    var ops, own: seq<CommOp> := operations.value, [];
    for i := 0 to |ops|
      invariant own == Filter(ops[..i], OwnedBy(rank, isTrain))
    {
      assert ops[..i + 1][..i] == ops[..i];
      if isTrain {
        if ops[i].sendRank == rank {
          own := own + [ops[i]];
        }
      } else {
        if ops[i].recvRank == rank {
          own := own + [ops[i]];
        }
      }
    }
    assert ops[..|ops|] == ops;
    var grouped := GroupOperationsByRank(own, isTrain);
    r := Ok(grouped);
  }

  lemma {:induction false} PeersHas(ops: seq<CommOp>, isTrain: bool, peer: nat)
    ensures peer in Peers(ops, isTrain) <==> Filter(ops, WithPeer(peer, isTrain)) != []
  {
    if ops != [] {
      PeersHas(ops[..|ops| - 1], isTrain, peer);
    }
  }

  /** A rank's plan does not depend on whether the planner pruned for it. */
  lemma LocalPlanIsGroupedPart(b: Builder, inferMetas: seq<ParamMeta>, trainMetas: seq<ParamMeta>, rank: nat)
    requires AllCompatible(ByName(inferMetas), ByName(trainMetas))
    requires MappingPlan(b, inferMetas, trainMetas, None).Ok?
    ensures var isTrain, all := rank >= b.inferWorld, MappingPlan(b, inferMetas, trainMetas, None).value;
            LocalPlanOf(b, inferMetas, trainMetas, rank)
              == Ok(GroupByPeer(Filter(all, OwnedBy(rank, isTrain)), isTrain))
  {
    var isTrain, all := rank >= b.inferWorld, MappingPlan(b, inferMetas, trainMetas, None).value;
    PruningRefinesFiltering(b, inferMetas, trainMetas, rank);
    FilterTwice(all, OwnedBy(rank, isTrain), OwnedBy(rank, isTrain), OwnedBy(rank, isTrain));
  }

  /** Sender and receiver hold, each under the other's rank, the same list of operations. */
  lemma PeersAgree(b: Builder, inferMetas: seq<ParamMeta>, trainMetas: seq<ParamMeta>, sender: nat, receiver: nat)
    requires AllCompatible(ByName(inferMetas), ByName(trainMetas))
    requires MappingPlan(b, inferMetas, trainMetas, None).Ok?
    requires receiver < b.inferWorld <= sender
    ensures var sends := LocalPlanOf(b, inferMetas, trainMetas, sender);
            var recvs := LocalPlanOf(b, inferMetas, trainMetas, receiver);
            && sends.Ok? && recvs.Ok?
            && PeerOps(sends.value, receiver) == PeerOps(recvs.value, sender)
            && (receiver in sends.value <==> sender in recvs.value)
    ensures var shared := Filter(MappingPlan(b, inferMetas, trainMetas, None).value, Between(sender, receiver));
            && PeerOps(LocalPlanOf(b, inferMetas, trainMetas, sender).value, receiver) == SortOps(shared)
            && (receiver in LocalPlanOf(b, inferMetas, trainMetas, sender).value <==> shared != [])
  {
    var all := MappingPlan(b, inferMetas, trainMetas, None).value;
    var own, theirs := Filter(all, OwnedBy(sender, true)), Filter(all, OwnedBy(receiver, false));
    LocalPlanIsGroupedPart(b, inferMetas, trainMetas, sender);
    LocalPlanIsGroupedPart(b, inferMetas, trainMetas, receiver);
    FilterTwice(all, OwnedBy(sender, true), WithPeer(receiver, true), Between(sender, receiver));
    FilterTwice(all, OwnedBy(receiver, false), WithPeer(sender, false), Between(sender, receiver));
    PeersHas(own, true, receiver);
    PeersHas(theirs, false, sender);
    assert SortOps([]) == [];
  }

  /** A training rank's plan has what it sends and an inference rank's what it receives, under the other rank. */
  lemma LocalPlanOps(b: Builder, inferMetas: seq<ParamMeta>, trainMetas: seq<ParamMeta>, rank: nat, peer: nat,
                     op: CommOp)
    requires AllCompatible(ByName(inferMetas), ByName(trainMetas))
    requires MappingPlan(b, inferMetas, trainMetas, None).Ok?
    ensures LocalPlanOf(b, inferMetas, trainMetas, rank).Ok?
    ensures op in PeerOps(LocalPlanOf(b, inferMetas, trainMetas, rank).value, peer)
       <==> op in MappingPlan(b, inferMetas, trainMetas, None).value
            && if rank >= b.inferWorld then op.sendRank == rank && op.recvRank == peer
               else op.recvRank == rank && op.sendRank == peer
  {
    var isTrain, all := rank >= b.inferWorld, MappingPlan(b, inferMetas, trainMetas, None).value;
    var own := Filter(all, OwnedBy(rank, isTrain));
    LocalPlanIsGroupedPart(b, inferMetas, trainMetas, rank);
    var group := Filter(own, WithPeer(peer, isTrain));
    PeersHas(own, isTrain, peer);
    StableSortPermutes(group, OpBefore);
    assert op in SortOps(group) <==> op in multiset(SortOps(group));
    assert op in group <==> op in multiset(group);
    FilterIn(own, WithPeer(peer, isTrain), op);
    FilterIn(all, OwnedBy(rank, isTrain), op);
  }

  // ----- every operation joins a training rank to an inference rank

  lemma PairRanks(b: Builder, p: Pair, n: nat, op: CommOp)
    requires Dims(p.inf, n) && Dims(p.train, n)
    requires PairPlan(b, p.inf, p.engine, p.train, None, n).Ok? &&
             op in PairPlan(b, p.inf, p.engine, p.train, None, n).value
    ensures op.recvRank < b.inferWorld <= op.sendRank
  {
    BoxesBoxed(b, p.inf, p.engine, true, None, n);
    BoxesBoxed(b, p.train, 0, false, None, n);
    RegionsBoxed(InfBoxes(b, p), TrainBoxes(b, p), n);
    OpsOfIff(b, Regions(InfBoxes(b, p), TrainBoxes(b, p), n), n);
    assert RankError(b, op).None?;
  }

  lemma {:induction false} PairsRanks(b: Builder, pairs: seq<Pair>, n: nat, op: CommOp)
    requires PairsDims(pairs, n) && PairsPlan(b, pairs, None, n).Ok? && op in PairsPlan(b, pairs, None, n).value
    ensures op.recvRank < b.inferWorld <= op.sendRank
  {
    var last := |pairs| - 1;
    if op in PairsPlan(b, pairs[..last], None, n).value {
      PairsRanks(b, pairs[..last], n, op);
    } else {
      PairRanks(b, pairs[last], n, op);
    }
  }

  lemma {:induction false} NamesRanks(b: Builder, ims: map<nat, ParamMeta>, tms: map<nat, ParamMeta>, names: seq<nat>,
                                      op: CommOp)
    requires AllCompatible(ims, tms) && forall k :: 0 <= k < |names| ==> names[k] in ims && names[k] in tms
    requires NamesPlan(b, ims, tms, names, None).Ok? && op in NamesPlan(b, ims, tms, names, None).value
    ensures op.recvRank < b.inferWorld <= op.sendRank
  {
    var last := |names| - 1;
    var im, tm := ims[names[last]], tms[names[last]];
    if op in NamesPlan(b, ims, tms, names[..last], None).value {
      NamesRanks(b, ims, tms, names[..last], op);
    } else {
      PairListDims(b, im, tm);
      PairsRanks(b, PairList(b, im, tm), DimCount(tm), op);
    }
  }

  lemma MappingRanks(b: Builder, inferMetas: seq<ParamMeta>, trainMetas: seq<ParamMeta>, op: CommOp)
    requires AllCompatible(ByName(inferMetas), ByName(trainMetas))
    requires MappingPlan(b, inferMetas, trainMetas, None).Ok? &&
             op in MappingPlan(b, inferMetas, trainMetas, None).value
    ensures op.recvRank < b.inferWorld <= op.sendRank
  {
    var ims, tms := ByName(inferMetas), ByName(trainMetas);
    CommonNames(ims, tms);
    NamesRanks(b, ims, tms, SortedKeys(ims.Keys * tms.Keys), op);
  }

  /** No list of a rank's plan is empty. */
  lemma LocalPlanNotEmpty(b: Builder, inferMetas: seq<ParamMeta>, trainMetas: seq<ParamMeta>, rank: nat, peer: nat)
    returns (op: CommOp)
    requires AllCompatible(ByName(inferMetas), ByName(trainMetas)) && MappingPlan(b, inferMetas, trainMetas, None).Ok?
    requires LocalPlanOf(b, inferMetas, trainMetas, rank).Ok? &&
             peer in LocalPlanOf(b, inferMetas, trainMetas, rank).value
    ensures op in PeerOps(LocalPlanOf(b, inferMetas, trainMetas, rank).value, peer)
  {
    var isTrain := rank >= b.inferWorld;
    LocalPlanIsGroupedPart(b, inferMetas, trainMetas, rank);
    PeersHas(Filter(MappingPlan(b, inferMetas, trainMetas, None).value, OwnedBy(rank, isTrain)), isTrain, peer);
    op := PeerOps(LocalPlanOf(b, inferMetas, trainMetas, rank).value, peer)[0];
  }

  // ----- the order within a group

  lemma {:induction false} TupleOrder(a: seq<int>, c: seq<int>, d: seq<int>)
    ensures TupleBefore(a, c) ==> !TupleBefore(c, a)
    ensures TupleBefore(a, d) ==> TupleBefore(a, c) || TupleBefore(c, d)
    ensures a == c || TupleBefore(a, c) || TupleBefore(c, a)
    decreases |a|
  {
    if a != [] && c != [] {
      TupleOrder(a[1..], c[1..], if d == [] then [] else d[1..]);
      assert a[0] == c[0] && a[1..] == c[1..] ==> a == [a[0]] + a[1..] && c == [c[0]] + c[1..];
    }
  }

  lemma OpOrder()
    ensures StrictWeakOrder(OpBefore)
  {
    forall x, y ensures OpBefore(x, y) ==> !OpBefore(y, x) {
      TupleOrder(x.sendOffset, y.sendOffset, []);
      TupleOrder(x.recvOffset, y.recvOffset, []);
    }
    forall x, y, z ensures OpBefore(x, z) ==> OpBefore(x, y) || OpBefore(y, z) {
      TupleOrder(x.sendOffset, y.sendOffset, z.sendOffset);
      TupleOrder(y.sendOffset, z.sendOffset, x.sendOffset);
      TupleOrder(x.sendOffset, z.sendOffset, y.sendOffset);
      TupleOrder(x.recvOffset, y.recvOffset, z.recvOffset);
    }
  }

  /** At the first place where two tuples differ the one has the smaller entry, or has ended. */
  ghost predicate LexBefore(a: seq<int>, b: seq<int>) {
    exists d :: 0 <= d < |b| && FirstDifference(a, b, d)
  }

  predicate FirstDifference(a: seq<int>, b: seq<int>, d: nat)
    requires d < |b|
  {
    d <= |a| && a[..d] == b[..d] && (d == |a| || a[d] < b[d])
  }

  lemma {:induction false} TupleBeforeIff(a: seq<int>, b: seq<int>)
    ensures TupleBefore(a, b) <==> LexBefore(a, b)
    decreases |a|
  {
    if b == [] {
    } else if a == [] || a[0] < b[0] {
      assert FirstDifference(a, b, 0);
    } else if a[0] > b[0] {
      forall d | 0 <= d < |b| ensures !FirstDifference(a, b, d) {
        assert 0 < d <= |a| ==> a[..d][0] != b[..d][0];
      }
    } else {
      TupleBeforeIff(a[1..], b[1..]);
      forall d | 0 < d < |b| ensures FirstDifference(a, b, d) <==> FirstDifference(a[1..], b[1..], d - 1) {
        SameTail(a, b, d);
      }
      if LexBefore(a[1..], b[1..]) {
        var d :| 0 <= d < |b[1..]| && FirstDifference(a[1..], b[1..], d);
        assert FirstDifference(a, b, d + 1);
      }
    }
  }

  lemma SameTail(a: seq<int>, b: seq<int>, d: nat)
    requires a != [] && b != [] && a[0] == b[0] && 0 < d < |b|
    ensures FirstDifference(a, b, d) <==> FirstDifference(a[1..], b[1..], d - 1)
  {
    if d <= |a| {
      assert a[..d] == [a[0]] + a[1..][..d - 1];
      assert b[..d] == [b[0]] + b[1..][..d - 1];
      if a[..d] == b[..d] {
        assert a[..d][1..] == b[..d][1..];
        assert a[1..][..d - 1] == b[1..][..d - 1];
      }
    }
  }

  /** The smaller name comes first, within a name the smaller send offset, within that the smaller receive offset. */
  ghost predicate InKeyOrder(x: CommOp, y: CommOp) {
    && x.sendShard.raw.name <= y.sendShard.raw.name
    && (x.sendShard.raw.name == y.sendShard.raw.name ==>
          && !LexBefore(y.sendOffset, x.sendOffset)
          && (x.sendOffset == y.sendOffset ==> !LexBefore(y.recvOffset, x.recvOffset)))
  }

  lemma NotBeforeInOrder(x: CommOp, y: CommOp)
    requires !OpBefore(y, x)
    ensures InKeyOrder(x, y)
  {
    TupleBeforeIff(y.sendOffset, x.sendOffset);
    TupleBeforeIff(y.recvOffset, x.recvOffset);
    TupleOrder(x.sendOffset, x.sendOffset, x.sendOffset);
  }

  /** Each group is the rank's operations with that peer, by name, send offset and receive offset, ties as planned. */
  lemma GroupsSorted(ops: seq<CommOp>, isTrain: bool, peer: nat, pivot: CommOp)
    requires peer in Peers(ops, isTrain)
    ensures var group, raw := GroupByPeer(ops, isTrain)[peer], Filter(ops, WithPeer(peer, isTrain));
            && multiset(group) == multiset(raw) && Ascending(group, OpBefore)
            && (forall i, j :: 0 <= i < j < |group| ==> InKeyOrder(group[i], group[j]))
            && Filter(group, Tied(OpBefore, pivot)) == Filter(raw, Tied(OpBefore, pivot))
  {
    SortedStably(Filter(ops, WithPeer(peer, isTrain)), pivot);
    var group := GroupByPeer(ops, isTrain)[peer];
    forall i, j | 0 <= i < j < |group| ensures InKeyOrder(group[i], group[j]) {
      NotBeforeInOrder(group[i], group[j]);
    }
  }

  lemma SortedStably(raw: seq<CommOp>, pivot: CommOp)
    ensures multiset(SortOps(raw)) == multiset(raw) && Ascending(SortOps(raw), OpBefore)
    ensures Filter(SortOps(raw), Tied(OpBefore, pivot)) == Filter(raw, Tied(OpBefore, pivot))
  {
    OpOrder();
    StableSortPermutes(raw, OpBefore);
    StableSortAscends(raw, OpBefore);
    StableSortStable(raw, OpBefore, pivot);
  }
}
