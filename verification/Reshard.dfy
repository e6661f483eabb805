/**
 What a transfer plan means: applied in any order, its operations write every element of
 every inference shard exactly once, with the training value at the same global index.
 */
module Reshard {
  import opened Wrappers
  import opened Arithmetic
  import opened ShardMeta
  import opened TransferPlan

  /** An element of the tensor a rank holds for a parameter. */
  datatype Loc = Loc(rank: nat, name: nat, idx: seq<int>)

  predicate Covers(op: CommOp, loc: Loc) {
    && op.recvRank == loc.rank && op.recvShard.raw.name == loc.name
    && |loc.idx| == |op.infSlices|
    && forall d :: 0 <= d < |loc.idx| ==> op.infSlices[d].start <= loc.idx[d] < op.infSlices[d].stop
  }

  /** Where the copy of the train slice onto the infer slice takes an element from. */
  function SourceOf(op: CommOp, loc: Loc): Loc
    requires |op.trainSlices| == |op.infSlices| == |loc.idx|
  {
    Loc(op.sendRank, op.sendShard.raw.name,
        seq(|loc.idx|, d requires 0 <= d < |loc.idx| => op.trainSlices[d].start + (loc.idx[d] - op.infSlices[d].start)))
  }

  function CoverCount(ops: seq<CommOp>, loc: Loc): nat {
    if ops == [] then 0
    else CoverCount(ops[..|ops| - 1], loc) + (if Covers(ops[|ops| - 1], loc) then 1 else 0)
  }

  lemma {:induction false} CoverCountConcat(a: seq<CommOp>, c: seq<CommOp>, loc: Loc)
    ensures CoverCount(a + c, loc) == CoverCount(a, loc) + CoverCount(c, loc)
  {
    if c == [] {
      assert a + c == a;
    } else {
      CoverCountConcat(a, c[..|c| - 1], loc);
      assert (a + c)[..|a + c| - 1] == a + c[..|c| - 1];
    }
  }

  // ----- one inference box against the training boxes

  predicate InBox(t: ShardOffset, g: seq<int>) {
    |g| == |t.start| == |t.end| && forall d :: 0 <= d < |g| ==> t.start[d] <= g[d] < t.end[d]
  }

  /** The location is an element of the inference box's shard. */
  predicate On(i: ShardOffset, loc: Loc) {
    && loc.rank == i.rank && loc.name == i.shard.raw.name
    && |loc.idx| == |i.start| == |i.end|
    && forall d :: 0 <= d < |loc.idx| ==> 0 <= loc.idx[d] && i.start[d] + loc.idx[d] < i.end[d]
  }

  function GlobalIndex(start: seq<int>, idx: seq<int>): seq<int>
    requires |start| == |idx|
  {
    seq(|idx|, d requires 0 <= d < |idx| => start[d] + idx[d])
  }

  function Holding(trains: seq<ShardOffset>, g: seq<int>): nat {
    if trains == [] then 0
    else Holding(trains[..|trains| - 1], g) + (if InBox(trains[|trains| - 1], g) then 1 else 0)
  }

  function OpList(regions: seq<Region>, n: nat): seq<CommOp>
    requires AllBoxed(regions, n)
  {
    seq(|regions|, k requires 0 <= k < |regions| => OpOf(regions[k], n))
  }

  /** An operation covers a location iff the location's global index is in both boxes. */
  lemma CoversIff(i: ShardOffset, t: ShardOffset, n: nat, loc: Loc)
    requires BoxDims(i, n) && BoxDims(t, n)
    ensures (Overlaps(i, t, n) && Covers(OpOf(RegionOf(i, t, n), n), loc))
       <==> (On(i, loc) && InBox(t, GlobalIndex(i.start, loc.idx)))
  {
    var g := RegionOf(i, t, n);
    var op := OpOf(g, n);
    if On(i, loc) && InBox(t, GlobalIndex(i.start, loc.idx)) {
      var x := GlobalIndex(i.start, loc.idx);
      forall d | 0 <= d < n
        ensures Max(i.start[d], t.start[d]) <= x[d] < Min(i.end[d], t.end[d])
        ensures op.infSlices[d].start <= loc.idx[d] < op.infSlices[d].stop
      {
        assert t.start[d] <= x[d] < t.end[d];
      }
    } else if Overlaps(i, t, n) && Covers(op, loc) {
      forall d | 0 <= d < n
        ensures 0 <= loc.idx[d] && i.start[d] + loc.idx[d] < i.end[d]
        ensures t.start[d] <= i.start[d] + loc.idx[d] < t.end[d]
      {
        assert op.infSlices[d].start <= loc.idx[d] < op.infSlices[d].stop;
        assert g.start[d] - i.start[d] <= loc.idx[d] < g.end[d] - i.start[d];
      }
    }
  }

  lemma {:induction false} CountWith(i: ShardOffset, trains: seq<ShardOffset>, n: nat, loc: Loc)
    requires BoxDims(i, n) && Boxed(trains, n)
    ensures AllBoxed(RegionsWith(i, trains, n), n)
    ensures CoverCount(OpList(RegionsWith(i, trains, n), n), loc)
         == if On(i, loc) then Holding(trains, GlobalIndex(i.start, loc.idx)) else 0
  {
    RegionsWithBoxed(i, trains, n);
    if trains != [] {
      var last := |trains| - 1;
      RegionsWithBoxed(i, trains[..last], n);
      CountWith(i, trains[..last], n, loc);
      CoversIff(i, trains[last], n, loc);
      var before := RegionsWith(i, trains[..last], n);
      if Overlaps(i, trains[last], n) {
        var op := OpOf(RegionOf(i, trains[last], n), n);
        assert OpList(RegionsWith(i, trains, n), n) == OpList(before, n) + [op];
        CoverCountConcat(OpList(before, n), [op], loc);
        assert CoverCount([op], loc) == if Covers(op, loc) then 1 else 0;
      } else {
        assert RegionsWith(i, trains, n) == before;
      }
    }
  }

  // ----- an inference replica against a training replica

  lemma {:induction false} CountNone(infs: seq<ShardOffset>, trains: seq<ShardOffset>, n: nat, loc: Loc)
    requires Boxed(infs, n) && Boxed(trains, n)
    requires forall j :: 0 <= j < |infs| ==> !On(infs[j], loc)
    ensures AllBoxed(Regions(infs, trains, n), n)
    ensures CoverCount(OpList(Regions(infs, trains, n), n), loc) == 0
  {
    RegionsBoxed(infs, trains, n);
    if infs != [] {
      CountNone(infs[..|infs| - 1], trains, n, loc);
      CountLast(infs, trains, n, loc);
    }
  }

  lemma CountLast(infs: seq<ShardOffset>, trains: seq<ShardOffset>, n: nat, loc: Loc)
    requires infs != [] && Boxed(infs, n) && Boxed(trains, n)
    ensures AllBoxed(Regions(infs, trains, n), n)
    ensures AllBoxed(Regions(infs[..|infs| - 1], trains, n), n)
    ensures CoverCount(OpList(Regions(infs, trains, n), n), loc)
         == CoverCount(OpList(Regions(infs[..|infs| - 1], trains, n), n), loc)
            + (if On(infs[|infs| - 1], loc) then Holding(trains, GlobalIndex(infs[|infs| - 1].start, loc.idx)) else 0)
  {
    var last := |infs| - 1;
    RegionsBoxed(infs[..last], trains, n);
    RegionsBoxed(infs, trains, n);
    CountWith(infs[last], trains, n, loc);
    var r0, r1 := Regions(infs[..last], trains, n), RegionsWith(infs[last], trains, n);
    assert OpList(r0 + r1, n) == OpList(r0, n) + OpList(r1, n);
    CoverCountConcat(OpList(r0, n), OpList(r1, n), loc);
  }

  lemma {:induction false} CountOne(infs: seq<ShardOffset>, trains: seq<ShardOffset>, n: nat, loc: Loc, k: nat)
    requires Boxed(infs, n) && Boxed(trains, n) && k < |infs| && On(infs[k], loc)
    requires forall j :: 0 <= j < |infs| && j != k ==> !On(infs[j], loc)
    ensures AllBoxed(Regions(infs, trains, n), n)
    ensures CoverCount(OpList(Regions(infs, trains, n), n), loc) == Holding(trains, GlobalIndex(infs[k].start, loc.idx))
  {
    CountLast(infs, trains, n, loc);
    if k == |infs| - 1 {
      CountNone(infs[..|infs| - 1], trains, n, loc);
    } else {
      CountOne(infs[..|infs| - 1], trains, n, loc, k);
    }
  }

  lemma {:induction false} HoldingOne(trains: seq<ShardOffset>, g: seq<int>, k: nat)
    requires k < |trains| && InBox(trains[k], g)
    requires forall j :: 0 <= j < |trains| && j != k ==> !InBox(trains[j], g)
    ensures Holding(trains, g) == 1
  {
    var last := |trains| - 1;
    if k == last {
      HoldingNone(trains[..last], g);
    } else {
      HoldingOne(trains[..last], g, k);
    }
  }

  lemma {:induction false} HoldingNone(trains: seq<ShardOffset>, g: seq<int>)
    requires forall j :: 0 <= j < |trains| ==> !InBox(trains[j], g)
    ensures Holding(trains, g) == 0
  {
    if trains != [] {
      HoldingNone(trains[..|trains| - 1], g);
    }
  }

  /** Without a rank restriction a replica's boxes are those of its shards, in order. */
  lemma {:induction false} BoxesAll(b: Builder, replica: seq<Shard>, engine: nat, isInfer: bool)
    ensures |BoxesOf(b, replica, engine, isInfer, None)| == |replica|
    ensures forall k :: 0 <= k < |replica| ==>
              BoxesOf(b, replica, engine, isInfer, None)[k] == BoxOf(b, replica[k], engine, isInfer)
  {
    if replica != [] {
      BoxesAll(b, replica[..|replica| - 1], engine, isInfer);
    }
  }

  lemma {:induction false} WithinPlaced(replica: seq<Shard>, shape: seq<nat>)
    requires shape != [] && forall k :: 0 <= k < |replica| ==> Within(replica[k], shape)
    ensures PlacementError(replica).None? && Dims(replica, |shape|)
  {
    if replica != [] {
      WithinPlaced(replica[..|replica| - 1], shape);
    }
  }

  /** A training tiling holds every element of an inference box exactly once. */
  lemma TilingHoldsOnce(b: Builder, train: seq<Shard>, shape: seq<nat>, g: seq<nat>)
    requires shape != [] && Tiles(train, shape) && InShape(g, shape)
    ensures Holding(BoxesOf(b, train, 0, false, None), g) == 1
  {
    var boxes := BoxesOf(b, train, 0, false, None);
    BoxesAll(b, train, 0, false);
    var k :| 0 <= k < |train| && InShard(train[k], g);
    BoxHolds(b, train[k], 0, false, g);
    forall j | 0 <= j < |boxes| && j != k ensures !InBox(boxes[j], g) {
      if InBox(boxes[j], g) {
        BoxHolds(b, train[j], 0, false, g);
        assert false;
      }
    }
    HoldingOne(boxes, g, k);
  }

  lemma BoxHolds(b: Builder, s: Shard, engine: nat, isInfer: bool, g: seq<nat>)
    requires |s.offset| == |s.raw.shape|
    ensures InBox(BoxOf(b, s, engine, isInfer), g) <==> InShard(s, g)
  {
    var box := BoxOf(b, s, engine, isInfer);
    if InBox(box, g) {
      forall d | 0 <= d < |g| ensures s.offset[d] <= g[d] < s.offset[d] + s.raw.shape[d] {
        assert box.start[d] <= g[d] < box.end[d];
      }
    }
  }

  // ----- one parameter

  /** Every replica tiles the shape, and the shards carry the parameter's name. */
  ghost predicate Tiled(meta: ParamMeta, shape: seq<nat>) {
    && shape != [] && meta.replicas != []
    && (forall a :: 0 <= a < |meta.replicas| ==> meta.replicas[a] != [] && Tiles(meta.replicas[a], shape))
    && (forall a, k :: 0 <= a < |meta.replicas| && 0 <= k < |meta.replicas[a]| ==>
          meta.replicas[a][k].raw.name == meta.name)
  }

  predicate Held(meta: ParamMeta, a: nat, j: nat) { a < |meta.replicas| && j < |meta.replicas[a]| }

  function RankAt(meta: ParamMeta, a: nat, j: nat): nat
    requires Held(meta, a, j)
  {
    meta.replicas[a][j].raw.globalRank
  }

  /** No rank holds two shards of the parameter. */
  ghost predicate OneShardPerRank(meta: ParamMeta) {
    forall a, j, c, k :: Held(meta, a, j) && Held(meta, c, k) && RankAt(meta, a, j) == RankAt(meta, c, k) ==>
        a == c && j == k
  }

  /** Inference ranks fit their engine's share of the transfer world. */
  ghost predicate RanksFit(b: Builder, meta: ParamMeta) {
    forall a, k :: 0 <= a < |meta.replicas| && 0 <= k < |meta.replicas[a]| ==>
      meta.replicas[a][k].raw.globalRank < b.InstanceWorld()
  }

  /** The two sides of one parameter, as the resolver leaves them. */
  ghost predicate Matched(b: Builder, im: ParamMeta, tm: ParamMeta, shape: seq<nat>) {
    && Tiled(im, shape) && Tiled(tm, shape) && im.name == tm.name
    && OneShardPerRank(im) && RanksFit(b, im)
  }

  /** The transfer rank a process of an inference engine takes for itself, and a training process. */
  function ReaderRank(b: Builder, engine: nat, globalRank: nat): nat { engine * b.InstanceWorld() + globalRank }

  function WriterRank(b: Builder, globalRank: nat): nat { b.inferWorld + globalRank }

  /** The location of element idx of one shard of an inference replica on one engine. */
  function InferLoc(b: Builder, s: Shard, engine: nat, idx: seq<nat>): Loc {
    Loc(ReaderRank(b, engine, s.raw.globalRank), s.raw.name, idx)
  }

  /** The planner's number for a shard's rank lies in its engine's block, at the rank's own place in it. */
  lemma RankInEngine(b: Builder, s: Shard, engine: nat)
    requires engine < b.numEngines && s.raw.globalRank < b.InstanceWorld()
    ensures TransferRank(b, s, engine, true) / b.InstanceWorld() == engine
    ensures TransferRank(b, s, engine, true) % b.InstanceWorld() == s.raw.globalRank
    ensures TransferRank(b, s, engine, true) < b.inferWorld
  {
    DivModUnique(TransferRank(b, s, engine, true), engine, s.raw.globalRank, b.InstanceWorld());
    EngineFits(b, s.raw.globalRank, engine);
  }

  /** The blocks of the engines are as wide as one engine. */
  lemma EngineBlocks(b: Builder, w: nat)
    requires b.inferWorld == w * b.numEngines
    ensures b.InstanceWorld() == w
  {
    DivModUnique(b.inferWorld, w, 0, b.numEngines);
  }

  /** What every rank's reports on one parameter must look like on one side. */
  ghost predicate SoundReports(raws: RawShards) {
    && ConsistentShapes(raws) && MetaOf(raws).Ok?
    && (forall i :: 0 <= i < |raws| ==> raws[i].name == raws[0].name)
    && (forall i, j :: 0 <= i < j < |raws| ==> raws[i].globalRank != raws[j].globalRank)
  }

  /** Metadata resolved from sound reports of equal global shape meets every premise of the planner. */
  lemma ResolvedMatched(b: Builder, infer: RawShards, train: RawShards)
    requires SoundReports(infer) && SoundReports(train) && infer[0].name == train[0].name
    requires forall i :: 0 <= i < |infer| ==> infer[i].globalRank < b.InstanceWorld()
    requires MetaOf(infer).value.globalShape == MetaOf(train).value.globalShape
    ensures Matched(b, MetaOf(infer).value, MetaOf(train).value, MetaOf(infer).value.globalShape)
  {
    ResolvedTiled(infer);
    ResolvedTiled(train);
    var im := MetaOf(infer).value;
    forall a, j, c, k | Held(im, a, j) && Held(im, c, k) && RankAt(im, a, j) == RankAt(im, c, k)
      ensures a == c && j == k
    {
      RanksDistinct(infer, a, j, c, k);
    }
    forall a, k | 0 <= a < |im.replicas| && 0 <= k < |im.replicas[a]| ensures im.replicas[a][k].raw in infer {
      ResolvedShard(infer, a, k);
    }
  }

  lemma ResolvedShard(raws: RawShards, a: nat, k: nat)
    requires MetaOf(raws).Ok? && Held(MetaOf(raws).value, a, k)
    ensures MetaOf(raws).value.replicas[a][k].raw in raws
  {
    GroupsInRange(raws, a, k);
  }

  lemma ResolvedTiled(raws: RawShards)
    requires SoundReports(raws)
    ensures Tiled(MetaOf(raws).value, MetaOf(raws).value.globalShape)
  {
    var meta := MetaOf(raws).value;
    ReplicasNonEmpty(raws);
    forall a | 0 <= a < |meta.replicas| ensures meta.replicas[a] != [] && Tiles(meta.replicas[a], meta.globalShape) {
      ReplicasTile(raws, a);
    }
    forall a, k | 0 <= a < |meta.replicas| && 0 <= k < |meta.replicas[a]|
      ensures meta.replicas[a][k].raw.name == meta.name
    {
      ResolvedShard(raws, a, k);
    }
  }

  lemma MatchedCompatible(b: Builder, im: ParamMeta, tm: ParamMeta, shape: seq<nat>)
    requires Matched(b, im, tm, shape)
    ensures Compatible(im, tm) && DimCount(tm) == |shape|
    ensures forall a :: 0 <= a < |im.replicas| ==> PlacementError(im.replicas[a]).None?
    ensures forall a :: 0 <= a < |tm.replicas| ==> PlacementError(tm.replicas[a]).None?
  {
    forall a | 0 <= a < |im.replicas| ensures Dims(im.replicas[a], |shape|) && PlacementError(im.replicas[a]).None? {
      WithinPlaced(im.replicas[a], shape);
    }
    forall a | 0 <= a < |tm.replicas| ensures Dims(tm.replicas[a], |shape|) && PlacementError(tm.replicas[a]).None? {
      WithinPlaced(tm.replicas[a], shape);
    }
  }

  /** The operations of one pair of replicas, as a list built without failure. */
  lemma PairOps(b: Builder, inf: seq<Shard>, engine: nat, train: seq<Shard>, n: nat)
    requires Dims(inf, n) && Dims(train, n) && inf != [] && train != []
    requires PlacementError(inf).None? && PlacementError(train).None?
    requires engine < b.numEngines && forall k :: 0 <= k < |inf| ==> inf[k].raw.globalRank < b.InstanceWorld()
    ensures var infs, trains := BoxesOf(b, inf, engine, true, None), BoxesOf(b, train, 0, false, None);
            && Boxed(infs, n) && Boxed(trains, n)
            && AllBoxed(Regions(infs, trains, n), n)
            && PairPlan(b, inf, engine, train, None, n) == Ok(OpList(Regions(infs, trains, n), n))
  {
    var infs, trains := BoxesOf(b, inf, engine, true, None), BoxesOf(b, train, 0, false, None);
    BoxesBoxed(b, inf, engine, true, None, n);
    BoxesBoxed(b, train, 0, false, None, n);
    RegionsBoxed(infs, trains, n);
    BoxRanks(b, inf, engine, train);
    RegionRanks(infs, trains, n, b.inferWorld);
    OpsSucceed(b, Regions(infs, trains, n), n);
  }

  lemma BoxRanks(b: Builder, inf: seq<Shard>, engine: nat, train: seq<Shard>)
    requires engine < b.numEngines && forall k :: 0 <= k < |inf| ==> inf[k].raw.globalRank < b.InstanceWorld()
    ensures forall i :: i in BoxesOf(b, inf, engine, true, None) ==> i.rank < b.inferWorld
    ensures forall t :: t in BoxesOf(b, train, 0, false, None) ==> t.rank >= b.inferWorld
  {
    BoxesAll(b, inf, engine, true);
    BoxesAll(b, train, 0, false);
    var infs := BoxesOf(b, inf, engine, true, None);
    forall k | 0 <= k < |infs| ensures infs[k].rank < b.inferWorld {
      EngineFits(b, inf[k].raw.globalRank, engine);
    }
  }

  lemma EngineFits(b: Builder, rank: nat, engine: nat)
    requires engine < b.numEngines && rank < b.InstanceWorld()
    ensures rank + engine * b.InstanceWorld() < b.inferWorld
  {
    var w := b.InstanceWorld();
    MulOrder(engine, b.numEngines, w);
    DivModParts(b.inferWorld, b.numEngines);
  }

  lemma {:induction false} RegionRanks(infs: seq<ShardOffset>, trains: seq<ShardOffset>, n: nat, world: nat)
    requires Boxed(infs, n) && Boxed(trains, n)
    requires forall i :: i in infs ==> i.rank < world
    requires forall t :: t in trains ==> t.rank >= world
    ensures forall k :: 0 <= k < |Regions(infs, trains, n)| ==>
              Regions(infs, trains, n)[k].inf.rank < world <= Regions(infs, trains, n)[k].train.rank
  {
    if infs != [] {
      RegionRanks(infs[..|infs| - 1], trains, n, world);
      RegionsWithRanks(infs[|infs| - 1], trains, n, world);
    }
  }

  lemma {:induction false} RegionsWithRanks(i: ShardOffset, trains: seq<ShardOffset>, n: nat, world: nat)
    requires BoxDims(i, n) && Boxed(trains, n) && i.rank < world
    requires forall t :: t in trains ==> t.rank >= world
    ensures forall k :: 0 <= k < |RegionsWith(i, trains, n)| ==>
              RegionsWith(i, trains, n)[k].inf.rank < world <= RegionsWith(i, trains, n)[k].train.rank
  {
    if trains != [] {
      RegionsWithRanks(i, trains[..|trains| - 1], n, world);
    }
  }

  lemma {:induction false} OpsSucceed(b: Builder, regions: seq<Region>, n: nat)
    requires AllBoxed(regions, n)
    requires forall k :: 0 <= k < |regions| ==> regions[k].inf.rank < b.inferWorld <= regions[k].train.rank
    ensures OpsOf(b, regions, n) == Ok(OpList(regions, n))
  {
    if regions != [] {
      var last := |regions| - 1;
      OpsSucceed(b, regions[..last], n);
      assert OpList(regions, n) == OpList(regions[..last], n) + [OpOf(regions[last], n)];
    }
  }

  // ----- the pairs of one parameter

  /** A pair of non-empty, well placed replicas with the inference ranks within their engine. */
  ghost predicate PairShaped(b: Builder, p: Pair, n: nat) {
    && p.engine < b.numEngines && p.inf != [] && p.train != []
    && Dims(p.inf, n) && PlacementError(p.inf).None?
    && Dims(p.train, n) && PlacementError(p.train).None?
    && (forall k :: 0 <= k < |p.inf| ==> p.inf[k].raw.globalRank < b.InstanceWorld())
  }

  function InfBoxes(b: Builder, p: Pair): seq<ShardOffset> { BoxesOf(b, p.inf, p.engine, true, None) }

  function TrainBoxes(b: Builder, p: Pair): seq<ShardOffset> { BoxesOf(b, p.train, 0, false, None) }

  lemma PairBoxed(b: Builder, p: Pair, n: nat)
    requires PairShaped(b, p, n)
    ensures Boxed(InfBoxes(b, p), n) && Boxed(TrainBoxes(b, p), n)
    ensures AllBoxed(Regions(InfBoxes(b, p), TrainBoxes(b, p), n), n)
  {
    BoxesBoxed(b, p.inf, p.engine, true, None, n);
    BoxesBoxed(b, p.train, 0, false, None, n);
    RegionsBoxed(InfBoxes(b, p), TrainBoxes(b, p), n);
  }

  ghost function PairOpList(b: Builder, p: Pair, n: nat): seq<CommOp>
    requires PairShaped(b, p, n)
  {
    PairBoxed(b, p, n);
    OpList(Regions(InfBoxes(b, p), TrainBoxes(b, p), n), n)
  }

  lemma PairSucceeds(b: Builder, p: Pair, n: nat)
    requires PairShaped(b, p, n)
    ensures PairPlan(b, p.inf, p.engine, p.train, None, n) == Ok(PairOpList(b, p, n))
  {
    PairOps(b, p.inf, p.engine, p.train, n);
  }

  /** No shard of the pair's inference replica sits on the location. */
  ghost predicate OffPair(b: Builder, p: Pair, loc: Loc) {
    forall k :: 0 <= k < |p.inf| ==> !On(BoxOf(b, p.inf[k], p.engine, true), loc)
  }

  lemma CountOffPair(b: Builder, p: Pair, n: nat, loc: Loc)
    requires PairShaped(b, p, n) && OffPair(b, p, loc)
    ensures CoverCount(PairOpList(b, p, n), loc) == 0
  {
    PairBoxed(b, p, n);
    BoxesAll(b, p.inf, p.engine, true);
    CountNone(InfBoxes(b, p), TrainBoxes(b, p), n, loc);
  }

  /** No rank holds two shards of the replica. */
  ghost predicate DistinctRanks(replica: seq<Shard>) {
    forall i, j :: 0 <= i < j < |replica| ==> replica[i].raw.globalRank != replica[j].raw.globalRank
  }

  lemma CountOnPair(b: Builder, p: Pair, shape: seq<nat>, k: nat, idx: seq<nat>)
    requires PairShaped(b, p, |shape|) && shape != [] && Tiles(p.train, shape)
    requires k < |p.inf| && Within(p.inf[k], shape) && InShape(idx, p.inf[k].raw.shape) && DistinctRanks(p.inf)
    ensures CoverCount(PairOpList(b, p, |shape|), InferLoc(b, p.inf[k], p.engine, idx)) == 1
  {
    var loc, g := InferLoc(b, p.inf[k], p.engine, idx), GlobalOf(p.inf[k], idx);
    PairBoxed(b, p, |shape|);
    OnOwnBox(b, p.inf[k], p.engine, idx, shape);
    TilingHoldsOnce(b, p.train, shape, g);
    OnlyBoxOn(b, p.inf, p.engine, k, idx, shape);
    CountOne(InfBoxes(b, p), TrainBoxes(b, p), |shape|, loc, k);
  }

  lemma OnlyBoxOn(b: Builder, inf: seq<Shard>, engine: nat, k: nat, idx: seq<nat>, shape: seq<nat>)
    requires k < |inf| && Within(inf[k], shape) && InShape(idx, inf[k].raw.shape) && DistinctRanks(inf)
    ensures var infs, loc := BoxesOf(b, inf, engine, true, None), InferLoc(b, inf[k], engine, idx);
            && |infs| == |inf| && infs[k] == BoxOf(b, inf[k], engine, true) && On(infs[k], loc)
            && forall j :: 0 <= j < |infs| && j != k ==> !On(infs[j], loc)
  {
    var infs := BoxesOf(b, inf, engine, true, None);
    BoxesAll(b, inf, engine, true);
    OnOwnBox(b, inf[k], engine, idx, shape);
    forall j | 0 <= j < |infs| && j != k ensures !On(infs[j], InferLoc(b, inf[k], engine, idx)) {
      assert infs[j].rank != infs[k].rank;
    }
  }

  lemma OnOwnBox(b: Builder, s: Shard, engine: nat, idx: seq<nat>, shape: seq<nat>)
    requires Within(s, shape) && InShape(idx, s.raw.shape)
    ensures On(BoxOf(b, s, engine, true), InferLoc(b, s, engine, idx))
    ensures GlobalIndex(BoxOf(b, s, engine, true).start, InferLoc(b, s, engine, idx).idx) == GlobalOf(s, idx)
    ensures InShape(GlobalOf(s, idx), shape)
  {
    var g := GlobalOf(s, idx);
    forall d | 0 <= d < |g| ensures g[d] < shape[d] {
      assert s.offset[d] + s.raw.shape[d] <= shape[d];
    }
  }

  /** The global index of a shard's element. */
  function GlobalOf(s: Shard, idx: seq<nat>): seq<nat> {
    seq(|idx|, d requires 0 <= d < |idx| => (if d < |s.offset| then s.offset[d] else 0) + idx[d])
  }

  ghost predicate PairsShaped(b: Builder, pairs: seq<Pair>, n: nat) {
    forall m :: 0 <= m < |pairs| ==> PairShaped(b, pairs[m], n)
  }

  /** The operations of all pairs, in order. */
  ghost function PairsOpList(b: Builder, pairs: seq<Pair>, n: nat): seq<CommOp>
    requires PairsShaped(b, pairs, n)
  {
    if pairs == [] then []
    else PairsOpList(b, pairs[..|pairs| - 1], n) + PairOpList(b, pairs[|pairs| - 1], n)
  }

  lemma {:induction false} PairsSucceed(b: Builder, pairs: seq<Pair>, n: nat)
    requires PairsShaped(b, pairs, n)
    ensures PairsDims(pairs, n) && PairsPlan(b, pairs, None, n) == Ok(PairsOpList(b, pairs, n))
  {
    if pairs != [] {
      PairsSucceed(b, pairs[..|pairs| - 1], n);
      PairSucceeds(b, pairs[|pairs| - 1], n);
    }
  }

  lemma CountLastPair(b: Builder, pairs: seq<Pair>, n: nat, loc: Loc)
    requires PairsShaped(b, pairs, n) && pairs != []
    ensures var last := |pairs| - 1;
            && PairsShaped(b, pairs[..last], n) && PairShaped(b, pairs[last], n)
            && CoverCount(PairsOpList(b, pairs, n), loc)
               == CoverCount(PairsOpList(b, pairs[..last], n), loc) + CoverCount(PairOpList(b, pairs[last], n), loc)
  {
    var last := |pairs| - 1;
    CoverCountConcat(PairsOpList(b, pairs[..last], n), PairOpList(b, pairs[last], n), loc);
  }

  lemma {:induction false} CountOffPairs(b: Builder, pairs: seq<Pair>, n: nat, loc: Loc)
    requires PairsShaped(b, pairs, n)
    requires forall m :: 0 <= m < |pairs| ==> OffPair(b, pairs[m], loc)
    ensures CoverCount(PairsOpList(b, pairs, n), loc) == 0
  {
    if pairs != [] {
      var last := |pairs| - 1;
      CountLastPair(b, pairs, n, loc);
      CountOffPairs(b, pairs[..last], n, loc);
      CountOffPair(b, pairs[last], n, loc);
    }
  }

  lemma {:induction false} CountOnlyPair(b: Builder, pairs: seq<Pair>, n: nat, m: nat, loc: Loc)
    requires PairsShaped(b, pairs, n) && m < |pairs|
    requires forall l :: 0 <= l < |pairs| && l != m ==> OffPair(b, pairs[l], loc)
    ensures CoverCount(PairsOpList(b, pairs, n), loc) == CoverCount(PairOpList(b, pairs[m], n), loc)
  {
    var last := |pairs| - 1;
    CountLastPair(b, pairs, n, loc);
    if m == last {
      CountOffPairs(b, pairs[..last], n, loc);
    } else {
      CountOnlyPair(b, pairs[..last], n, m, loc);
      CountOffPair(b, pairs[last], n, loc);
    }
  }

  lemma MatchedShaped(b: Builder, im: ParamMeta, tm: ParamMeta, shape: seq<nat>)
    requires Matched(b, im, tm, shape)
    ensures PairsShaped(b, PairList(b, im, tm), |shape|)
  {
    var pairs, ri, rt := PairList(b, im, tm), |im.replicas|, |tm.replicas|;
    forall m | 0 <= m < |pairs| ensures PairShaped(b, pairs[m], |shape|) {
      EngineOf(m, ri, b.numEngines);
      WithinPlaced(im.replicas[m % ri], shape);
      WithinPlaced(tm.replicas[m % rt], shape);
    }
  }

  /** The parameter's plan succeeds, with the operations of its pairs in order. */
  lemma MatchedPlan(b: Builder, im: ParamMeta, tm: ParamMeta, shape: seq<nat>)
    requires Matched(b, im, tm, shape)
    ensures Compatible(im, tm) && DimCount(tm) == |shape|
    ensures PairsShaped(b, PairList(b, im, tm), |shape|)
    ensures ParameterPlan(b, im, tm, None) == Ok(PairsOpList(b, PairList(b, im, tm), |shape|))
  {
    MatchedCompatible(b, im, tm, shape);
    MatchedShaped(b, im, tm, shape);
    PairsSucceed(b, PairList(b, im, tm), |shape|);
  }

  lemma EngineOf(m: nat, ri: nat, e: nat)
    requires ri > 0 && m < e * ri
    ensures m / ri < e
  {
    var q := m / ri;
    assert m == q * ri + m % ri;
    if q >= e {
      MulMonotone(e, q, ri);
    }
  }

  lemma MulMonotone(x: nat, y: nat, c: nat)
    requires x <= y
    ensures x * c <= y * c
  {}

  /** Shards given the same transfer rank sit on the same rank of the same engine. */
  lemma SameRankSamePlace(b: Builder, s: Shard, e: nat, t: Shard, f: nat)
    requires e < b.numEngines && s.raw.globalRank < b.InstanceWorld()
    requires f < b.numEngines && t.raw.globalRank < b.InstanceWorld()
    ensures TransferRank(b, s, e, true) == TransferRank(b, t, f, true) <==>
              s.raw.globalRank == t.raw.globalRank && e == f
  {
    RankInEngine(b, s, e);
    RankInEngine(b, t, f);
  }

  /** Every element of every inference shard, on every engine, is written exactly once. */
  lemma ParameterExactlyOnce(b: Builder, im: ParamMeta, tm: ParamMeta, shape: seq<nat>,
                             engine: nat, a: nat, k: nat, idx: seq<nat>)
    requires Matched(b, im, tm, shape) && engine < b.numEngines
    requires a < |im.replicas| && k < |im.replicas[a]| && InShape(idx, im.replicas[a][k].raw.shape)
    ensures Compatible(im, tm) && ParameterPlan(b, im, tm, None).Ok?
    ensures CoverCount(ParameterPlan(b, im, tm, None).value, InferLoc(b, im.replicas[a][k], engine, idx)) == 1
  {
    var m := OwnPair(b, im, tm, shape, engine, a, k, idx);
    MatchedPlan(b, im, tm, shape);
    PairsExactlyOnce(b, PairList(b, im, tm), shape, m, k, idx);
  }

  /** Among the pairs, number m is the only one with a shard on element idx of its k-th inference shard. */
  ghost predicate OnlyPair(b: Builder, pairs: seq<Pair>, shape: seq<nat>, m: nat, k: nat, idx: seq<nat>) {
    && shape != [] && PairsShaped(b, pairs, |shape|) && m < |pairs| && k < |pairs[m].inf|
    && Tiles(pairs[m].train, shape) && Within(pairs[m].inf[k], shape) && DistinctRanks(pairs[m].inf)
    && InShape(idx, pairs[m].inf[k].raw.shape)
    && forall l :: 0 <= l < |pairs| && l != m ==>
         OffPair(b, pairs[l], InferLoc(b, pairs[m].inf[k], pairs[m].engine, idx))
  }

  lemma PairsExactlyOnce(b: Builder, pairs: seq<Pair>, shape: seq<nat>, m: nat, k: nat, idx: seq<nat>)
    requires OnlyPair(b, pairs, shape, m, k, idx)
    ensures CoverCount(PairsOpList(b, pairs, |shape|), InferLoc(b, pairs[m].inf[k], pairs[m].engine, idx)) == 1
  {
    CountOnlyPair(b, pairs, |shape|, m, InferLoc(b, pairs[m].inf[k], pairs[m].engine, idx));
    CountOnPair(b, pairs[m], shape, k, idx);
  }

  lemma OwnPair(b: Builder, im: ParamMeta, tm: ParamMeta, shape: seq<nat>,
                engine: nat, a: nat, k: nat, idx: seq<nat>) returns (m: nat)
    requires Matched(b, im, tm, shape) && engine < b.numEngines
    requires a < |im.replicas| && k < |im.replicas[a]| && InShape(idx, im.replicas[a][k].raw.shape)
    ensures OnlyPair(b, PairList(b, im, tm), shape, m, k, idx)
    ensures PairList(b, im, tm)[m].inf == im.replicas[a] && PairList(b, im, tm)[m].engine == engine
    ensures exists c :: 0 <= c < |tm.replicas| && PairList(b, im, tm)[m].train == tm.replicas[c]
  {
    var loc := InferLoc(b, im.replicas[a][k], engine, idx);
    MatchedShaped(b, im, tm, shape);
    m := PairOf(b, im, tm, engine, a);
    ReplicaRanks(im, a);
    forall l | 0 <= l < |PairList(b, im, tm)| && l != m ensures OffPair(b, PairList(b, im, tm)[l], loc) {
      OtherPairsOff(b, im, tm, shape, engine, a, k, idx, l);
    }
  }

  lemma ReplicaRanks(meta: ParamMeta, a: nat)
    requires OneShardPerRank(meta) && a < |meta.replicas|
    ensures DistinctRanks(meta.replicas[a])
  {
    forall i, j | 0 <= i < j < |meta.replicas[a]|
      ensures meta.replicas[a][i].raw.globalRank != meta.replicas[a][j].raw.globalRank
    {
      assert RankAt(meta, a, i) == RankAt(meta, a, j) ==> i == j;
    }
  }

  /** Where the pair of an engine's replica stands in the list. */
  lemma PairOf(b: Builder, im: ParamMeta, tm: ParamMeta, engine: nat, a: nat) returns (m: nat)
    requires im.replicas != [] && tm.replicas != [] && engine < b.numEngines && a < |im.replicas|
    ensures m == engine * |im.replicas| + a && m < |PairList(b, im, tm)|
    ensures PairList(b, im, tm)[m].inf == im.replicas[a] && PairList(b, im, tm)[m].engine == engine
    ensures exists c :: 0 <= c < |tm.replicas| && PairList(b, im, tm)[m].train == tm.replicas[c]
  {
    var ri := |im.replicas|;
    m := engine * ri + a;
    Arithmetic.DivModUnique(m, engine, a, ri);
    MulMonotone(engine + 1, b.numEngines, ri);
    assert (engine + 1) * ri == engine * ri + ri;
    assert PairList(b, im, tm)[m].train == tm.replicas[m % |tm.replicas|];
  }

  lemma OtherPairsOff(b: Builder, im: ParamMeta, tm: ParamMeta, shape: seq<nat>,
                      engine: nat, a: nat, k: nat, idx: seq<nat>, l: nat)
    requires Matched(b, im, tm, shape) && engine < b.numEngines
    requires a < |im.replicas| && k < |im.replicas[a]|
    requires l < b.numEngines * |im.replicas| && l != engine * |im.replicas| + a
    ensures OffPair(b, PairList(b, im, tm)[l], InferLoc(b, im.replicas[a][k], engine, idx))
  {
    var ri := |im.replicas|;
    var p, loc := PairList(b, im, tm)[l], InferLoc(b, im.replicas[a][k], engine, idx);
    assert l == (l / ri) * ri + l % ri;
    forall j | 0 <= j < |p.inf| ensures !On(BoxOf(b, p.inf[j], p.engine, true), loc) {
      assert RankAt(im, l % ri, j) == RankAt(im, a, k) ==> l % ri == a;
      if On(BoxOf(b, p.inf[j], p.engine, true), loc) {
        EngineOf(l, ri, b.numEngines);
        SameRankSamePlace(b, p.inf[j], p.engine, im.replicas[a][k], engine);
        assert false;
      }
    }
  }
}
