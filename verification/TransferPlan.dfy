/**
 The resharding planner (awex/transfer/transfer_plan.py): which rank sends which slice of
 its shard of a parameter to which rank. Each method is proved against the function
 beside it; what the plans mean is proved about the functions in the modules that follow.
 */
module TransferPlan {
  import opened Wrappers
  import opened Seqs
  import opened Arithmetic
  import opened ShardMeta

  datatype PlanError =
    | NoReplicas | NoShards | EmptyOffset | DimensionMismatch
    | SameRank | SenderNotTraining | ReceiverNotInference | KeyMismatch

  /** The planner's configuration; its constructor refuses numEngines <= 0. */
  datatype Builder = Builder(inferWorld: nat, numEngines: pos, strictKeys: bool, lmHead: nat, embedTokens: nat)
  {
    function InstanceWorld(): nat { inferWorld / numEngines }
  }

  datatype Slice = Slice(start: int, stop: int)

  /** A cell of the planner's one scratch list. */
  datatype Scratch = Unset | Num(n: int) | Span(slice: Slice)

  /** A shard's box in the global tensor and the transfer rank that holds it. */
  datatype ShardOffset = ShardOffset(shard: Shard, start: seq<int>, end: seq<int>, rank: nat)

  datatype Region = Region(inf: ShardOffset, train: ShardOffset, start: seq<int>, end: seq<int>)

  datatype CommOp = CommOp(
    sendRank: nat, sendShard: Shard, sendOffset: seq<int>,
    recvRank: nat, recvShard: Shard, recvOffset: seq<int>,
    overlapShape: seq<int>, trainSlices: seq<Slice>, infSlices: seq<Slice>)

  function Max(a: int, b: int): int { if a >= b then a else b }
  function Min(a: int, b: int): int { if a <= b then a else b }

  // ----- boxes of a replica's shards

  function TransferRank(b: Builder, s: Shard, engine: nat, isInfer: bool): nat {
    if isInfer then s.raw.globalRank + engine * b.InstanceWorld() else s.raw.globalRank + b.inferWorld
  }

  ghost predicate Dims(replica: seq<Shard>, n: nat) {
    forall k :: 0 <= k < |replica| ==> |replica[k].raw.shape| == n
  }

  function ShardError(s: Shard): Option<PlanError> {
    if s.offset == [] then Some(EmptyOffset)
    else if |s.offset| != |s.raw.shape| then Some(DimensionMismatch)
    else None
  }

  /** The error of the first badly placed shard. */
  function PlacementError(replica: seq<Shard>): Option<PlanError> {
    if replica == [] then None
    else if PlacementError(replica[..|replica| - 1]).Some? then PlacementError(replica[..|replica| - 1])
    else ShardError(replica[|replica| - 1])
  }

  function BoxOf(b: Builder, s: Shard, engine: nat, isInfer: bool): ShardOffset {
    var n := if |s.offset| == |s.raw.shape| then |s.offset| else 0;
    ShardOffset(s, s.offset, seq(n, d requires 0 <= d < n => s.offset[d] + s.raw.shape[d]),
                TransferRank(b, s, engine, isInfer))
  }

  /** The boxes of a replica, or only those of one rank. */
  function BoxesOf(b: Builder, replica: seq<Shard>, engine: nat, isInfer: bool, only: Option<nat>): seq<ShardOffset> {
    if replica == [] then []
    else
      var box := BoxOf(b, replica[|replica| - 1], engine, isInfer);
      BoxesOf(b, replica[..|replica| - 1], engine, isInfer, only)
      + (if only.None? || only.value == box.rank then [box] else [])
  }

  function Nums(cells: seq<Scratch>): seq<int> {
    seq(|cells|, i requires 0 <= i < |cells| => if cells[i].Num? then cells[i].n else 0)
  }

  function Spans(cells: seq<Scratch>): seq<Slice> {
    seq(|cells|, i requires 0 <= i < |cells| => if cells[i].Span? then cells[i].slice else Slice(0, 0))
  }

  method CreateShardOffsets(b: Builder, replica: seq<Shard>, engine: nat, isInfer: bool, only: Option<nat>,
                            scratch: array<Scratch>) returns (r: Result<seq<ShardOffset>, PlanError>)
    requires Dims(replica, scratch.Length)
    modifies scratch
    ensures r == if replica == [] then Err(NoShards)
                 else if PlacementError(replica).Some? then Err(PlacementError(replica).value)
                 else Ok(BoxesOf(b, replica, engine, isInfer, only))
  {
    if replica == [] {
      return Err(NoShards);
    }
    var shardMap: seq<ShardOffset> := [];
    for k := 0 to |replica|
      invariant PlacementError(replica[..k]).None?
      invariant shardMap == BoxesOf(b, replica[..k], engine, isInfer, only)
    {
      var shard := replica[k];
      PlaceStep(b, replica, engine, isInfer, only, k);
      if ShardError(shard).Some? {
        FirstErrorStays(replica, k + 1);
        return Err(ShardError(shard).value);
      }
      var rank := TransferRank(b, shard, engine, isInfer);
      if only.None? || rank == only.value {
        var end := EndOffset(shard, scratch);
        assert end == BoxOf(b, shard, engine, isInfer).end;
        shardMap := shardMap + [ShardOffset(shard, shard.offset, end, rank)];
      }
    }
    assert replica[..|replica|] == replica;
    r := Ok(shardMap);
  }

  lemma PlaceStep(b: Builder, replica: seq<Shard>, engine: nat, isInfer: bool, only: Option<nat>, k: nat)
    requires k < |replica|
    ensures PlacementError(replica[..k + 1])
         == if PlacementError(replica[..k]).Some? then PlacementError(replica[..k]) else ShardError(replica[k])
    ensures BoxesOf(b, replica[..k + 1], engine, isInfer, only)
         == BoxesOf(b, replica[..k], engine, isInfer, only)
            + (var box := BoxOf(b, replica[k], engine, isInfer);
               if only.None? || only.value == box.rank then [box] else [])
  {
    assert replica[..k + 1][..k] == replica[..k];
  }

  method EndOffset(shard: Shard, scratch: array<Scratch>) returns (end: seq<int>)
    requires |shard.offset| == |shard.raw.shape| == scratch.Length
    modifies scratch
    ensures |end| == scratch.Length
    ensures forall d :: 0 <= d < |end| ==> end[d] == shard.offset[d] + shard.raw.shape[d]
  {
    for i := 0 to |shard.offset|
      invariant forall d :: 0 <= d < i ==> scratch[d] == Num(shard.offset[d] + shard.raw.shape[d])
    {
      scratch[i] := Num(shard.offset[i] + shard.raw.shape[i]);
    }
    end := Nums(scratch[..]);
  }

  lemma {:induction false} FirstErrorStays(replica: seq<Shard>, k: nat)
    requires k <= |replica| && PlacementError(replica[..k]).Some?
    ensures PlacementError(replica) == PlacementError(replica[..k])
    decreases |replica| - k
  {
    if k == |replica| {
      assert replica[..k] == replica;
    } else {
      assert replica[..k + 1][..k] == replica[..k];
      FirstErrorStays(replica, k + 1);
    }
  }

  /** A replica is accepted exactly when every shard has an offset with an entry per dimension. */
  lemma {:induction false} PlacedIff(replica: seq<Shard>)
    ensures PlacementError(replica).None? <==>
              forall k :: 0 <= k < |replica| ==>
                replica[k].offset != [] && |replica[k].offset| == |replica[k].raw.shape|
  {
    if replica != [] {
      PlacedIff(replica[..|replica| - 1]);
    }
  }

  // ----- intersecting the boxes

  predicate BoxDims(box: ShardOffset, n: nat) { |box.start| == |box.end| == n }

  predicate Boxed(boxes: seq<ShardOffset>, n: nat) {
    forall k :: 0 <= k < |boxes| ==> BoxDims(boxes[k], n)
  }

  predicate Overlaps(i: ShardOffset, t: ShardOffset, n: nat)
    requires BoxDims(i, n) && BoxDims(t, n)
  {
    forall d :: 0 <= d < n ==> Max(i.start[d], t.start[d]) < Min(i.end[d], t.end[d])
  }

  function RegionOf(i: ShardOffset, t: ShardOffset, n: nat): Region
    requires BoxDims(i, n) && BoxDims(t, n)
  {
    Region(i, t,
           seq(n, d requires 0 <= d < n => Max(i.start[d], t.start[d])),
           seq(n, d requires 0 <= d < n => Min(i.end[d], t.end[d])))
  }

  function RegionsWith(i: ShardOffset, trains: seq<ShardOffset>, n: nat): seq<Region>
    requires BoxDims(i, n) && Boxed(trains, n)
  {
    if trains == [] then [] else
      var last := |trains| - 1;
      RegionsWith(i, trains[..last], n)
      + (if Overlaps(i, trains[last], n) then [RegionOf(i, trains[last], n)] else [])
  }

  function Regions(infs: seq<ShardOffset>, trains: seq<ShardOffset>, n: nat): seq<Region>
    requires Boxed(infs, n) && Boxed(trains, n)
  {
    if infs == [] then []
    else Regions(infs[..|infs| - 1], trains, n) + RegionsWith(infs[|infs| - 1], trains, n)
  }

  /** The common box, given up at the first dimension in which there is none. */
  method IntersectBoxes(i: ShardOffset, t: ShardOffset, n: nat) returns (r: Option<Region>)
    requires BoxDims(i, n) && BoxDims(t, n)
    ensures r == if Overlaps(i, t, n) then Some(RegionOf(i, t, n)) else None
  {
    var start: seq<int>, end: seq<int> := [], [];
    for d := 0 to n
      invariant start == RegionOf(i, t, n).start[..d]
      invariant end == RegionOf(i, t, n).end[..d]
      invariant forall e :: 0 <= e < d ==> Max(i.start[e], t.start[e]) < Min(i.end[e], t.end[e])
    {
      var lo, hi := Max(i.start[d], t.start[d]), Min(i.end[d], t.end[d]);
      if lo >= hi {
        return None;
      }
      start, end := start + [lo], end + [hi];
    }
    assert Region(i, t, start, end) == RegionOf(i, t, n);
    r := Some(Region(i, t, start, end));
  }

  method FindOverlappingRegions(infs: seq<ShardOffset>, trains: seq<ShardOffset>, n: nat) returns (regions: seq<Region>)
    requires Boxed(infs, n) && Boxed(trains, n)
    ensures regions == Regions(infs, trains, n)
  {
    regions := [];
    for a := 0 to |infs|
      invariant regions == Regions(infs[..a], trains, n)
    {
      ghost var before := regions;
      for c := 0 to |trains|
        invariant regions == before + RegionsWith(infs[a], trains[..c], n)
      {
        var region := IntersectBoxes(infs[a], trains[c], n);
        assert trains[..c + 1][..c] == trains[..c];
        if region.Some? {
          regions := regions + [region.value];
        }
      }
      assert trains[..|trains|] == trains;
      assert infs[..a + 1][..a] == infs[..a];
    }
    assert infs[..|infs|] == infs;
  }

  // ----- from regions to operations

  function Minus(a: seq<int>, b: seq<int>): seq<int>
    requires |a| == |b|
  {
    seq(|a|, d requires 0 <= d < |a| => a[d] - b[d])
  }

  function SlicesAt(offset: seq<int>, shape: seq<int>): seq<Slice>
    requires |offset| == |shape|
  {
    seq(|offset|, d requires 0 <= d < |offset| => Slice(offset[d], offset[d] + shape[d]))
  }

  predicate RegionBoxed(g: Region, n: nat) {
    |g.start| == |g.end| == |g.inf.start| == |g.train.start| == n
  }

  predicate AllBoxed(regions: seq<Region>, n: nat) {
    forall k :: 0 <= k < |regions| ==> RegionBoxed(regions[k], n)
  }

  function OpOf(g: Region, n: nat): CommOp
    requires RegionBoxed(g, n)
  {
    var shape := Minus(g.end, g.start);
    var recvOffset, sendOffset := Minus(g.start, g.inf.start), Minus(g.start, g.train.start);
    CommOp(g.train.rank, g.train.shard, sendOffset, g.inf.rank, g.inf.shard, recvOffset,
           shape, SlicesAt(sendOffset, shape), SlicesAt(recvOffset, shape))
  }

  function RankError(b: Builder, op: CommOp): Option<PlanError> {
    if op.sendRank == op.recvRank then Some(SameRank)
    else if op.sendRank < b.inferWorld then Some(SenderNotTraining)
    else if op.recvRank >= b.inferWorld then Some(ReceiverNotInference)
    else None
  }

  /** One region's operation; every intermediate tuple passes through the one scratch list. */
  method BuildRegionOp(b: Builder, g: Region, scratch: array<Scratch>) returns (r: Result<CommOp, PlanError>)
    requires RegionBoxed(g, scratch.Length)
    modifies scratch
    ensures r == var op := OpOf(g, scratch.Length); if RankError(b,
                                                                 op).Some? then Err(RankError(b, op).value) else Ok(op)
  {
    var n := scratch.Length;
    var shape := seq(n, d requires 0 <= d < n => g.end[d] - g.start[d]);
    for i := 0 to n
      invariant forall d :: 0 <= d < i ==> scratch[d] == Num(g.start[d] - g.inf.start[d])
    {
      scratch[i] := Num(g.start[i] - g.inf.start[i]);
    }
    var recvOffset := Nums(scratch[..]);
    for i := 0 to n
      invariant forall d :: 0 <= d < i ==> scratch[d] == Num(g.start[d] - g.train.start[d])
    {
      scratch[i] := Num(g.start[i] - g.train.start[i]);
    }
    var sendOffset := Nums(scratch[..]);
    for i := 0 to n
      invariant forall d :: 0 <= d < i ==> scratch[d] == Span(Slice(sendOffset[d], sendOffset[d] + shape[d]))
    {
      scratch[i] := Span(Slice(sendOffset[i], sendOffset[i] + shape[i]));
    }
    var trainSlices := Spans(scratch[..]);
    for i := 0 to n
      invariant forall d :: 0 <= d < i ==> scratch[d] == Span(Slice(recvOffset[d], recvOffset[d] + shape[d]))
    {
      scratch[i] := Span(Slice(recvOffset[i], recvOffset[i] + shape[i]));
    }
    var infSlices := Spans(scratch[..]);
    var op := CommOp(g.train.rank, g.train.shard, sendOffset, g.inf.rank, g.inf.shard, recvOffset,
                     shape, trainSlices, infSlices);
    assert shape == Minus(g.end, g.start);
    assert recvOffset == Minus(g.start, g.inf.start) && sendOffset == Minus(g.start, g.train.start);
    assert trainSlices == SlicesAt(sendOffset, shape) && infSlices == SlicesAt(recvOffset, shape);
    r := match RankError(b, op) case Some(e) => Err(e) case None => Ok(op);
  }

  /** The operations of the regions; an operation between the wrong worlds stops the planner. */
  function OpsOf(b: Builder, regions: seq<Region>, n: nat): Result<seq<CommOp>, PlanError>
    requires AllBoxed(regions, n)
  {
    if regions == [] then Ok([]) else
      var last := |regions| - 1;
      match OpsOf(b, regions[..last], n)
      case Err(e) => Err(e)
      case Ok(ops) =>
        var op := OpOf(regions[last], n);
        if RankError(b, op).Some? then Err(RankError(b, op).value) else Ok(ops + [op])
  }

  lemma {:induction false} RegionsWithBoxed(i: ShardOffset, trains: seq<ShardOffset>, n: nat)
    requires BoxDims(i, n) && Boxed(trains, n)
    ensures AllBoxed(RegionsWith(i, trains, n), n)
  {
    if trains != [] {
      RegionsWithBoxed(i, trains[..|trains| - 1], n);
    }
  }

  lemma {:induction false} RegionsBoxed(infs: seq<ShardOffset>, trains: seq<ShardOffset>, n: nat)
    requires Boxed(infs, n) && Boxed(trains, n)
    ensures AllBoxed(Regions(infs, trains, n), n)
  {
    if infs != [] {
      RegionsBoxed(infs[..|infs| - 1], trains, n);
      RegionsWithBoxed(infs[|infs| - 1], trains, n);
    }
  }

  lemma {:induction false} BoxesBoxed(b: Builder, replica: seq<Shard>, engine: nat, isInfer: bool, only: Option<nat>,
                                      n: nat)
    requires PlacementError(replica).None?
    requires Dims(replica, n)
    ensures Boxed(BoxesOf(b, replica, engine, isInfer, only), n)
  {
    if replica != [] {
      BoxesBoxed(b, replica[..|replica| - 1], engine, isInfer, only, n);
    }
  }

  // ----- one parameter

  ghost predicate UniformDims(meta: ParamMeta, n: nat) {
    forall a :: 0 <= a < |meta.replicas| ==> Dims(meta.replicas[a], n)
  }

  function DimCount(meta: ParamMeta): nat {
    if meta.replicas == [] || meta.replicas[0] == [] then 0 else |meta.replicas[0][0].raw.shape|
  }

  /** Both sides describe the parameter with the same number of dimensions. */
  ghost predicate Compatible(im: ParamMeta, tm: ParamMeta) {
    UniformDims(im, DimCount(tm)) && UniformDims(tm, DimCount(tm))
  }

  /** The restriction to one transfer rank applies on the side that rank is on. */
  function OnlyInfer(b: Builder, only: Option<nat>): Option<nat> {
    if only.Some? && only.value < b.inferWorld then only else None
  }

  function OnlyTrain(b: Builder, only: Option<nat>): Option<nat> {
    if only.Some? && only.value >= b.inferWorld then only else None
  }

  /** The regions shared by an inference replica on one engine and a training replica. */
  ghost function PairRegions(b: Builder, inf: seq<Shard>, engine: nat, train: seq<Shard>, only: Option<nat>, n: nat)
    : seq<Region>
    requires Dims(inf, n) && Dims(train, n)
    requires PlacementError(inf).None? && PlacementError(train).None?
  {
    BoxesBoxed(b, inf, engine, true, OnlyInfer(b, only), n);
    BoxesBoxed(b, train, 0, false, OnlyTrain(b, only), n);
    Regions(BoxesOf(b, inf, engine, true, OnlyInfer(b, only)), BoxesOf(b, train, 0, false, OnlyTrain(b, only)), n)
  }

  ghost function PairPlan(b: Builder, inf: seq<Shard>, engine: nat, train: seq<Shard>, only: Option<nat>, n: nat)
    : Result<seq<CommOp>, PlanError>
    requires Dims(inf, n) && Dims(train, n)
  {
    if inf == [] || train == [] then Err(NoShards)
    else if PlacementError(inf).Some? then Err(PlacementError(inf).value)
    else if PlacementError(train).Some? then Err(PlacementError(train).value)
    else
      BoxesBoxed(b, inf, engine, true, OnlyInfer(b, only), n);
      BoxesBoxed(b, train, 0, false, OnlyTrain(b, only), n);
      RegionsBoxed(BoxesOf(b, inf, engine, true, OnlyInfer(b, only)), BoxesOf(b, train, 0, false, OnlyTrain(b, only)),
                   n);
      OpsOf(b, PairRegions(b, inf, engine, train, only, n), n)
  }

  /** An inference replica on one engine and the training replica assigned to it. */
  datatype Pair = Pair(engine: nat, inf: seq<Shard>, train: seq<Shard>)

  /** Inference replicas engine by engine; training replicas in turn. */
  function PairList(b: Builder, im: ParamMeta, tm: ParamMeta): seq<Pair>
    requires im.replicas != [] && tm.replicas != []
  {
    var ri, rt := |im.replicas|, |tm.replicas|;
    seq(b.numEngines * ri,
        k requires 0 <= k < b.numEngines * ri => Pair(k / ri, im.replicas[k % ri], tm.replicas[k % rt]))
  }

  ghost predicate PairsDims(pairs: seq<Pair>, n: nat) {
    forall k :: 0 <= k < |pairs| ==> Dims(pairs[k].inf, n) && Dims(pairs[k].train, n)
  }

  ghost function PairsPlan(b: Builder, pairs: seq<Pair>, only: Option<nat>, n: nat): Result<seq<CommOp>, PlanError>
    requires PairsDims(pairs, n)
  {
    if pairs == [] then Ok([]) else
      var last := |pairs| - 1;
      match PairsPlan(b, pairs[..last], only, n)
      case Err(e) => Err(e)
      case Ok(ops) =>
        match PairPlan(b, pairs[last].inf, pairs[last].engine, pairs[last].train, only, n)
        case Err(e) => Err(e)
        case Ok(more) => Ok(ops + more)
  }

  lemma PairListDims(b: Builder, im: ParamMeta, tm: ParamMeta)
    requires Compatible(im, tm) && im.replicas != [] && tm.replicas != []
    ensures PairsDims(PairList(b, im, tm), DimCount(tm))
  {
  }

  ghost function ParameterPlan(b: Builder, im: ParamMeta, tm: ParamMeta, only: Option<nat>)
    : Result<seq<CommOp>, PlanError>
    requires Compatible(im, tm)
  {
    if im.replicas == [] || tm.replicas == [] then Err(NoReplicas) else
      PairListDims(b, im, tm);
      PairsPlan(b, PairList(b, im, tm), only, DimCount(tm))
  }

  method BuildRegionOps(b: Builder, regions: seq<Region>, scratch: array<Scratch>)
    returns (r: Result<seq<CommOp>, PlanError>)
    requires AllBoxed(regions, scratch.Length)
    modifies scratch
    ensures r == OpsOf(b, regions, scratch.Length)
  {
    var plan: seq<CommOp> := [];
    for k := 0 to |regions|
      invariant OpsOf(b, regions[..k], scratch.Length) == Ok(plan)
    {
      assert regions[..k + 1][..k] == regions[..k];
      var op := BuildRegionOp(b, regions[k], scratch);
      if op.Err? {
        FirstOpErrorStays(b, regions, scratch.Length, k + 1);
        return Err(op.error);
      }
      plan := plan + [op.value];
    }
    assert regions[..|regions|] == regions;
    r := Ok(plan);
  }

  lemma {:induction false} FirstOpErrorStays(b: Builder, regions: seq<Region>, n: nat, k: nat)
    requires AllBoxed(regions, n)
    requires k <= |regions| && OpsOf(b, regions[..k], n).Err?
    ensures OpsOf(b, regions, n) == OpsOf(b, regions[..k], n)
    decreases |regions| - k
  {
    if k == |regions| {
      assert regions[..k] == regions;
    } else {
      assert regions[..k + 1][..k] == regions[..k];
      FirstOpErrorStays(b, regions, n, k + 1);
    }
  }

  method BuildPairPlan(b: Builder, inf: seq<Shard>, engine: nat, train: seq<Shard>, only: Option<nat>, ghost n: nat)
    returns (r: Result<seq<CommOp>, PlanError>)
    requires Dims(inf, n) && Dims(train, n)
    ensures r == PairPlan(b, inf, engine, train, only, n)
    ensures inf == [] || train == [] ==> r == Err(NoShards)
  {
    if train == [] || inf == [] {
      return Err(NoShards);
    }
    var scratch := new Scratch[|train[0].raw.shape|](i => Unset);
    var infs := CreateShardOffsets(b, inf, engine, true, OnlyInfer(b, only), scratch);
    if infs.Err? {
      return Err(infs.error);
    }
    var trains := CreateShardOffsets(b, train, 0, false, OnlyTrain(b, only), scratch);
    if trains.Err? {
      return Err(trains.error);
    }
    BoxesBoxed(b, inf, engine, true, OnlyInfer(b, only), n);
    BoxesBoxed(b, train, 0, false, OnlyTrain(b, only), n);
    RegionsBoxed(infs.value, trains.value, n);
    var regions := FindOverlappingRegions(infs.value, trains.value, scratch.Length);
    r := BuildRegionOps(b, regions, scratch);
  }

  method ListReplicaPairs(b: Builder, im: ParamMeta, tm: ParamMeta) returns (pairs: seq<Pair>)
    requires im.replicas != [] && tm.replicas != []
    ensures pairs == PairList(b, im, tm)
  {
    var ri, rt := |im.replicas|, |tm.replicas|;
    var infReplicas: seq<(nat, seq<Shard>)> := [];
    for engine := 0 to b.numEngines
      invariant |infReplicas| == engine * ri
      invariant forall k :: 0 <= k < |infReplicas| ==> infReplicas[k] == (k / ri, im.replicas[k % ri])
    {
      for a := 0 to ri
        invariant |infReplicas| == engine * ri + a
        invariant forall k :: 0 <= k < |infReplicas| ==> infReplicas[k] == (k / ri, im.replicas[k % ri])
      {
        Arithmetic.DivModUnique(engine * ri + a, engine, a, ri);
        infReplicas := infReplicas + [(engine, im.replicas[a])];
      }
      assert (engine + 1) * ri == engine * ri + ri;
    }
    pairs := seq(|infReplicas|, k requires 0 <= k < |infReplicas| =>
      Pair(infReplicas[k].0, infReplicas[k].1, tm.replicas[k % rt]));
  }

  method BuildParameterPlan(b: Builder, im: ParamMeta, tm: ParamMeta, only: Option<nat>)
    returns (r: Result<seq<CommOp>, PlanError>)
    requires Compatible(im, tm)
    ensures r == ParameterPlan(b, im, tm, only)
    ensures im.replicas == [] || tm.replicas == [] ==> r == Err(NoReplicas)
  {
    if im.replicas == [] || tm.replicas == [] {
      return Err(NoReplicas);
    }
    var pairs := ListReplicaPairs(b, im, tm);
    PairListDims(b, im, tm);
    r := BuildPairPlans(b, pairs, only, DimCount(tm));
  }

  method BuildPairPlans(b: Builder, pairs: seq<Pair>, only: Option<nat>, ghost n: nat)
    returns (r: Result<seq<CommOp>, PlanError>)
    requires PairsDims(pairs, n)
    ensures r == PairsPlan(b, pairs, only, n)
  {
    var plan: seq<CommOp> := [];
    for k := 0 to |pairs|
      invariant PairsPlan(b, pairs[..k], only, n) == Ok(plan)
    {
      assert pairs[..k + 1][..k] == pairs[..k];
      var more := BuildPairPlan(b, pairs[k].inf, pairs[k].engine, pairs[k].train, only, n);
      if more.Err? {
        FirstPairErrorStays(b, pairs, only, n, k + 1);
        return Err(more.error);
      }
      plan := plan + more.value;
    }
    assert pairs[..|pairs|] == pairs;
    r := Ok(plan);
  }

  lemma {:induction false} FirstPairErrorStays(b: Builder, pairs: seq<Pair>, only: Option<nat>, n: nat, k: nat)
    requires PairsDims(pairs, n)
    requires k <= |pairs| && PairsPlan(b, pairs[..k], only, n).Err?
    ensures PairsPlan(b, pairs, only, n) == PairsPlan(b, pairs[..k], only, n)
    decreases |pairs| - k
  {
    if k == |pairs| {
      assert pairs[..k] == pairs;
    } else {
      assert pairs[..k + 1][..k] == pairs[..k];
      FirstPairErrorStays(b, pairs, only, n, k + 1);
    }
  }

  // ----- all parameters

  /** Metadata by name; a later entry of the same name replaces an earlier one. */
  function ByName(metas: seq<ParamMeta>): map<nat, ParamMeta> {
    if metas == [] then map[]
    else ByName(metas[..|metas| - 1])[metas[|metas| - 1].name := metas[|metas| - 1]]
  }

  /** The metadata of a name is the last entry with it. */
  lemma {:induction false} ByNameIsLast(metas: seq<ParamMeta>, name: nat) returns (k: nat)
    requires name in ByName(metas)
    ensures k < |metas| && metas[k].name == name && ByName(metas)[name] == metas[k]
    ensures forall l :: k < l < |metas| ==> metas[l].name != name
  {
    k := |metas| - 1;
    if metas[k].name != name {
      k := ByNameIsLast(metas[..k], name);
    }
  }

  lemma {:induction false} ByNameHas(metas: seq<ParamMeta>, k: nat)
    requires k < |metas|
    ensures metas[k].name in ByName(metas)
  {
    if k < |metas| - 1 {
      ByNameHas(metas[..|metas| - 1], k);
    }
  }

  /** The two tied-embedding names may stand in for each other on the inference side. */
  predicate AllowedAlias(b: Builder, key: nat, infer: set<nat>, train: set<nat>) {
    if key == b.lmHead then b.embedTokens in infer && b.embedTokens in train
    else if key == b.embedTokens then b.lmHead in infer && b.lmHead in train
    else false
  }

  predicate KeysMatch(b: Builder, infer: set<nat>, train: set<nat>) {
    train <= infer &&
    if b.strictKeys then infer <= train
    else forall key :: key in infer && key !in train ==> AllowedAlias(b, key, infer, train)
  }

  /** One of the tied-embedding names whose other name both sides have. */
  ghost predicate TiedName(b: Builder, key: nat, infer: set<nat>, train: set<nat>) {
    (key == b.lmHead && b.embedTokens in infer * train) || (key == b.embedTokens && b.lmHead in infer * train)
  }

  /** Names must be the same on both sides; if not strict, training may lack one tied name. */
  lemma KeysMatchIff(b: Builder, infer: set<nat>, train: set<nat>)
    ensures KeysMatch(b, infer, train) <==>
              infer == train
              || (!b.strictKeys &&
                  exists key :: key !in train && infer == train + {key} && TiedName(b, key, infer, train))
  {
    if KeysMatch(b, infer, train) && infer != train {
      var key :| key in infer && key !in train;
      forall other | other in infer && other !in train ensures other == key {
        assert AllowedAlias(b, other, infer, train) && AllowedAlias(b, key, infer, train);
      }
      assert infer == train + {key} && TiedName(b, key, infer, train);
    }
  }

  ghost predicate AllCompatible(ims: map<nat, ParamMeta>, tms: map<nat, ParamMeta>) {
    forall name :: name in ims && name in tms ==> Compatible(ims[name], tms[name])
  }

  ghost function NamesPlan(b: Builder, ims: map<nat, ParamMeta>, tms: map<nat, ParamMeta>, names: seq<nat>,
                           only: Option<nat>)
    : Result<seq<CommOp>, PlanError>
    requires AllCompatible(ims, tms)
    requires forall k :: 0 <= k < |names| ==> names[k] in ims && names[k] in tms
  {
    if names == [] then Ok([]) else
      var last := |names| - 1;
      match NamesPlan(b, ims, tms, names[..last], only)
      case Err(e) => Err(e)
      case Ok(ops) =>
        match ParameterPlan(b, ims[names[last]], tms[names[last]], only)
        case Err(e) => Err(e)
        case Ok(more) => Ok(ops + more)
  }

  lemma CommonNames(ims: map<nat, ParamMeta>, tms: map<nat, ParamMeta>)
    ensures forall k :: 0 <= k < |SortedKeys(ims.Keys * tms.Keys)| ==>
              SortedKeys(ims.Keys * tms.Keys)[k] in ims && SortedKeys(ims.Keys * tms.Keys)[k] in tms
  {
    var common := ims.Keys * tms.Keys;
    SortedKeysProperties(common);
    forall k | 0 <= k < |SortedKeys(common)| ensures SortedKeys(common)[k] in ims && SortedKeys(common)[k] in tms {
      assert SortedKeys(common)[k] in common;
    }
  }

  /** All operations, parameters in name order; or, with `only`, those built for one rank. */
  ghost function MappingPlan(b: Builder, inferMetas: seq<ParamMeta>, trainMetas: seq<ParamMeta>, only: Option<nat>)
    : Result<seq<CommOp>, PlanError>
    requires AllCompatible(ByName(inferMetas), ByName(trainMetas))
  {
    if inferMetas == [] || trainMetas == [] then Ok([]) else
      var ims, tms := ByName(inferMetas), ByName(trainMetas);
      if !KeysMatch(b, ims.Keys, tms.Keys) then Err(KeyMismatch) else
        CommonNames(ims, tms);
        NamesPlan(b, ims, tms, SortedKeys(ims.Keys * tms.Keys), only)
  }

  method BuildWeightsMapping(b: Builder, inferMetas: seq<ParamMeta>, trainMetas: seq<ParamMeta>, only: Option<nat>)
    returns (r: Result<seq<CommOp>, PlanError>)
    requires AllCompatible(ByName(inferMetas), ByName(trainMetas))
    ensures r == MappingPlan(b, inferMetas, trainMetas, only)
    ensures inferMetas == [] || trainMetas == [] ==> r == Ok([])
    ensures inferMetas != [] && trainMetas != [] && !KeysMatch(b, ByName(inferMetas).Keys, ByName(trainMetas).Keys) ==>
              r == Err(KeyMismatch)
  {
    if inferMetas == [] || trainMetas == [] {
      return Ok([]);
    }
    var ims, tms := ByName(inferMetas), ByName(trainMetas);
    if !KeysMatch(b, ims.Keys, tms.Keys) {
      return Err(KeyMismatch);
    }
    var names := SortedKeys(ims.Keys * tms.Keys);
    CommonNames(ims, tms);
    var plan: seq<CommOp> := [];
    for k := 0 to |names|
      invariant NamesPlan(b, ims, tms, names[..k], only) == Ok(plan)
    {
      assert names[..k + 1][..k] == names[..k];
      var more := BuildParameterPlan(b, ims[names[k]], tms[names[k]], only);
      if more.Err? {
        FirstNameErrorStays(b, ims, tms, names, only, k + 1);
        return Err(more.error);
      }
      plan := plan + more.value;
    }
    assert names[..|names|] == names;
    r := Ok(plan);
  }

  lemma {:induction false} FirstNameErrorStays(b: Builder, ims: map<nat, ParamMeta>, tms: map<nat, ParamMeta>,
                                               names: seq<nat>, only: Option<nat>, k: nat)
    requires AllCompatible(ims, tms)
    requires forall j :: 0 <= j < |names| ==> names[j] in ims && names[j] in tms
    requires k <= |names| && NamesPlan(b, ims, tms, names[..k], only).Err?
    ensures NamesPlan(b, ims, tms, names, only) == NamesPlan(b, ims, tms, names[..k], only)
    decreases |names| - k
  {
    if k == |names| {
      assert names[..k] == names;
    } else {
      assert names[..k + 1][..k] == names[..k];
      FirstNameErrorStays(b, ims, tms, names, only, k + 1);
    }
  }
}
