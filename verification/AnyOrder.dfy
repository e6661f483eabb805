/**
 The whole plan as a program on memory: whatever order its operations are applied in,
 every element of every inference shard of every common parameter ends up with the
 training value at the same global index.
 */
module AnyOrder {
  import opened Wrappers
  import opened Seqs
  import opened Arithmetic
  import opened ShardMeta
  import opened TransferPlan
  import opened Reshard

  // ----- where an operation reads

  /** Every region comes from a box of each side. */
  lemma {:induction false} RegionsIn(infs: seq<ShardOffset>, trains: seq<ShardOffset>, n: nat, k: nat)
    returns (i: nat, t: nat)
    requires Boxed(infs, n) && Boxed(trains, n) && k < |Regions(infs, trains, n)|
    ensures i < |infs| && t < |trains| && Overlaps(infs[i], trains[t], n)
    ensures Regions(infs, trains, n)[k] == RegionOf(infs[i], trains[t], n)
  {
    var last := |infs| - 1;
    var before := Regions(infs[..last], trains, n);
    if k < |before| {
      i, t := RegionsIn(infs[..last], trains, n, k);
    } else {
      i := last;
      t := RegionsWithIn(infs[last], trains, n, k - |before|);
    }
  }

  lemma {:induction false} RegionsWithIn(i: ShardOffset, trains: seq<ShardOffset>, n: nat, k: nat) returns (t: nat)
    requires BoxDims(i, n) && Boxed(trains, n) && k < |RegionsWith(i, trains, n)|
    ensures t < |trains| && Overlaps(i, trains[t], n)
    ensures RegionsWith(i, trains, n)[k] == RegionOf(i, trains[t], n)
  {
    var last := |trains| - 1;
    if k < |RegionsWith(i, trains[..last], n)| {
      t := RegionsWithIn(i, trains[..last], n, k);
    } else {
      t := last;
    }
  }

  /** An element of a training shard, by its global index. */
  function TrainLoc(b: Builder, s: Shard, g: seq<nat>): Loc {
    Loc(WriterRank(b, s.raw.globalRank), s.raw.name,
        seq(|g|, d requires 0 <= d < |g| => g[d] as int - (if d < |s.offset| then s.offset[d] else 0)))
  }

  /** The training ranks hold one value per global index, the same on every replica. */
  ghost predicate TrainHolds<V(!new)>(b: Builder, tm: ParamMeta, train: Loc -> V, value: seq<nat> -> V) {
    forall a, k, g | 0 <= a < |tm.replicas| && 0 <= k < |tm.replicas[a]| && InShard(tm.replicas[a][k], g)
      :: train(TrainLoc(b, tm.replicas[a][k], g)) == value(g)
  }

  lemma OpListIn(infs: seq<ShardOffset>, trains: seq<ShardOffset>, n: nat, op: CommOp) returns (i: nat, t: nat)
    requires Boxed(infs, n) && Boxed(trains, n) && AllBoxed(Regions(infs, trains, n), n)
    requires op in OpList(Regions(infs, trains, n), n)
    ensures i < |infs| && t < |trains| && BoxDims(infs[i], n) && BoxDims(trains[t], n) &&
            Overlaps(infs[i], trains[t], n)
    ensures op == OpOf(RegionOf(infs[i], trains[t], n), n)
  {
    var r :| 0 <= r < |Regions(infs, trains, n)| && op == OpOf(Regions(infs, trains, n)[r], n);
    i, t := RegionsIn(infs, trains, n, r);
  }

  /** Every operation of a pair comes from a shard of each side. */
  lemma PairOpIn(b: Builder, p: Pair, n: nat, op: CommOp) returns (i: nat, t: nat)
    requires PairShaped(b, p, n) && op in PairOpList(b, p, n)
    ensures i < |p.inf| && t < |p.train|
    ensures BoxDims(BoxOf(b, p.inf[i], p.engine, true), n) && BoxDims(BoxOf(b, p.train[t], 0, false), n)
    ensures Overlaps(BoxOf(b, p.inf[i], p.engine, true), BoxOf(b, p.train[t], 0, false), n)
    ensures op == OpOf(RegionOf(BoxOf(b, p.inf[i], p.engine, true), BoxOf(b, p.train[t], 0, false), n), n)
  {
    PairBoxed(b, p, n);
    i, t := OpListIn(InfBoxes(b, p), TrainBoxes(b, p), n, op);
    BoxesAll(b, p.inf, p.engine, true);
    BoxesAll(b, p.train, 0, false);
  }

  /** An operation that writes an element reads the training element of the same global index. */
  lemma PairSource(b: Builder, p: Pair, shape: seq<nat>, k: nat, idx: seq<nat>, op: CommOp) returns (t: nat)
    requires PairShaped(b, p, |shape|)
    requires k < |p.inf| && Within(p.inf[k], shape) && InShape(idx, p.inf[k].raw.shape) && DistinctRanks(p.inf)
    requires op in PairOpList(b, p, |shape|) && Covers(op, InferLoc(b, p.inf[k], p.engine, idx))
    ensures t < |p.train| && InShard(p.train[t], GlobalOf(p.inf[k], idx))
    ensures |op.trainSlices| == |op.infSlices| == |idx|
    ensures SourceOf(op, InferLoc(b, p.inf[k], p.engine, idx)) == TrainLoc(b, p.train[t], GlobalOf(p.inf[k], idx))
  {
    var i;
    i, t := PairOpIn(b, p, |shape|, op);
    OnOwnBox(b, p.inf[k], p.engine, idx, shape);
    CoversIff(BoxOf(b, p.inf[i], p.engine, true), BoxOf(b, p.train[t], 0, false), |shape|,
              InferLoc(b, p.inf[k], p.engine, idx));
    assert i == k;
    PlacedDims(p.train, t);
    ShardSource(b, p.inf[k], p.engine, p.train[t], |shape|, idx);
  }

  /** The arithmetic of one operation: global index minus the training shard's offset. */
  lemma ShardSource(b: Builder, s: Shard, engine: nat, t: Shard, n: nat, idx: seq<nat>)
    requires |idx| == n && |s.offset| == |s.raw.shape| && |t.offset| == |t.raw.shape|
    requires BoxDims(BoxOf(b, s, engine, true), n) && BoxDims(BoxOf(b, t, 0, false), n)
    requires InBox(BoxOf(b, t, 0, false), GlobalIndex(BoxOf(b, s, engine, true).start, idx))
    ensures InShard(t, GlobalOf(s, idx))
    ensures var op := OpOf(RegionOf(BoxOf(b, s, engine, true), BoxOf(b, t, 0, false), n), n);
            && |op.trainSlices| == |op.infSlices| == n
            && SourceOf(op, InferLoc(b, s, engine, idx)) == TrainLoc(b, t, GlobalOf(s, idx))
  {
    var sb, tb, g := BoxOf(b, s, engine, true), BoxOf(b, t, 0, false), GlobalOf(s, idx);
    assert GlobalIndex(sb.start, idx) == g;
    BoxHolds(b, t, 0, false, g);
    SourceIndex(sb, tb, n, InferLoc(b, s, engine, idx));
    assert Minus(GlobalIndex(sb.start, idx), tb.start) == TrainLoc(b, t, g).idx;
  }

  lemma {:induction false} PlacedDims(replica: seq<Shard>, k: nat)
    requires PlacementError(replica).None? && k < |replica|
    ensures |replica[k].offset| == |replica[k].raw.shape|
  {
    if k < |replica| - 1 {
      PlacedDims(replica[..|replica| - 1], k);
    }
  }

  lemma SourceIndex(i: ShardOffset, t: ShardOffset, n: nat, loc: Loc)
    requires BoxDims(i, n) && BoxDims(t, n) && |loc.idx| == n
    ensures var op := OpOf(RegionOf(i, t, n), n);
            && |op.trainSlices| == |op.infSlices| == n
            && SourceOf(op, loc) == Loc(t.rank, t.shard.raw.name, Minus(GlobalIndex(i.start, loc.idx), t.start))
  {
    var op := OpOf(RegionOf(i, t, n), n);
    assert SourceOf(op, loc).idx == Minus(GlobalIndex(i.start, loc.idx), t.start);
  }

  lemma {:induction false} PairsIn(b: Builder, pairs: seq<Pair>, n: nat, op: CommOp) returns (m: nat)
    requires PairsShaped(b, pairs, n) && op in PairsOpList(b, pairs, n)
    ensures m < |pairs| && op in PairOpList(b, pairs[m], n)
  {
    var last := |pairs| - 1;
    if op in PairsOpList(b, pairs[..last], n) {
      m := PairsIn(b, pairs[..last], n, op);
    } else {
      m := last;
    }
  }

  lemma ParameterSource<V(!new)>(b: Builder, im: ParamMeta, tm: ParamMeta, shape: seq<nat>,
                                 train: Loc -> V, value: seq<nat> -> V,
                                 engine: nat, a: nat, k: nat, idx: seq<nat>, op: CommOp)
    requires Matched(b, im, tm, shape) && engine < b.numEngines && TrainHolds(b, tm, train, value)
    requires a < |im.replicas| && k < |im.replicas[a]| && InShape(idx, im.replicas[a][k].raw.shape)
    requires Compatible(im, tm) && ParameterPlan(b, im, tm, None).Ok?
    requires op in ParameterPlan(b, im, tm, None).value && Covers(op, InferLoc(b, im.replicas[a][k], engine, idx))
    ensures |op.trainSlices| == |op.infSlices| == |idx|
    ensures train(SourceOf(op, InferLoc(b, im.replicas[a][k], engine, idx))) == value(GlobalOf(im.replicas[a][k], idx))
  {
    var c, t := ParameterSourceShard(b, im, tm, shape, engine, a, k, idx, op);
    assert InShard(tm.replicas[c][t], GlobalOf(im.replicas[a][k], idx));
  }

  lemma ParameterSourceShard(b: Builder, im: ParamMeta, tm: ParamMeta, shape: seq<nat>,
                             engine: nat, a: nat, k: nat, idx: seq<nat>, op: CommOp) returns (c: nat, t: nat)
    requires Matched(b, im, tm, shape) && engine < b.numEngines
    requires a < |im.replicas| && k < |im.replicas[a]| && InShape(idx, im.replicas[a][k].raw.shape)
    requires Compatible(im, tm) && ParameterPlan(b, im, tm, None).Ok?
    requires op in ParameterPlan(b, im, tm, None).value && Covers(op, InferLoc(b, im.replicas[a][k], engine, idx))
    ensures |op.trainSlices| == |op.infSlices| == |idx|
    ensures c < |tm.replicas| && t < |tm.replicas[c]| && InShard(tm.replicas[c][t], GlobalOf(im.replicas[a][k], idx))
    ensures SourceOf(op, InferLoc(b, im.replicas[a][k], engine, idx))
         == TrainLoc(b, tm.replicas[c][t], GlobalOf(im.replicas[a][k], idx))
  {
    var m := OwnPair(b, im, tm, shape, engine, a, k, idx);
    MatchedPlan(b, im, tm, shape);
    t := PairsSource(b, PairList(b, im, tm), shape, m, k, idx, op);
    c :| 0 <= c < |tm.replicas| && PairList(b, im, tm)[m].train == tm.replicas[c];
  }

  lemma PairsSource(b: Builder, pairs: seq<Pair>, shape: seq<nat>, m: nat, k: nat, idx: seq<nat>, op: CommOp)
    returns (t: nat)
    requires OnlyPair(b, pairs, shape, m, k, idx) && op in PairsOpList(b, pairs, |shape|)
    requires Covers(op, InferLoc(b, pairs[m].inf[k], pairs[m].engine, idx))
    ensures t < |pairs[m].train| && InShard(pairs[m].train[t], GlobalOf(pairs[m].inf[k], idx))
    ensures |op.trainSlices| == |op.infSlices| == |idx|
    ensures SourceOf(op, InferLoc(b, pairs[m].inf[k], pairs[m].engine, idx))
         == TrainLoc(b, pairs[m].train[t], GlobalOf(pairs[m].inf[k], idx))
  {
    var own := PairsIn(b, pairs, |shape|, op);
    if own != m {
      OffPairOps(b, pairs[own], |shape|, InferLoc(b, pairs[m].inf[k], pairs[m].engine, idx), op);
    }
    t := PairSource(b, pairs[m], shape, k, idx, op);
  }

  lemma OffPairOps(b: Builder, p: Pair, n: nat, loc: Loc, op: CommOp)
    requires PairShaped(b, p, n) && OffPair(b, p, loc) && op in PairOpList(b, p, n)
    ensures !Covers(op, loc)
  {
    var i, t := PairOpIn(b, p, n, op);
    CoversIff(BoxOf(b, p.inf[i], p.engine, true), BoxOf(b, p.train[t], 0, false), n, loc);
  }

  // ----- all parameters

  /** Metadata of both sides for every common name, with the global shapes. */
  ghost predicate MatchedWorld(b: Builder, ims: map<nat, ParamMeta>, tms: map<nat, ParamMeta>,
                               shapes: map<nat, seq<nat>>)
  {
    forall name :: name in ims && name in tms ==>
      name in shapes && ims[name].name == name && Matched(b, ims[name], tms[name], shapes[name])
  }

  lemma WorldCompatible(b: Builder, ims: map<nat, ParamMeta>, tms: map<nat, ParamMeta>, shapes: map<nat, seq<nat>>)
    requires MatchedWorld(b, ims, tms, shapes)
    ensures AllCompatible(ims, tms)
  {
    forall name | name in ims && name in tms ensures Compatible(ims[name], tms[name]) {
      MatchedCompatible(b, ims[name], tms[name], shapes[name]);
    }
  }

  /** A parameter's plan succeeds, and its operations carry its name. */
  lemma ParameterOps(b: Builder, im: ParamMeta, tm: ParamMeta, shape: seq<nat>)
    requires Matched(b, im, tm, shape)
    ensures Compatible(im, tm) && ParameterPlan(b, im, tm, None).Ok?
    ensures forall op :: op in ParameterPlan(b, im, tm, None).value ==> op.recvShard.raw.name == im.name
  {
    var pairs := PairList(b, im, tm);
    MatchedShaped(b, im, tm, shape);
    forall m, k | 0 <= m < |pairs| && 0 <= k < |pairs[m].inf| ensures pairs[m].inf[k].raw.name == im.name {
      assert pairs[m].inf == im.replicas[m % |im.replicas|];
    }
    PairsOpNames(b, pairs, |shape|, im.name);
    MatchedPlan(b, im, tm, shape);
  }

  lemma PairsOpNames(b: Builder, pairs: seq<Pair>, n: nat, name: nat)
    requires PairsShaped(b, pairs, n)
    requires forall m, k :: 0 <= m < |pairs| && 0 <= k < |pairs[m].inf| ==> pairs[m].inf[k].raw.name == name
    ensures forall op :: op in PairsOpList(b, pairs, n) ==> op.recvShard.raw.name == name
  {
    forall op | op in PairsOpList(b, pairs, n) ensures op.recvShard.raw.name == name {
      var m := PairsIn(b, pairs, n, op);
      var i, t := PairOpIn(b, pairs[m], n, op);
    }
  }

  lemma {:induction false} CountOtherName(ops: seq<CommOp>, name: nat, loc: Loc)
    requires loc.name != name && forall op :: op in ops ==> op.recvShard.raw.name == name
    ensures CoverCount(ops, loc) == 0
  {
    if ops != [] {
      assert forall op :: op in ops[..|ops| - 1] ==> op in ops;
      CountOtherName(ops[..|ops| - 1], name, loc);
      assert ops[|ops| - 1] in ops;
    }
  }

  ghost predicate NamesIn(ims: map<nat, ParamMeta>, tms: map<nat, ParamMeta>, names: seq<nat>) {
    forall k :: 0 <= k < |names| ==> names[k] in ims && names[k] in tms
  }

  lemma {:induction false} NamesSucceed(b: Builder, ims: map<nat, ParamMeta>, tms: map<nat, ParamMeta>,
                                        shapes: map<nat, seq<nat>>, names: seq<nat>)
    requires MatchedWorld(b, ims, tms, shapes) && AllCompatible(ims, tms) && NamesIn(ims, tms, names)
    ensures NamesPlan(b, ims, tms, names, None).Ok?
  {
    if names != [] {
      var last := |names| - 1;
      NamesSucceed(b, ims, tms, shapes, names[..last]);
      ParameterOps(b, ims[names[last]], tms[names[last]], shapes[names[last]]);
    }
  }

  /** Only the parameter a location belongs to is planned onto it. */
  lemma {:induction false} NamesCover(b: Builder, ims: map<nat, ParamMeta>, tms: map<nat, ParamMeta>,
                                      shapes: map<nat, seq<nat>>, names: seq<nat>, loc: Loc)
    requires MatchedWorld(b, ims, tms, shapes) && AllCompatible(ims, tms) && NamesIn(ims, tms, names)
    requires NamesPlan(b, ims, tms, names, None).Ok?
    requires forall i, j :: 0 <= i < j < |names| ==> names[i] != names[j]
    ensures loc.name !in names ==> CoverCount(NamesPlan(b, ims, tms, names, None).value, loc) == 0
    ensures loc.name in names ==> ParameterPlan(b, ims[loc.name], tms[loc.name], None).Ok?
    ensures loc.name in names ==>
              var own := ParameterPlan(b, ims[loc.name], tms[loc.name], None).value;
              CoverCount(NamesPlan(b, ims, tms, names, None).value, loc) == CoverCount(own, loc)
  {
    if names != [] {
      var last := |names| - 1;
      var name := names[last];
      NamesSucceed(b, ims, tms, shapes, names[..last]);
      NamesCover(b, ims, tms, shapes, names[..last], loc);
      ParameterOps(b, ims[name], tms[name], shapes[name]);
      var before := NamesPlan(b, ims, tms, names[..last], None).value;
      var more := ParameterPlan(b, ims[name], tms[name], None).value;
      CoverCountConcat(before, more, loc);
      if loc.name != name {
        CountOtherName(more, name, loc);
      }
    }
  }

  /** An operation of the whole plan belongs to the plan of the parameter it writes. */
  lemma {:induction false} NamesOp(b: Builder, ims: map<nat, ParamMeta>, tms: map<nat, ParamMeta>,
                                   shapes: map<nat, seq<nat>>, names: seq<nat>, op: CommOp)
    requires MatchedWorld(b, ims, tms, shapes) && AllCompatible(ims, tms) && NamesIn(ims, tms, names)
    requires NamesPlan(b, ims, tms, names, None).Ok? && op in NamesPlan(b, ims, tms, names, None).value
    ensures op.recvShard.raw.name in names
    ensures var name := op.recvShard.raw.name;
            ParameterPlan(b, ims[name], tms[name], None).Ok? && op in ParameterPlan(b, ims[name], tms[name], None).value
  {
    var last := |names| - 1;
    var name := names[last];
    NamesSucceed(b, ims, tms, shapes, names[..last]);
    ParameterOps(b, ims[name], tms[name], shapes[name]);
    if op in NamesPlan(b, ims, tms, names[..last], None).value {
      NamesOp(b, ims, tms, shapes, names[..last], op);
    }
  }

  // ----- what an operation says

  /** The same box of the global tensor, cut out of the sender's shard and out of the receiver's. */
  ghost predicate SameBox(op: CommOp) {
    var n, s, r := |op.overlapShape|, op.sendShard, op.recvShard;
    && |op.sendOffset| == |op.recvOffset| == |op.trainSlices| == |op.infSlices| == n
    && |s.offset| == |s.raw.shape| == |r.offset| == |r.raw.shape| == n
    && forall d :: 0 <= d < n ==>
         && 0 < op.overlapShape[d] && s.offset[d] + op.sendOffset[d] == r.offset[d] + op.recvOffset[d]
         && 0 <= op.sendOffset[d] && op.sendOffset[d] + op.overlapShape[d] <= s.raw.shape[d]
         && 0 <= op.recvOffset[d] && op.recvOffset[d] + op.overlapShape[d] <= r.raw.shape[d]
         && op.trainSlices[d] == Slice(op.sendOffset[d], op.sendOffset[d] + op.overlapShape[d])
         && op.infSlices[d] == Slice(op.recvOffset[d], op.recvOffset[d] + op.overlapShape[d])
  }

  /** From the shard's own training rank to the shard's own rank of the engine. */
  ghost predicate Addressed(b: Builder, op: CommOp, engine: nat) {
    && op.sendRank == WriterRank(b, op.sendShard.raw.globalRank)
    && op.recvRank == ReaderRank(b, engine, op.recvShard.raw.globalRank) < b.inferWorld
    && engine < b.numEngines && op.recvShard.raw.globalRank < b.InstanceWorld()
  }

  /** The inference replica's copy on the engine takes its turn among the training replicas. */
  ghost predicate InTurn(im: ParamMeta, tm: ParamMeta, op: CommOp, engine: nat, a: nat) {
    && a < |im.replicas| && tm.replicas != [] && op.recvShard in im.replicas[a]
    && op.sendShard in tm.replicas[Turn(im, tm, engine, a)]
  }

  function Turn(im: ParamMeta, tm: ParamMeta, engine: nat, a: nat): (c: nat)
    requires tm.replicas != []
    ensures c < |tm.replicas|
  {
    (engine * |im.replicas| + a) % |tm.replicas|
  }

  ghost predicate FromTurn(p: Pair, im: ParamMeta, tm: ParamMeta) {
    tm.replicas != [] &&
    exists a :: 0 <= a < |im.replicas| && p.inf == im.replicas[a] && p.train == tm.replicas[Turn(im, tm, p.engine, a)]
  }

  lemma PairTurn(b: Builder, im: ParamMeta, tm: ParamMeta, m: nat)
    requires im.replicas != [] && tm.replicas != [] && m < b.numEngines * |im.replicas|
    ensures FromTurn(PairList(b, im, tm)[m], im, tm)
  {
    var ri := |im.replicas|;
    DivModParts(m, ri);
    assert Turn(im, tm, m / ri, m % ri) == m % |tm.replicas|;
    assert PairList(b, im, tm)[m].inf == im.replicas[m % ri];
  }

  ghost predicate AllFromTurn(pairs: seq<Pair>, im: ParamMeta, tm: ParamMeta) {
    forall m :: 0 <= m < |pairs| ==> FromTurn(pairs[m], im, tm)
  }

  lemma InTurns(b: Builder, im: ParamMeta, tm: ParamMeta)
    requires im.replicas != [] && tm.replicas != []
    ensures AllFromTurn(PairList(b, im, tm), im, tm)
  {
    forall m | 0 <= m < |PairList(b, im, tm)| ensures FromTurn(PairList(b, im, tm)[m], im, tm) {
      PairTurn(b, im, tm, m);
    }
  }

  lemma RegionSameBox(b: Builder, i: Shard, engine: nat, t: Shard, n: nat)
    requires |i.offset| == |i.raw.shape| == n && |t.offset| == |t.raw.shape| == n
    requires BoxDims(BoxOf(b, i, engine, true), n) && BoxDims(BoxOf(b, t, 0, false), n)
    requires Overlaps(BoxOf(b, i, engine, true), BoxOf(b, t, 0, false), n)
    ensures SameBox(OpOf(RegionOf(BoxOf(b, i, engine, true), BoxOf(b, t, 0, false), n), n))
  {
    var ib, tb := BoxOf(b, i, engine, true), BoxOf(b, t, 0, false);
    forall d | 0 <= d < n ensures Max(ib.start[d], tb.start[d]) < Min(ib.end[d], tb.end[d]) {
    }
  }

  lemma PairOpAddressed(b: Builder, p: Pair, n: nat, op: CommOp)
    requires PairShaped(b, p, n) && op in PairOpList(b, p, n)
    ensures SameBox(op) && Addressed(b, op, p.engine) && op.recvShard in p.inf && op.sendShard in p.train
  {
    var i, t := PairOpIn(b, p, n, op);
    PlacedDims(p.inf, i);
    PlacedDims(p.train, t);
    RegionSameBox(b, p.inf[i], p.engine, p.train[t], n);
    RankInEngine(b, p.inf[i], p.engine);
  }

  lemma PairsOpAddressed(b: Builder, pairs: seq<Pair>, n: nat, op: CommOp) returns (m: nat)
    requires PairsShaped(b, pairs, n) && op in PairsOpList(b, pairs, n)
    ensures m < |pairs| && SameBox(op) && Addressed(b, op, pairs[m].engine)
    ensures op.recvShard in pairs[m].inf && op.sendShard in pairs[m].train
  {
    m := PairsIn(b, pairs, n, op);
    PairOpAddressed(b, pairs[m], n, op);
  }

  lemma ParameterOpAddressed(b: Builder, im: ParamMeta, tm: ParamMeta, shape: seq<nat>, op: CommOp)
    returns (engine: nat, a: nat)
    requires Matched(b, im, tm, shape) && Compatible(im, tm) && ParameterPlan(b, im, tm, None).Ok?
    requires op in ParameterPlan(b, im, tm, None).value
    ensures SameBox(op) && Addressed(b, op, engine) && InTurn(im, tm, op, engine, a)
  {
    MatchedPlan(b, im, tm, shape);
    InTurns(b, im, tm);
    engine, a := ListOpAddressed(b, PairList(b, im, tm), im, tm, |shape|, op);
  }

  lemma ListOpAddressed(b: Builder, pairs: seq<Pair>, im: ParamMeta, tm: ParamMeta, n: nat, op: CommOp)
    returns (engine: nat, a: nat)
    requires PairsShaped(b, pairs, n) && op in PairsOpList(b, pairs, n)
    requires AllFromTurn(pairs, im, tm)
    ensures SameBox(op) && Addressed(b, op, engine) && InTurn(im, tm, op, engine, a)
  {
    var m := PairsOpAddressed(b, pairs, n, op);
    engine := pairs[m].engine;
    a :| 0 <= a < |im.replicas| && pairs[m].inf == im.replicas[a]
         && pairs[m].train == tm.replicas[Turn(im, tm, pairs[m].engine, a)];
  }

  lemma NamesOpAddressed(b: Builder, ims: map<nat, ParamMeta>, tms: map<nat, ParamMeta>, shapes: map<nat, seq<nat>>,
                         names: seq<nat>, op: CommOp) returns (engine: nat, a: nat)
    requires MatchedWorld(b, ims, tms, shapes) && AllCompatible(ims, tms) && NamesIn(ims, tms, names)
    requires NamesPlan(b, ims, tms, names, None).Ok? && op in NamesPlan(b, ims, tms, names, None).value
    ensures SameBox(op) && Addressed(b, op, engine)
    ensures var name := op.recvShard.raw.name;
            && name in ims && name in tms && op.sendShard.raw.name == name
            && InTurn(ims[name], tms[name], op, engine, a)
  {
    var name := op.recvShard.raw.name;
    NamesOp(b, ims, tms, shapes, names, op);
    engine, a := ParameterOpAddressed(b, ims[name], tms[name], shapes[name], op);
    TrainName(tms[name], shapes[name], Turn(ims[name], tms[name], engine, a), op.sendShard);
  }

  /** Every operation of the whole plan moves one box between the ranks that hold it, replicas taking turns. */
  lemma PlanAddressed(b: Builder, inferMetas: seq<ParamMeta>, trainMetas: seq<ParamMeta>, shapes: map<nat, seq<nat>>,
                      op: CommOp) returns (engine: nat, a: nat)
    requires MatchedWorld(b, ByName(inferMetas), ByName(trainMetas), shapes)
    requires AllCompatible(ByName(inferMetas), ByName(trainMetas)) && MappingPlan(b, inferMetas, trainMetas, None).Ok?
    requires op in MappingPlan(b, inferMetas, trainMetas, None).value
    ensures SameBox(op) && Addressed(b, op, engine)
    ensures op.recvRank / b.InstanceWorld() == engine
    ensures op.recvRank % b.InstanceWorld() == op.recvShard.raw.globalRank
    ensures var name := op.recvShard.raw.name;
            && name in ByName(inferMetas) && name in ByName(trainMetas) && op.sendShard.raw.name == name
            && InTurn(ByName(inferMetas)[name], ByName(trainMetas)[name], op, engine, a)
  {
    var ims, tms := ByName(inferMetas), ByName(trainMetas);
    CommonNames(ims, tms);
    engine, a := NamesOpAddressed(b, ims, tms, shapes, SortedKeys(ims.Keys * tms.Keys), op);
    DivModUnique(op.recvRank, engine, op.recvShard.raw.globalRank, b.InstanceWorld());
  }

  lemma TrainName(tm: ParamMeta, shape: seq<nat>, c: nat, s: Shard)
    requires Tiled(tm, shape) && c < |tm.replicas| && s in tm.replicas[c]
    ensures s.raw.name == tm.name
  {
    var k :| 0 <= k < |tm.replicas[c]| && tm.replicas[c][k] == s;
  }

  // ----- running a plan

  /** Copies the operation's training slice onto its inference slice. */
  function Apply<V>(op: CommOp, train: Loc -> V, mem: Loc -> V): Loc -> V {
    (loc: Loc) => if |op.trainSlices| == |op.infSlices| && Covers(op, loc) then train(SourceOf(op, loc)) else mem(loc)
  }

  function Run<V>(ops: seq<CommOp>, train: Loc -> V, mem: Loc -> V): Loc -> V {
    if ops == [] then mem else Apply(ops[|ops| - 1], train, Run(ops[..|ops| - 1], train, mem))
  }

  lemma {:induction false} RunSettles<V>(ops: seq<CommOp>, train: Loc -> V, mem: Loc -> V, loc: Loc, v: V)
    requires forall op :: op in ops && Covers(op, loc) ==>
               |op.trainSlices| == |op.infSlices| && train(SourceOf(op, loc)) == v
    requires (exists op :: op in ops && Covers(op, loc)) || mem(loc) == v
    ensures Run(ops, train, mem)(loc) == v
  {
    if ops != [] {
      var last := ops[|ops| - 1];
      assert last in ops;
      assert forall op :: op in ops[..|ops| - 1] ==> op in ops;
      if !Covers(last, loc) {
        if op :| op in ops && Covers(op, loc) {
          assert op in ops[..|ops| - 1];
        }
        RunSettles(ops[..|ops| - 1], train, mem, loc, v);
      }
    }
  }

  lemma {:induction false} CountedMeansCovered(ops: seq<CommOp>, loc: Loc)
    requires CoverCount(ops, loc) > 0
    ensures exists op :: op in ops && Covers(op, loc)
  {
    var last := ops[|ops| - 1];
    if Covers(last, loc) {
      assert last in ops;
    } else {
      CountedMeansCovered(ops[..|ops| - 1], loc);
    }
  }

  /** The plan built from metadata whose names match exists and writes each element once. */
  lemma ReshardExactlyOnce(b: Builder, inferMetas: seq<ParamMeta>, trainMetas: seq<ParamMeta>,
                           shapes: map<nat, seq<nat>>, name: nat, engine: nat, a: nat, k: nat, idx: seq<nat>)
    requires inferMetas != [] && trainMetas != [] && MatchedWorld(b, ByName(inferMetas), ByName(trainMetas), shapes)
    requires KeysMatch(b, ByName(inferMetas).Keys, ByName(trainMetas).Keys)
    requires name in ByName(inferMetas) && name in ByName(trainMetas) && engine < b.numEngines
    requires var im := ByName(inferMetas)[name];
             a < |im.replicas| && k < |im.replicas[a]| && InShape(idx, im.replicas[a][k].raw.shape)
    ensures AllCompatible(ByName(inferMetas), ByName(trainMetas)) && MappingPlan(b, inferMetas, trainMetas, None).Ok?
    ensures CoverCount(MappingPlan(b, inferMetas, trainMetas, None).value,
                       InferLoc(b, ByName(inferMetas)[name].replicas[a][k], engine, idx)) == 1
  {
    var ims, tms := ByName(inferMetas), ByName(trainMetas);
    var names, loc := SortedKeys(ims.Keys * tms.Keys), InferLoc(b, ims[name].replicas[a][k], engine, idx);
    WorldCompatible(b, ims, tms, shapes);
    CommonNames(ims, tms);
    SortedKeysProperties(ims.Keys * tms.Keys);
    assert name in ims.Keys * tms.Keys;
    NamesSucceed(b, ims, tms, shapes, names);
    NamesCover(b, ims, tms, shapes, names, loc);
    ParameterExactlyOnce(b, ims[name], tms[name], shapes[name], engine, a, k, idx);
  }

  /** In whatever order the plan is run, each element gets the training value of its global index. */
  lemma ReshardAnyOrder<V(!new)>(b: Builder, inferMetas: seq<ParamMeta>, trainMetas: seq<ParamMeta>,
                                 shapes: map<nat, seq<nat>>,
                                 train: Loc -> V, value: (nat, seq<nat>) -> V, mem: Loc -> V, order: seq<CommOp>,
                                 name: nat, engine: nat, a: nat, k: nat, idx: seq<nat>)
    requires inferMetas != [] && trainMetas != [] && MatchedWorld(b, ByName(inferMetas), ByName(trainMetas), shapes)
    requires KeysMatch(b, ByName(inferMetas).Keys, ByName(trainMetas).Keys)
    requires name in ByName(inferMetas) && name in ByName(trainMetas) && engine < b.numEngines
    requires var im := ByName(inferMetas)[name];
             a < |im.replicas| && k < |im.replicas[a]| && InShape(idx, im.replicas[a][k].raw.shape)
    requires TrainHolds(b, ByName(trainMetas)[name], train, g => value(name, g))
    requires AllCompatible(ByName(inferMetas), ByName(trainMetas)) && MappingPlan(b, inferMetas, trainMetas, None).Ok?
    requires forall op :: op in order <==> op in MappingPlan(b, inferMetas, trainMetas, None).value
    ensures var s := ByName(inferMetas)[name].replicas[a][k];
            Run(order, train, mem)(InferLoc(b, s, engine, idx)) == value(name, GlobalOf(s, idx))
  {
    var ims, tms := ByName(inferMetas), ByName(trainMetas);
    var im, tm := ims[name], tms[name];
    var ops, loc := MappingPlan(b, inferMetas, trainMetas, None).value, InferLoc(b, im.replicas[a][k], engine, idx);
    var v := value(name, GlobalOf(im.replicas[a][k], idx));
    ReshardExactlyOnce(b, inferMetas, trainMetas, shapes, name, engine, a, k, idx);
    CountedMeansCovered(ops, loc);
    CommonNames(ims, tms);
    forall op | op in order && Covers(op, loc)
      ensures |op.trainSlices| == |op.infSlices| && train(SourceOf(op, loc)) == v
    {
      NamesOp(b, ims, tms, shapes, SortedKeys(ims.Keys * tms.Keys), op);
      ParameterSource(b, im, tm, shapes[name], train, g => value(name, g), engine, a, k, idx, op);
    }
    RunSettles(order, train, mem, loc, v);
  }
}
