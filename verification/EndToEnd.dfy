/**
 From the ranks' reports to the copied elements: the metadata that the resolver builds from
 sound reports meets every premise of the planner, so the results about plans, element
 counts and colocated updates hold for it.
 */
module EndToEnd {
  import opened Wrappers
  import opened Seqs
  import opened ShardMeta
  import opened TransferPlan
  import opened Reshard
  import opened AnyOrder
  import opened LocalPlan
  import opened PlanStats
  import opened Rendezvous
  import opened Butterfly
  import opened Chunked
  import opened Colocate
  import opened Separated

  /** One side's reports, parameter by parameter; every name once. */
  ghost predicate SoundSide(side: seq<RawShards>) {
    && (forall i :: 0 <= i < |side| ==> SoundReports(side[i]))
    && (forall i, j :: 0 <= i < j < |side| ==> side[i][0].name != side[j][0].name)
  }

  /** The metadata the resolver builds from them. */
  function Resolved(side: seq<RawShards>): seq<ParamMeta>
    requires forall i :: 0 <= i < |side| ==> MetaOf(side[i]).Ok?
  {
    seq(|side|, i requires 0 <= i < |side| => MetaOf(side[i]).value)
  }

  /** Sound reports on both sides, common parameters of equal global shape, names that match. */
  ghost predicate SoundWorld(b: Builder, infer: seq<RawShards>, train: seq<RawShards>) {
    && infer != [] && train != [] && SoundSide(infer) && SoundSide(train)
    && (forall i, k :: 0 <= i < |infer| && 0 <= k < |infer[i]| ==> infer[i][k].globalRank < b.InstanceWorld())
    && (forall i, j :: 0 <= i < |infer| && 0 <= j < |train| && infer[i][0].name == train[j][0].name ==>
          MetaOf(infer[i]).value.globalShape == MetaOf(train[j]).value.globalShape)
    && KeysMatch(b, ByName(Resolved(infer)).Keys, ByName(Resolved(train)).Keys)
  }

  /** Where a parameter's metadata comes from. */
  lemma {:induction false} ResolvedBy(side: seq<RawShards>, name: nat) returns (i: nat)
    requires SoundSide(side) && name in ByName(Resolved(side))
    ensures i < |side| && side[i][0].name == name && ByName(Resolved(side))[name] == MetaOf(side[i]).value
  {
    var last := |side| - 1;
    var metas := Resolved(side);
    assert metas[..last] == Resolved(side[..last]);
    if metas[last].name == name {
      i := last;
    } else {
      i := ResolvedBy(side[..last], name);
    }
  }

  /** The global shapes of one side's parameters. */
  function ShapesOf(metas: map<nat, ParamMeta>): map<nat, seq<nat>> {
    map name | name in metas :: metas[name].globalShape
  }

  lemma ResolvedWorld(b: Builder, infer: seq<RawShards>, train: seq<RawShards>)
    requires SoundWorld(b, infer, train)
    ensures var ims := ByName(Resolved(infer)); SlabWorld(b, ims, ByName(Resolved(train)), ShapesOf(ims))
  {
    var ims, tms := ByName(Resolved(infer)), ByName(Resolved(train));
    forall name | name in ims && name in tms
      ensures ims[name].name == name && SlabMatched(b, ims[name], tms[name], ims[name].globalShape)
    {
      var i := ResolvedBy(infer, name);
      var j := ResolvedBy(train, name);
      ResolvedSlabs(b, infer[i], train[j]);
    }
  }

  lemma ReportsPlan(b: Builder, infer: seq<RawShards>, train: seq<RawShards>)
    requires SoundWorld(b, infer, train)
    ensures AllCompatible(ByName(Resolved(infer)), ByName(Resolved(train)))
    ensures MappingPlan(b, Resolved(infer), Resolved(train), None).Ok?
  {
    var ims, tms := ByName(Resolved(infer)), ByName(Resolved(train));
    ResolvedWorld(b, infer, train);
    WorldCompatible(b, ims, tms, ShapesOf(ims));
    CommonNames(ims, tms);
    NamesSucceed(b, ims, tms, ShapesOf(ims), SortedKeys(ims.Keys * tms.Keys));
  }

  /** The operations planned from the reports; planning succeeds. */
  ghost function PlannedFrom(b: Builder, infer: seq<RawShards>, train: seq<RawShards>): seq<CommOp>
    requires SoundWorld(b, infer, train)
  {
    ReportsPlan(b, infer, train);
    MappingPlan(b, Resolved(infer), Resolved(train), None).value
  }

  /** Element idx of a shard of a common parameter. */
  ghost predicate CommonElement(b: Builder, infer: seq<RawShards>, train: seq<RawShards>,
                                name: nat, engine: nat, a: nat, k: nat, idx: seq<nat>)
    requires SoundWorld(b, infer, train)
  {
    && name in ByName(Resolved(infer)) && name in ByName(Resolved(train)) && engine < b.numEngines
    && var im := ByName(Resolved(infer))[name];
       a < |im.replicas| && k < |im.replicas[a]| && InShape(idx, im.replicas[a][k].raw.shape)
  }

  /** The plan made from the reports writes every element of every inference shard of a common parameter once. */
  lemma ReportsExactlyOnce(b: Builder, infer: seq<RawShards>, train: seq<RawShards>,
                           name: nat, engine: nat, a: nat, k: nat, idx: seq<nat>)
    requires SoundWorld(b, infer, train) && CommonElement(b, infer, train, name, engine, a, k, idx)
    ensures CoverCount(PlannedFrom(b, infer, train),
                       InferLoc(b, ByName(Resolved(infer))[name].replicas[a][k], engine, idx)) == 1
  {
    ResolvedWorld(b, infer, train);
    ReshardExactlyOnce(b, Resolved(infer), Resolved(train), ShapesOf(ByName(Resolved(infer))), name, engine, a, k, idx);
  }

  /** Run in any order, it leaves each of them with the training value of its global index. */
  lemma ReportsAnyOrder<V(!new)>(b: Builder, infer: seq<RawShards>, train: seq<RawShards>,
                                 held: Loc -> V, value: (nat, seq<nat>) -> V, mem: Loc -> V, order: seq<CommOp>,
                                 name: nat, engine: nat, a: nat, k: nat, idx: seq<nat>)
    requires SoundWorld(b, infer, train) && CommonElement(b, infer, train, name, engine, a, k, idx)
    requires TrainHolds(b, ByName(Resolved(train))[name], held, g => value(name, g))
    requires forall op :: op in order <==> op in PlannedFrom(b, infer, train)
    ensures var s := ByName(Resolved(infer))[name].replicas[a][k];
            Run(order, held, mem)(InferLoc(b, s, engine, idx)) == value(name, GlobalOf(s, idx))
  {
    var im, tm := Resolved(infer), Resolved(train);
    ResolvedWorld(b, infer, train);
    ReportsPlan(b, infer, train);
    assert forall op :: op in order <==> op in MappingPlan(b, im, tm, None).value;
    ReshardAnyOrder(b, im, tm, ShapesOf(ByName(im)), held, value, mem, order,
                    name, engine, a, k, idx);
  }

  /** An inference rank's own plan carries exactly the elements it reported of the common parameters. */
  lemma ReportsConservation(b: Builder, infer: seq<RawShards>, train: seq<RawShards>, rank: nat)
    requires SoundWorld(b, infer, train) && rank < b.inferWorld
    ensures AllCompatible(ByName(Resolved(infer)), ByName(Resolved(train)))
    ensures LocalPlanOf(b, Resolved(infer), Resolved(train), rank).Ok?
    ensures var ims := ByName(Resolved(infer));
            PlanNumel(LocalPlanOf(b, Resolved(infer), Resolved(train), rank).value)
            == HeldOf(b, ims, SortedKeys(ims.Keys * ByName(Resolved(train)).Keys), rank)
  {
    ResolvedWorld(b, infer, train);
    Conservation(b, Resolved(infer), Resolved(train), ShapesOf(ByName(Resolved(infer))), rank);
  }

  /**
   Reports in, updated weights out: a power of two of devices, any step sizes, any finished
   run, and its writes in any order.
   */
  lemma ReportsColocatedUpdate<V(!new)>(g: Setting, infer: seq<RawShards>, train: seq<RawShards>, run: seq<Event>,
                                        order: seq<CommOp>, held: Loc -> V, value: (nat, seq<nat>) -> V, mem: Loc -> V,
                                        name: nat, engine: nat, a: nat, k: nat, idx: seq<nat>)
    requires SoundWorld(g.b, infer, train) && g.inferMetas == Resolved(infer) && g.trainMetas == Resolved(train)
    requires Colocated(g) && PowerOfTwo(g.b.inferWorld) && FinishedRun(NetOf(ChunkedWorld(Devices(g))), run)
    requires multiset(order) == multiset(Applied(g, run))
    requires CommonElement(g.b, infer, train, name, engine, a, k, idx)
    requires TrainHolds(g.b, ByName(g.trainMetas)[name], held, x => value(name, x))
    ensures var s := ByName(g.inferMetas)[name].replicas[a][k];
            Run(order, held, mem)(InferLoc(g.b, s, engine, idx)) == value(name, GlobalOf(s, idx))
  {
    ResolvedWorld(g.b, infer, train);
    ColocatedUpdate(g, ShapesOf(ByName(g.inferMetas)), run, order, held, value, mem, name, engine, a, k, idx);
  }

  // ----- separate devices

  /** An operation is sent by the rank of some training shard. */
  lemma PairSender(b: Builder, p: Pair, n: nat, op: CommOp) returns (t: nat)
    requires PairShaped(b, p, n) && op in PairOpList(b, p, n)
    ensures t < |p.train| && op.sendRank == p.train[t].raw.globalRank + b.inferWorld
  {
    var i;
    i, t := PairOpIn(b, p, n, op);
  }

  lemma TrainingReplica(b: Builder, im: ParamMeta, tm: ParamMeta, m: nat) returns (c: nat)
    requires im.replicas != [] && tm.replicas != [] && m < |PairList(b, im, tm)|
    ensures c < |tm.replicas| && PairList(b, im, tm)[m].train == tm.replicas[c]
  {
    c := m % |tm.replicas|;
  }

  /** A training rank sends what it reported. */
  lemma SenderReported(b: Builder, im: ParamMeta, train: RawShards, shape: seq<nat>, op: CommOp)
    requires SoundReports(train) && Matched(b, im, MetaOf(train).value, shape)
    requires Compatible(im, MetaOf(train).value) && ParameterPlan(b, im, MetaOf(train).value, None).Ok?
    requires op in ParameterPlan(b, im, MetaOf(train).value, None).value
    ensures exists k :: 0 <= k < |train| && op.sendRank == train[k].globalRank + b.inferWorld
  {
    var tm := MetaOf(train).value;
    MatchedPlan(b, im, tm, shape);
    var m := PairsIn(b, PairList(b, im, tm), |shape|, op);
    var t := PairSender(b, PairList(b, im, tm)[m], |shape|, op);
    var c := TrainingReplica(b, im, tm, m);
    ResolvedShard(train, c, t);
  }

  /** Every training rank has a transfer rank below the end of the training world. */
  lemma SendersFit(b: Builder, infer: seq<RawShards>, train: seq<RawShards>, trainWorld: nat, op: CommOp)
    requires SoundWorld(b, infer, train) && op in PlannedFrom(b, infer, train)
    requires forall j, k :: 0 <= j < |train| && 0 <= k < |train[j]| ==> train[j][k].globalRank < trainWorld
    ensures op.sendRank < b.inferWorld + trainWorld
  {
    var ims, tms := ByName(Resolved(infer)), ByName(Resolved(train));
    ReportsPlan(b, infer, train);
    ResolvedWorld(b, infer, train);
    CommonNames(ims, tms);
    NamesOp(b, ims, tms, ShapesOf(ims), SortedKeys(ims.Keys * tms.Keys), op);
    var name := op.recvShard.raw.name;
    SortedKeysProperties(ims.Keys * tms.Keys);
    var j := ResolvedBy(train, name);
    SenderReported(b, ims[name], train[j], ims[name].globalShape, op);
  }

  /** The local plans of separate devices, made from the reports. */
  ghost function SeparatePlans(b: Builder, infer: seq<RawShards>, train: seq<RawShards>, trainWorld: nat): Plans<CommOp>
    requires SoundWorld(b, infer, train)
  {
    ReportsPlan(b, infer, train);
    LocalPlans(b, Resolved(infer), Resolved(train), trainWorld)
  }

  /** Reports in, updated weights out, on separate devices: any finished run, and its writes in any order. */
  lemma ReportsSeparateUpdate<V(!new)>(b: Builder, infer: seq<RawShards>, train: seq<RawShards>, trainWorld: nat,
                                       run: seq<Wire>, order: seq<CommOp>,
                                       held: Loc -> V, value: (nat, seq<nat>) -> V, mem: Loc -> V,
                                       name: nat, engine: nat, a: nat, k: nat, idx: seq<nat>)
    requires SoundWorld(b, infer, train) && CommonElement(b, infer, train, name, engine, a, k, idx)
    requires forall j, l :: 0 <= j < |train| && 0 <= l < |train[j]| ==> train[j][l].globalRank < trainWorld
    requires FinishedRun(WireNet(SeparatePlans(b, infer, train, trainWorld)), run)
    requires multiset(order) == multiset(Writes(SeparatePlans(b, infer, train, trainWorld), run))
    requires TrainHolds(b, ByName(Resolved(train))[name], held, g => value(name, g))
    ensures Paired(SeparatePlans(b, infer, train, trainWorld))
    ensures var s := ByName(Resolved(infer))[name].replicas[a][k];
            Run(order, held, mem)(InferLoc(b, s, engine, idx)) == value(name, GlobalOf(s, idx))
  {
    SeparateOrder(b, infer, train, trainWorld, run, order);
    ReportsAnyOrder(b, infer, train, held, value, mem, order, name, engine, a, k, idx);
  }

  lemma SeparateOrder(b: Builder, infer: seq<RawShards>, train: seq<RawShards>, trainWorld: nat, run: seq<Wire>,
                      order: seq<CommOp>)
    requires SoundWorld(b, infer, train)
    requires forall j, l :: 0 <= j < |train| && 0 <= l < |train[j]| ==> train[j][l].globalRank < trainWorld
    requires FinishedRun(WireNet(SeparatePlans(b, infer, train, trainWorld)), run)
    requires multiset(order) == multiset(Writes(SeparatePlans(b, infer, train, trainWorld), run))
    ensures Paired(SeparatePlans(b, infer, train, trainWorld))
    ensures forall op :: op in order <==> op in PlannedFrom(b, infer, train)
  {
    var w := SeparatePlans(b, infer, train, trainWorld);
    ReportsPlan(b, infer, train);
    forall op | op in PlannedFrom(b, infer, train) ensures op.sendRank < b.inferWorld + trainWorld {
      SendersFit(b, infer, train, trainWorld, op);
    }
    LocalPlansPaired(b, Resolved(infer), Resolved(train), trainWorld);
    forall op ensures op in order <==> op in PlannedFrom(b, infer, train) {
      WritesArePlan(b, Resolved(infer), Resolved(train), trainWorld, run, op);
      assert op in order <==> op in multiset(order);
      assert op in Writes(w, run) <==> op in multiset(Writes(w, run));
    }
  }
}
