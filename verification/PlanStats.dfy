/**
 Conservation: the element count reported for an inference rank's plan is exactly the
 number of elements of the shards that rank holds.
 */
module PlanStats {
  import opened Wrappers
  import opened Seqs
  import opened ShardMeta
  import opened TransferPlan
  import opened Reshard
  import opened AnyOrder
  import opened LocalPlan

  function ShapeNumel(shape: seq<int>): int {
    if shape == [] then 1 else ShapeNumel(shape[..|shape| - 1]) * shape[|shape| - 1]
  }

  function OpsNumel(ops: seq<CommOp>): int {
    if ops == [] then 0 else OpsNumel(ops[..|ops| - 1]) + ShapeNumel(ops[|ops| - 1].overlapShape)
  }

  function GroupsNumel(plan: map<nat, seq<CommOp>>, peers: seq<nat>): int {
    if peers == [] then 0 else GroupsNumel(plan, peers[..|peers| - 1]) + OpsNumel(PeerOps(plan, peers[|peers| - 1]))
  }

  function PlanNumel(plan: map<nat, seq<CommOp>>): int { GroupsNumel(plan, SortedKeys(plan.Keys)) }

  method ComputePlanStats(plan: map<nat, seq<CommOp>>) returns (numel: int)
    ensures numel == PlanNumel(plan)
  {
    SortedKeysProperties(plan.Keys);
    numel := CountGroups(plan, SortedKeys(plan.Keys));
  }

  method CountGroups(plan: map<nat, seq<CommOp>>, peers: seq<nat>) returns (numel: int)
    requires forall j :: 0 <= j < |peers| ==> peers[j] in plan
    ensures numel == GroupsNumel(plan, peers)
  {
    numel := 0;
    for j := 0 to |peers|
      invariant numel == GroupsNumel(plan, peers[..j])
    {
      var group := CountOps(plan[peers[j]]);
      numel := numel + group;
      assert peers[..j + 1][..j] == peers[..j];
    }
    assert peers[..|peers|] == peers;
  }

  method CountOps(ops: seq<CommOp>) returns (numel: int)
    ensures numel == OpsNumel(ops)
  {
    numel := 0;
    for i := 0 to |ops|
      invariant numel == OpsNumel(ops[..i])
    {
      var opNumel := CountShape(ops[i].overlapShape);
      numel := numel + opNumel;
      assert ops[..i + 1][..i] == ops[..i];
    }
    assert ops[..|ops|] == ops;
  }

  method CountShape(shape: seq<int>) returns (numel: int)
    ensures numel == ShapeNumel(shape)
  {
    numel := 1;
    for d := 0 to |shape|
      invariant numel == ShapeNumel(shape[..d])
    {
      numel := numel * shape[d];
      assert shape[..d + 1][..d] == shape[..d];
    }
    assert shape[..|shape|] == shape;
  }

  // ----- grouping and sorting keep the count

  lemma {:induction false} NumelConcat(a: seq<CommOp>, c: seq<CommOp>)
    ensures OpsNumel(a + c) == OpsNumel(a) + OpsNumel(c)
  {
    if c == [] {
      assert a + c == a;
    } else {
      NumelConcat(a, c[..|c| - 1]);
      assert (a + c)[..|a + c| - 1] == a + c[..|c| - 1];
    }
  }

  lemma {:induction false} SortKeepsNumel(ops: seq<CommOp>)
    ensures OpsNumel(SortOps(ops)) == OpsNumel(ops)
  {
    if ops != [] {
      SortKeepsNumel(ops[..|ops| - 1]);
      InsertKeepsNumel(SortOps(ops[..|ops| - 1]), ops[|ops| - 1]);
    }
  }

  lemma {:induction false} InsertKeepsNumel(s: seq<CommOp>, x: CommOp)
    ensures OpsNumel(InsertLast(s, x, OpBefore)) == OpsNumel(s) + ShapeNumel(x.overlapShape)
  {
    var r := InsertLast(s, x, OpBefore);
    if s == [] || !OpBefore(x, s[|s| - 1]) {
      assert r[..|r| - 1] == s;
    } else {
      InsertKeepsNumel(s[..|s| - 1], x);
      assert r[..|r| - 1] == InsertLast(s[..|s| - 1], x, OpBefore);
    }
  }

  function PeerIn(peers: seq<nat>, isTrain: bool): CommOp -> bool {
    (op: CommOp) => PeerRank(op, isTrain) in peers
  }

  lemma {:induction false} NumelSplit(ops: seq<CommOp>, peers: seq<nat>, peer: nat, isTrain: bool)
    requires peer !in peers
    ensures OpsNumel(Filter(ops, PeerIn(peers + [peer], isTrain)))
         == OpsNumel(Filter(ops, PeerIn(peers, isTrain))) + OpsNumel(Filter(ops, WithPeer(peer, isTrain)))
  {
    if ops != [] {
      var last := |ops| - 1;
      NumelSplit(ops[..last], peers, peer, isTrain);
      NumelFilterLast(ops, PeerIn(peers + [peer], isTrain));
      NumelFilterLast(ops, PeerIn(peers, isTrain));
      NumelFilterLast(ops, WithPeer(peer, isTrain));
    }
  }

  lemma NumelOne(op: CommOp)
    ensures OpsNumel([op]) == ShapeNumel(op.overlapShape)
  {
    assert [op][..0] == [];
  }

  lemma NumelFilterLast(ops: seq<CommOp>, keep: CommOp -> bool)
    requires ops != []
    ensures OpsNumel(Filter(ops, keep)) == OpsNumel(Filter(ops[..|ops| - 1], keep))
              + (if keep(ops[|ops| - 1]) then ShapeNumel(ops[|ops| - 1].overlapShape) else 0)
  {
    var before, last := Filter(ops[..|ops| - 1], keep), ops[|ops| - 1];
    if keep(last) {
      assert Filter(ops, keep) == before + [last];
      NumelConcat(before, [last]);
      NumelOne(last);
    } else {
      assert Filter(ops, keep) == before;
    }
  }

  lemma {:induction false} GroupsNumelUpTo(ops: seq<CommOp>, isTrain: bool, plan: map<nat, seq<CommOp>>,
                                           peers: seq<nat>)
    requires forall i, j :: 0 <= i < j < |peers| ==> peers[i] < peers[j]
    requires forall i :: 0 <= i < |peers| ==>
               OpsNumel(PeerOps(plan, peers[i])) == OpsNumel(Filter(ops, WithPeer(peers[i], isTrain)))
    ensures GroupsNumel(plan, peers) == OpsNumel(Filter(ops, PeerIn(peers, isTrain)))
  {
    if peers == [] {
      FilterNone(ops, PeerIn(peers, isTrain));
    } else {
      var last := |peers| - 1;
      var fewer, peer := peers[..last], peers[last];
      assert peers == fewer + [peer];
      GroupsNumelUpTo(ops, isTrain, plan, fewer);
      NumelSplit(ops, fewer, peer, isTrain);
      assert GroupsNumel(plan, peers) == GroupsNumel(plan, fewer) + OpsNumel(PeerOps(plan, peer));
    }
  }

  lemma GroupNumel(ops: seq<CommOp>, isTrain: bool, peer: nat)
    requires peer in Peers(ops, isTrain)
    ensures OpsNumel(PeerOps(GroupByPeer(ops, isTrain), peer)) == OpsNumel(Filter(ops, WithPeer(peer, isTrain)))
  {
    SortKeepsNumel(Filter(ops, WithPeer(peer, isTrain)));
  }

  lemma {:induction false} PeersOf(ops: seq<CommOp>, isTrain: bool, op: CommOp)
    requires op in ops
    ensures PeerRank(op, isTrain) in Peers(ops, isTrain)
  {
    if op != ops[|ops| - 1] {
      PeersOf(ops[..|ops| - 1], isTrain, op);
    }
  }

  /** Grouping and sorting a rank's operations keeps their element count. */
  lemma GroupingKeepsNumel(ops: seq<CommOp>, isTrain: bool)
    ensures PlanNumel(GroupByPeer(ops, isTrain)) == OpsNumel(ops)
  {
    var peers := SortedKeys(Peers(ops, isTrain));
    assert GroupByPeer(ops, isTrain).Keys == Peers(ops, isTrain);
    SortedKeysProperties(Peers(ops, isTrain));
    forall i | 0 <= i < |peers|
      ensures OpsNumel(PeerOps(GroupByPeer(ops, isTrain), peers[i]))
              == OpsNumel(Filter(ops, WithPeer(peers[i], isTrain)))
    {
      GroupNumel(ops, isTrain, peers[i]);
    }
    GroupsNumelUpTo(ops, isTrain, GroupByPeer(ops, isTrain), peers);
    forall op | op in ops ensures PeerIn(peers, isTrain)(op) {
      PeersOf(ops, isTrain, op);
    }
    FilterAll(ops, PeerIn(peers, isTrain));
  }

  // ----- the slabs cut an inference box into parts that add up

  /** How much of the extent [lo, hi) lies below p. */
  function Below(lo: int, hi: int, p: int): int {
    if p <= lo then 0 else if p >= hi then hi - lo else p - lo
  }

  lemma {:induction false} NumelOfNats(shape: seq<nat>)
    ensures ShapeNumel(shape) == Product(shape)
  {
    if shape != [] {
      NumelOfNats(shape[..|shape| - 1]);
    }
  }

  /** One training box against an inference box. */
  function OneOp(i: ShardOffset, t: ShardOffset, n: nat): seq<CommOp>
    requires BoxDims(i, n) && BoxDims(t, n)
  {
    if Overlaps(i, t, n) then [OpOf(RegionOf(i, t, n), n)] else []
  }

  /** A slab of a training replica: number j of those laid end to end along dimension c. */
  ghost predicate IsSlab(slab: Shard, shape: seq<nat>, c: nat, p: nat) {
    && c < |shape| == |slab.raw.shape| && slab.offset == OffsetAlong(|shape|, c, p)
    && forall d :: 0 <= d < |shape| && d != c ==> slab.raw.shape[d] == shape[d]
  }

  /** The part of the shard's extent along c that a slab starting at p holds. */
  function Part(s: Shard, c: nat, p: nat, slab: Shard): int
    requires c < |s.offset| == |s.raw.shape| && c < |slab.raw.shape|
  {
    var lo, hi := s.offset[c], s.offset[c] + s.raw.shape[c];
    Below(lo, hi, p + slab.raw.shape[c]) - Below(lo, hi, p)
  }

  lemma PartOfSlab(s: Shard, c: nat, p: nat, slab: Shard)
    requires c < |s.offset| == |s.raw.shape| && c < |slab.raw.shape|
    ensures Part(s, c, p, slab) >= 0 && Below(s.offset[c], s.offset[c] + s.raw.shape[c], p) >= 0
    ensures var lo, hi := s.offset[c], s.offset[c] + s.raw.shape[c];
            var from, to := Max(lo, p), Min(hi, p + slab.raw.shape[c]);
            Part(s, c, p, slab) == if from < to then to - from else 0
  {}

  /** An operation of the shard on a slab has the shard's extents, but along c the part. */
  lemma OverlapShape(b: Builder, s: Shard, engine: nat, slab: Shard, shape: seq<nat>, c: nat, p: nat)
    requires Within(s, shape) && IsSlab(slab, shape, c, p)
    requires Overlaps(BoxOf(b, s, engine, true), BoxOf(b, slab, 0, false), |shape|)
    ensures Part(s, c, p, slab) >= 0
    ensures OpOf(RegionOf(BoxOf(b, s, engine, true), BoxOf(b, slab, 0, false), |shape|), |shape|).overlapShape
         == s.raw.shape[c := Part(s, c, p, slab)]
  {
    var n, box, t := |shape|, BoxOf(b, s, engine, true), BoxOf(b, slab, 0, false);
    var overlap := OpOf(RegionOf(box, t, n), n).overlapShape;
    PartOfSlab(s, c, p, slab);
    forall d | 0 <= d < n ensures overlap[d] == s.raw.shape[c := Part(s, c, p, slab)][d] {
      assert Max(box.start[d], t.start[d]) < Min(box.end[d], t.end[d]);
      assert s.offset[d] + s.raw.shape[d] <= shape[d];
    }
  }

  lemma NoOverlapShape(b: Builder, s: Shard, engine: nat, slab: Shard, shape: seq<nat>, c: nat, p: nat) returns (d: nat)
    requires Within(s, shape) && IsSlab(slab, shape, c, p)
    requires !Overlaps(BoxOf(b, s, engine, true), BoxOf(b, slab, 0, false), |shape|)
    ensures Part(s, c, p, slab) >= 0
    ensures d < |shape| && s.raw.shape[c := Part(s, c, p, slab)][d] == 0
  {
    var box, t := BoxOf(b, s, engine, true), BoxOf(b, slab, 0, false);
    PartOfSlab(s, c, p, slab);
    d :| 0 <= d < |shape| && Max(box.start[d], t.start[d]) >= Min(box.end[d], t.end[d]);
    assert s.offset[d] + s.raw.shape[d] <= shape[d];
  }

  lemma SlabNumel(b: Builder, s: Shard, engine: nat, slab: Shard, shape: seq<nat>, c: nat, p: nat)
    requires Within(s, shape) && IsSlab(slab, shape, c, p)
    ensures Part(s, c, p, slab) >= 0
    ensures OpsNumel(OneOp(BoxOf(b, s, engine, true), BoxOf(b, slab, 0, false), |shape|))
         == Product(s.raw.shape[c := Part(s, c, p, slab)])
  {
    var n, box, t := |shape|, BoxOf(b, s, engine, true), BoxOf(b, slab, 0, false);
    PartOfSlab(s, c, p, slab);
    if Overlaps(box, t, n) {
      OverlapShape(b, s, engine, slab, shape, c, p);
      NumelOne(OpOf(RegionOf(box, t, n), n));
      NumelOfNats(s.raw.shape[c := Part(s, c, p, slab)]);
    } else {
      var d := NoOverlapShape(b, s, engine, slab, shape, c, p);
      ProductZero(s.raw.shape[c := Part(s, c, p, slab)], d);
    }
  }

  /** The elements of the shard that lie below p along c. */
  function BelowNumel(s: Shard, c: nat, p: nat): nat
    requires c < |s.offset| == |s.raw.shape|
  {
    Product(s.raw.shape[c := Below(s.offset[c], s.offset[c] + s.raw.shape[c], p)])
  }

  lemma BelowStep(s: Shard, c: nat, p: nat, slab: Shard)
    requires c < |s.offset| == |s.raw.shape| && c < |slab.raw.shape|
    ensures Part(s, c, p, slab) >= 0
    ensures BelowNumel(s, c, p + slab.raw.shape[c])
            == BelowNumel(s, c, p) + Product(s.raw.shape[c := Part(s, c, p, slab)])
  {
    PartOfSlab(s, c, p, slab);
    ProductAdds(s.raw.shape, c, Below(s.offset[c], s.offset[c] + s.raw.shape[c], p), Part(s, c, p, slab));
  }

  /** The slabs start at the marks and end at the next ones. */
  ghost predicate Marked(train: seq<Shard>, shape: seq<nat>, c: nat, marks: seq<nat>) {
    && c < |shape| && |marks| == |train| + 1 && marks[0] == 0
    && (forall j :: 0 <= j < |train| ==> IsSlab(train[j], shape, c, marks[j]))
    && (forall j :: 0 <= j < |train| ==>
          |train[j].raw.shape| == |shape| && marks[j + 1] == marks[j] + train[j].raw.shape[c])
  }

  lemma SlabMarks(train: seq<Shard>, shape: seq<nat>, c: nat) returns (marks: seq<nat>)
    requires SlabTiling(train, shape, c)
    ensures Marked(train, shape, c, marks) && marks[|train|] == shape[c]
  {
    var raws := Reports(train);
    marks := seq(|train| + 1, j requires 0 <= j <= |train| => ExtentBefore(raws, c, j));
    assert Extents(raws[..0], c) == [];
    forall j | 0 <= j < |train|
      ensures IsSlab(train[j], shape, c, marks[j]) && marks[j + 1] == marks[j] + train[j].raw.shape[c]
    {
      assert train[j] == Place(raws, |shape|, c)[j];
      ExtentStep(raws, c, j);
    }
  }

  /** Contributions that are the differences of running totals add up to the last total. */
  lemma {:induction false} Telescope(box: ShardOffset, boxes: seq<ShardOffset>, n: nat, totals: seq<int>)
    requires BoxDims(box, n) && Boxed(boxes, n) && |totals| == |boxes| + 1 && totals[0] == 0
    requires forall k :: 0 <= k < |boxes| ==> OpsNumel(OneOp(box, boxes[k], n)) == totals[k + 1] - totals[k]
    ensures OpsNumel(WithOps(box, boxes, n)) == totals[|boxes|]
  {
    if boxes != [] {
      var last := |boxes| - 1;
      Telescope(box, boxes[..last], n, totals[..last + 1]);
      NumelConcat(WithOps(box, boxes[..last], n), OneOp(box, boxes[last], n));
      assert WithOps(box, boxes, n) == WithOps(box, boxes[..last], n) + OneOp(box, boxes[last], n);
    }
  }

  lemma SlabPart(b: Builder, s: Shard, engine: nat, slab: Shard, shape: seq<nat>, c: nat, p: nat, lo: int, hi: int)
    requires Within(s, shape) && IsSlab(slab, shape, c, p)
    requires lo == BelowNumel(s, c, p) && hi == BelowNumel(s, c, p + slab.raw.shape[c])
    ensures OpsNumel(OneOp(BoxOf(b, s, engine, true), BoxOf(b, slab, 0, false), |shape|)) == hi - lo
  {
    SlabNumel(b, s, engine, slab, shape, c, p);
    BelowStep(s, c, p, slab);
  }

  /** The operations of one inference shard carry exactly its elements. */
  lemma ShardNumel(b: Builder, s: Shard, engine: nat, train: seq<Shard>, shape: seq<nat>, c: nat)
    requires Within(s, shape) && SlabTiling(train, shape, c)
    requires Boxed(BoxesOf(b, train, 0, false, None), |shape|)
    ensures OpsNumel(WithOps(BoxOf(b, s, engine, true), BoxesOf(b, train, 0, false, None), |shape|))
            == Product(s.raw.shape)
  {
    var totals := ShardTotals(b, s, engine, train, shape, c);
    BoxesAll(b, train, 0, false);
    Telescope(BoxOf(b, s, engine, true), BoxesOf(b, train, 0, false, None), |shape|, totals);
  }

  /** Running totals whose differences are what the operations on the slabs carry. */
  lemma ShardTotals(b: Builder, s: Shard, engine: nat, train: seq<Shard>, shape: seq<nat>, c: nat)
    returns (totals: seq<int>)
    requires Within(s, shape) && SlabTiling(train, shape, c)
    ensures |totals| == |train| + 1 && totals[0] == 0 && totals[|train|] == Product(s.raw.shape)
    ensures forall k :: 0 <= k < |train| ==> BoxDims(BoxOf(b, train[k], 0, false), |shape|)
    ensures forall k :: 0 <= k < |train| ==>
              OpsNumel(OneOp(BoxOf(b, s, engine, true), BoxOf(b, train[k], 0, false), |shape|))
                == totals[k + 1] - totals[k]
  {
    var marks := SlabMarks(train, shape, c);
    totals := BelowMarks(s, c, marks, shape);
    ShardParts(b, s, engine, train, shape, c, marks, totals);
  }

  lemma ShardParts(b: Builder, s: Shard, engine: nat, train: seq<Shard>, shape: seq<nat>, c: nat, marks: seq<nat>,
                   totals: seq<int>)
    requires Within(s, shape) && Marked(train, shape, c, marks)
    requires |totals| == |marks| && forall j :: 0 <= j < |marks| ==> totals[j] == BelowNumel(s, c, marks[j])
    ensures forall k :: 0 <= k < |train| ==> BoxDims(BoxOf(b, train[k], 0, false), |shape|)
    ensures forall k :: 0 <= k < |train| ==>
              OpsNumel(OneOp(BoxOf(b, s, engine, true), BoxOf(b, train[k], 0, false), |shape|))
                == totals[k + 1] - totals[k]
  {
    forall k | 0 <= k < |train|
      ensures BoxDims(BoxOf(b, train[k], 0, false), |shape|)
      ensures OpsNumel(OneOp(BoxOf(b, s, engine, true), BoxOf(b, train[k], 0, false), |shape|))
              == totals[k + 1] - totals[k]
    {
      SlabPart(b, s, engine, train[k], shape, c, marks[k], totals[k], totals[k + 1]);
    }
  }

  /** The shard's elements below each mark. */
  lemma BelowMarks(s: Shard, c: nat, marks: seq<nat>, shape: seq<nat>) returns (totals: seq<int>)
    requires Within(s, shape) && c < |shape| && marks != [] && marks[0] == 0 && marks[|marks| - 1] == shape[c]
    ensures |totals| == |marks| && forall j :: 0 <= j < |marks| ==> totals[j] == BelowNumel(s, c, marks[j])
    ensures totals[0] == 0 && totals[|marks| - 1] == Product(s.raw.shape)
  {
    totals := seq(|marks|, j requires 0 <= j < |marks| => BelowNumel(s, c, marks[j]));
    ProductZero(s.raw.shape[c := 0], c);
    WholeBelow(s, c, shape);
  }

  lemma WholeBelow(s: Shard, c: nat, shape: seq<nat>)
    requires Within(s, shape) && c < |shape|
    ensures BelowNumel(s, c, shape[c]) == Product(s.raw.shape)
  {
    var lo, hi := s.offset[c], s.offset[c] + s.raw.shape[c];
    assert Below(lo, hi, shape[c]) == s.raw.shape[c];
    assert s.raw.shape[c := s.raw.shape[c]] == s.raw.shape;
  }

  // ----- what an inference rank holds, and what its plan carries

  /** The elements of a replica's shards that sit on one transfer rank. */
  function RankNumel(b: Builder, replica: seq<Shard>, engine: nat, rank: nat): nat {
    if replica == [] then 0 else
      var last := replica[|replica| - 1];
      RankNumel(b, replica[..|replica| - 1], engine, rank)
      + (if ReaderRank(b, engine, last.raw.globalRank) == rank then Product(last.raw.shape) else 0)
  }

  /** Every copy of an inference replica: one per engine and replica. */
  function Copies(b: Builder, im: ParamMeta): seq<(nat, seq<Shard>)> {
    var ri := |im.replicas|;
    seq(b.numEngines * ri, k requires 0 <= k < b.numEngines * ri => (k / ri, im.replicas[k % ri]))
  }

  function CopiesNumel(b: Builder, copies: seq<(nat, seq<Shard>)>, rank: nat): nat {
    if copies == [] then 0 else
      var last := copies[|copies| - 1];
      CopiesNumel(b, copies[..|copies| - 1], rank) + RankNumel(b, last.1, last.0, rank)
  }

  /** The elements of one parameter that a transfer rank holds. */
  function HeldNumel(b: Builder, im: ParamMeta, rank: nat): nat { CopiesNumel(b, Copies(b, im), rank) }

  function HeldOf(b: Builder, ims: map<nat, ParamMeta>, names: seq<nat>, rank: nat): nat {
    if names == [] then 0 else
      var last := names[|names| - 1];
      HeldOf(b, ims, names[..|names| - 1], rank) + (if last in ims then HeldNumel(b, ims[last], rank) else 0)
  }

  lemma RankNumelLast(b: Builder, inf: seq<Shard>, engine: nat, rank: nat)
    requires inf != []
    ensures var last := |inf| - 1;
            RankNumel(b, inf, engine, rank)
            == RankNumel(b, inf[..last], engine, rank)
               + (if BoxOf(b, inf[last], engine, true).rank == rank then Product(inf[last].raw.shape) else 0)
  {
    assert BoxOf(b, inf[|inf| - 1], engine, true).rank == ReaderRank(b, engine, inf[|inf| - 1].raw.globalRank);
  }

  lemma {:induction false} RankOpsNumel(b: Builder, inf: seq<Shard>, engine: nat, train: seq<Shard>, shape: seq<nat>,
                                        c: nat, rank: nat)
    requires SlabTiling(train, shape, c) && forall k :: 0 <= k < |inf| ==> Within(inf[k], shape)
    requires Boxed(BoxesOf(b, inf, engine, true, None), |shape|) && Boxed(BoxesOf(b, train, 0, false, None), |shape|)
    ensures OpsNumel(Filter(BoxOps(BoxesOf(b, inf, engine, true, None), BoxesOf(b, train, 0, false, None), |shape|),
                            OwnedBy(rank, false)))
         == RankNumel(b, inf, engine, rank)
  {
    if inf != [] {
      var n, last, trains := |shape|, |inf| - 1, BoxesOf(b, train, 0, false, None);
      var box, before := BoxOf(b, inf[last], engine, true), BoxesOf(b, inf[..last], engine, true, None);
      assert BoxesOf(b, inf, engine, true, None) == before + [box];
      BoxedPrefix(before, box, n);
      RankOpsNumel(b, inf[..last], engine, train, shape, c, rank);
      LastBoxNumel(before, box, trains, n, rank);
      ShardNumel(b, inf[last], engine, train, shape, c);
      RankNumelLast(b, inf, engine, rank);
    }
  }

  lemma BoxedPrefix(before: seq<ShardOffset>, box: ShardOffset, n: nat)
    requires Boxed(before + [box], n)
    ensures Boxed(before, n) && BoxDims(box, n)
  {
    assert (before + [box])[|before|] == box;
    forall k | 0 <= k < |before| ensures BoxDims(before[k], n) {
      assert (before + [box])[k] == before[k];
    }
  }

  lemma LastBoxNumel(before: seq<ShardOffset>, box: ShardOffset, trains: seq<ShardOffset>, n: nat, rank: nat)
    requires Boxed(before + [box], n) && Boxed(before, n) && BoxDims(box, n) && Boxed(trains, n)
    ensures OpsNumel(Filter(BoxOps(before + [box], trains, n), OwnedBy(rank, false)))
         == OpsNumel(Filter(BoxOps(before, trains, n), OwnedBy(rank, false)))
            + (if box.rank == rank then OpsNumel(WithOps(box, trains, n)) else 0)
  {
    var own := WithOps(box, trains, n);
    assert (before + [box])[..|before|] == before;
    FilterConcat(BoxOps(before, trains, n), own, OwnedBy(rank, false));
    WithOwnRank(box, trains, n);
    if box.rank == rank {
      FilterAll(own, OwnedBy(rank, false));
    } else {
      FilterNone(own, OwnedBy(rank, false));
    }
    NumelConcat(Filter(BoxOps(before, trains, n), OwnedBy(rank, false)), Filter(own, OwnedBy(rank, false)));
  }

  /** The replica is cut into slabs along some dimension. */
  ghost predicate Slabbed(replica: seq<Shard>, shape: seq<nat>) {
    exists c :: SlabTiling(replica, shape, c)
  }

  /** A pair whose training replica is cut into slabs, along whichever dimension. */
  ghost predicate SlabPair(b: Builder, p: Pair, shape: seq<nat>) {
    && PairShaped(b, p, |shape|) && (forall k :: 0 <= k < |p.inf| ==> Within(p.inf[k], shape))
    && Slabbed(p.train, shape)
  }

  lemma PairNumel(b: Builder, p: Pair, shape: seq<nat>, rank: nat)
    requires SlabPair(b, p, shape)
    ensures OpsNumel(Filter(PairOpList(b, p, |shape|), OwnedBy(rank, false))) == RankNumel(b, p.inf, p.engine, rank)
  {
    var c :| SlabTiling(p.train, shape, c);
    PairBoxed(b, p, |shape|);
    OpListBoxes(InfBoxes(b, p), TrainBoxes(b, p), |shape|);
    RankOpsNumel(b, p.inf, p.engine, p.train, shape, c, rank);
  }

  /** The two sides of a parameter, every training replica cut into slabs. */
  ghost predicate SlabMatched(b: Builder, im: ParamMeta, tm: ParamMeta, shape: seq<nat>) {
    Matched(b, im, tm, shape) && forall a :: 0 <= a < |tm.replicas| ==> Slabbed(tm.replicas[a], shape)
  }

  /** Metadata resolved from sound reports cuts the training side into slabs. */
  lemma ResolvedSlabs(b: Builder, infer: RawShards, train: RawShards)
    requires SoundReports(infer) && SoundReports(train) && infer[0].name == train[0].name
    requires forall i :: 0 <= i < |infer| ==> infer[i].globalRank < b.InstanceWorld()
    requires MetaOf(infer).value.globalShape == MetaOf(train).value.globalShape
    ensures SlabMatched(b, MetaOf(infer).value, MetaOf(train).value, MetaOf(infer).value.globalShape)
  {
    ResolvedMatched(b, infer, train);
    forall a | 0 <= a < |MetaOf(train).value.replicas|
      ensures Slabbed(MetaOf(train).value.replicas[a], MetaOf(train).value.globalShape)
    {
      ReplicasTile(train, a);
    }
  }

  lemma SlabPairs(b: Builder, im: ParamMeta, tm: ParamMeta, shape: seq<nat>, m: nat)
    requires SlabMatched(b, im, tm, shape) && PairsShaped(b, PairList(b, im, tm), |shape|) && m < |PairList(b, im, tm)|
    ensures SlabPair(b, PairList(b, im, tm)[m], shape)
  {
    var p := PairList(b, im, tm)[m];
    assert p.train == tm.replicas[m % |tm.replicas|];
    assert p.inf == im.replicas[m % |im.replicas|];
  }

  lemma {:induction false} PairsCarry(b: Builder, pairs: seq<Pair>, copies: seq<(nat, seq<Shard>)>, shape: seq<nat>,
                                      rank: nat)
    requires PairsShaped(b, pairs, |shape|) && |copies| == |pairs|
    requires forall m :: 0 <= m < |pairs| ==> SlabPair(b, pairs[m], shape)
    requires forall m :: 0 <= m < |pairs| ==> copies[m] == (pairs[m].engine, pairs[m].inf)
    ensures OpsNumel(Filter(PairsOpList(b, pairs, |shape|), OwnedBy(rank, false))) == CopiesNumel(b, copies, rank)
  {
    if pairs != [] {
      var last := |pairs| - 1;
      PairsCarry(b, pairs[..last], copies[..last], shape, rank);
      PairNumel(b, pairs[last], shape, rank);
      SplitNumel(PairsOpList(b, pairs[..last], |shape|), PairOpList(b, pairs[last], |shape|), rank);
    }
  }

  lemma SplitNumel(x: seq<CommOp>, y: seq<CommOp>, rank: nat)
    ensures OpsNumel(Filter(x + y, OwnedBy(rank, false)))
         == OpsNumel(Filter(x, OwnedBy(rank, false))) + OpsNumel(Filter(y, OwnedBy(rank, false)))
  {
    FilterConcat(x, y, OwnedBy(rank, false));
    NumelConcat(Filter(x, OwnedBy(rank, false)), Filter(y, OwnedBy(rank, false)));
  }

  lemma ParameterNumel(b: Builder, im: ParamMeta, tm: ParamMeta, shape: seq<nat>, rank: nat)
    requires SlabMatched(b, im, tm, shape)
    ensures Compatible(im, tm) && ParameterPlan(b, im, tm, None).Ok?
    ensures OpsNumel(Filter(ParameterPlan(b, im, tm, None).value, OwnedBy(rank, false))) == HeldNumel(b, im, rank)
  {
    var pairs := PairList(b, im, tm);
    MatchedPlan(b, im, tm, shape);
    forall m | 0 <= m < |pairs| ensures SlabPair(b, pairs[m], shape) {
      SlabPairs(b, im, tm, shape, m);
    }
    PairsCarry(b, pairs, Copies(b, im), shape, rank);
  }

  ghost predicate SlabWorld(b: Builder, ims: map<nat, ParamMeta>, tms: map<nat, ParamMeta>, shapes: map<nat, seq<nat>>)
  {
    && MatchedWorld(b, ims, tms, shapes)
    && forall name :: name in ims && name in tms ==>
         name in shapes && SlabMatched(b, ims[name], tms[name], shapes[name])
  }

  lemma {:induction false} NamesNumel(b: Builder, ims: map<nat, ParamMeta>, tms: map<nat, ParamMeta>,
                                      shapes: map<nat, seq<nat>>, names: seq<nat>, rank: nat)
    requires SlabWorld(b, ims, tms, shapes) && AllCompatible(ims, tms) && NamesIn(ims, tms, names)
    ensures NamesPlan(b, ims, tms, names, None).Ok?
    ensures OpsNumel(Filter(NamesPlan(b, ims, tms, names, None).value, OwnedBy(rank, false)))
            == HeldOf(b, ims, names, rank)
  {
    if names != [] {
      var last := |names| - 1;
      var name := names[last];
      NamesNumel(b, ims, tms, shapes, names[..last], rank);
      ParameterNumel(b, ims[name], tms[name], shapes[name], rank);
      SplitNumel(NamesPlan(b, ims, tms, names[..last], None).value,
                 ParameterPlan(b, ims[name], tms[name], None).value, rank);
    }
  }

  /** An inference rank's plan carries exactly the elements of its shards of the common parameters. */
  lemma Conservation(b: Builder, inferMetas: seq<ParamMeta>, trainMetas: seq<ParamMeta>, shapes: map<nat, seq<nat>>,
                     rank: nat)
    requires inferMetas != [] && trainMetas != [] && SlabWorld(b, ByName(inferMetas), ByName(trainMetas), shapes)
    requires KeysMatch(b, ByName(inferMetas).Keys, ByName(trainMetas).Keys) && rank < b.inferWorld
    ensures AllCompatible(ByName(inferMetas), ByName(trainMetas)) && LocalPlanOf(b, inferMetas, trainMetas, rank).Ok?
    ensures PlanNumel(LocalPlanOf(b, inferMetas, trainMetas, rank).value)
         == HeldOf(b, ByName(inferMetas), SortedKeys(ByName(inferMetas).Keys * ByName(trainMetas).Keys), rank)
  {
    var ims, tms := ByName(inferMetas), ByName(trainMetas);
    WorldCompatible(b, ims, tms, shapes);
    CommonNames(ims, tms);
    NamesNumel(b, ims, tms, shapes, SortedKeys(ims.Keys * tms.Keys), rank);
    LocalPlanIsGroupedPart(b, inferMetas, trainMetas, rank);
    GroupingKeepsNumel(Filter(MappingPlan(b, inferMetas, trainMetas, None).value, OwnedBy(rank, false)), false);
  }
}
