/**
 Training and inference on separate devices, with batching off (awex/writer/nccl_writer.py and
 awex/reader/nccl_reader.py): every rank carries out its operations one by one, in the order
 they were built, each send and receive waiting for its counterpart.
 */
module Separated {
  import opened Wrappers
  import opened Seqs
  import opened Arithmetic
  import opened ShardMeta
  import opened TransferPlan
  import opened LocalPlan
  import opened Rendezvous
  import opened Butterfly
  import opened Chunked
  import opened Interleave
  import Colocate

  /** The plans of all ranks: the ranks before `first` receive, the others send. */
  datatype Plans<!T> = Plans(first: nat, held: seq<map<nat, seq<T>>>)

  /** The two sides hold the same lists for each other, and plan for the other side only. */
  ghost predicate Paired<T>(w: Plans<T>) {
    && w.first <= |w.held|
    && (forall r, t :: 0 <= r < w.first <= t < |w.held| ==> HeldFor(w.held[t], r) == HeldFor(w.held[r], t))
    && (forall i, p: nat :: 0 <= i < |w.held| && p in w.held[i] ==> p < |w.held| && (p < w.first <==> i >= w.first))
  }

  /** One operation between two ranks, by its place in the list they share. */
  datatype Wire = Wire(src: nat, dst: nat, index: nat)

  /** A plan with the places of its operations in their place. */
  function Positions<T>(plan: map<nat, seq<T>>): map<nat, seq<nat>> { map p | p in plan :: Indices(|plan[p]|) }

  function WireOf(sends: bool, r: nat, item: Item<nat>): Wire {
    if sends then Wire(r, item.peer, item.op) else Wire(item.peer, r, item.op)
  }

  function Wires(sends: bool, r: nat, items: seq<Item<nat>>): seq<Wire> {
    seq(|items|, k requires 0 <= k < |items| => WireOf(sends, r, items[k]))
  }

  /** What the builder makes of the places. */
  function Built<T>(plan: map<nat, seq<T>>): Buckets<nat> { Wrap(Positions(plan), None) }

  /** A rank's operations one after the other. */
  function ProgramOf<T>(w: Plans<T>, r: nat): seq<Wire>
    requires r < |w.held|
  {
    Wires(r >= w.first, r, RoundRobin(Built(w.held[r])))
  }

  function EndsOf(e: Wire): set<nat> { {e.src, e.dst} }

  /** Round by round, then by the sum of the two ranks. */
  function WireStamp(n: nat): Wire -> nat { (e: Wire) => e.index * (2 * n) + e.src + e.dst }

  function WireNet<T>(w: Plans<T>): Net<Wire> {
    Net(seq(|w.held|, r requires 0 <= r < |w.held| => ProgramOf(w, r)), EndsOf, WireStamp(|w.held|))
  }

  // ----- the programs carry the plans

  /** Each item carries the operation of the plan that the place names. */
  ghost predicate Carries<T>(plan: map<nat, seq<T>>, items: seq<Item<T>>, places: seq<Item<nat>>) {
    |items| == |places| && forall k :: 0 <= k < |places| ==>
      places[k].peer in plan && places[k].op < |plan[places[k].peer]|
      && items[k] == Item(places[k].peer, plan[places[k].peer][places[k].op])
  }

  lemma CarriesConcat<T>(plan: map<nat, seq<T>>, a: seq<Item<T>>, x: seq<Item<nat>>, b: seq<Item<T>>, y: seq<Item<nat>>)
    requires Carries(plan, a, x) && Carries(plan, b, y)
    ensures Carries(plan, a + b, x + y)
  {
  }

  lemma TurnCarries<T>(plan: map<nat, seq<T>>, p: nat, k: nat)
    ensures Carries(plan, Turn(Wrap(plan, None), p, k), Turn(Built(plan), p, k))
    ensures |HeldFor(Wrap(plan, None), p)| == |HeldFor(Built(plan), p)| == |HeldFor(plan, p)|
  {
  }

  lemma {:induction false} RoundCarries<T>(plan: map<nat, seq<T>>, keys: seq<nat>, k: nat)
    ensures Carries(plan, RoundOf(Wrap(plan, None), keys, k), RoundOf(Built(plan), keys, k))
  {
    if keys != [] {
      var n := |keys| - 1;
      RoundCarries(plan, keys[..n], k);
      TurnCarries(plan, keys[n], k);
      CarriesConcat(plan, RoundOf(Wrap(plan, None), keys[..n], k), RoundOf(Built(plan), keys[..n], k),
                    Turn(Wrap(plan, None), keys[n], k), Turn(Built(plan), keys[n], k));
    }
  }

  lemma {:induction false} RoundsCarry<T>(plan: map<nat, seq<T>>, keys: seq<nat>, n: nat)
    ensures Carries(plan, RoundsTo(Wrap(plan, None), keys, n), RoundsTo(Built(plan), keys, n))
  {
    if n > 0 {
      RoundsCarry(plan, keys, n - 1);
      RoundCarries(plan, keys, n - 1);
      RoundsStep(Wrap(plan, None), keys, n - 1);
      RoundsStep(Built(plan), keys, n - 1);
      CarriesConcat(plan, RoundsTo(Wrap(plan, None), keys, n - 1), RoundsTo(Built(plan), keys, n - 1),
                    RoundOf(Wrap(plan, None), keys, n - 1), RoundOf(Built(plan), keys, n - 1));
    }
  }

  lemma {:induction false} SameLongest<T>(plan: map<nat, seq<T>>, keys: seq<nat>)
    ensures LongestUpTo(Wrap(plan, None), keys) == LongestUpTo(Built(plan), keys)
  {
    if keys != [] {
      SameLongest(plan, keys[..|keys| - 1]);
      TurnCarries(plan, keys[|keys| - 1], 0);
    }
  }

  /** The k-th operation built is the one the k-th place names. */
  lemma BuiltCarries<T>(plan: map<nat, seq<T>>)
    ensures Carries(plan, RoundRobin(Wrap(plan, None)), RoundRobin(Built(plan)))
  {
    var keys := SortedKeys(plan.Keys);
    assert Wrap(plan, None).Keys == plan.Keys == Built(plan).Keys;
    SameLongest(plan, keys);
    RoundsCarry(plan, keys, Longest(Built(plan)));
  }

  // ----- what is in a program

  lemma PlaceIn<T>(plan: map<nat, seq<T>>, item: Item<nat>)
    ensures item in RoundRobin(Built(plan)) <==> item.op < |HeldFor(plan, item.peer)|
  {
    var b, p := Built(plan), item.peer;
    KeepsPeers(b, p);
    FilterIn(RoundRobin(b), ForPeer(p), item);
    if item.op < |HeldFor(plan, p)| {
      assert HeldFor(b, p)[item.op] == item;
    }
  }

  lemma WireIn<T>(w: Plans<T>, r: nat, e: Wire)
    requires r < |w.held|
    ensures e in ProgramOf(w, r)
       <==> if r >= w.first then e.src == r && e.index < |HeldFor(w.held[r], e.dst)|
            else e.dst == r && e.index < |HeldFor(w.held[r], e.src)|
  {
    var sends, items := r >= w.first, RoundRobin(Built(w.held[r]));
    var item := Item(if sends then e.dst else e.src, e.index);
    PlaceIn(w.held[r], item);
    if item in items && e == WireOf(sends, r, item) {
      var k :| 0 <= k < |items| && items[k] == item;
      assert ProgramOf(w, r)[k] == e;
    }
    if e in ProgramOf(w, r) {
      var k :| 0 <= k < |items| && ProgramOf(w, r)[k] == e;
      assert items[k] == item;
    }
  }

  lemma WiresAgreed<T>(w: Plans<T>)
    requires Paired(w)
    ensures Agreed(WireNet(w))
  {
    var net := WireNet(w);
    forall r, k | 0 <= r < |net.progs| && 0 <= k < |net.progs[r]|
      ensures r in net.parties(net.progs[r][k])
      ensures forall q: nat :: q in net.parties(net.progs[r][k]) ==> q < |net.progs| && net.progs[r][k] in net.progs[q]
    {
      WireShared(w, r, net.progs[r][k]);
    }
  }

  lemma WireShared<T>(w: Plans<T>, r: nat, e: Wire)
    requires Paired(w) && r < |w.held| && e in ProgramOf(w, r)
    ensures r in EndsOf(e) && forall q: nat :: q in EndsOf(e) ==> q < |w.held| && e in ProgramOf(w, q)
  {
    WirePaired(w, r, e);
    WireIn(w, e.src, e);
    WireIn(w, e.dst, e);
  }

  lemma WirePaired<T>(w: Plans<T>, r: nat, e: Wire)
    requires Paired(w) && r < |w.held| && e in ProgramOf(w, r)
    ensures r in EndsOf(e) && e.dst < w.first <= e.src < |w.held|
    ensures e.index < |HeldFor(w.held[e.src], e.dst)| == |HeldFor(w.held[e.dst], e.src)|
  {
    WireIn(w, r, e);
  }

  // ----- the stamps climb along every program

  lemma StretchesJoin(x: seq<Item<nat>>, y: seq<Item<nat>>, sends: bool, r: nat, n: nat, lo: nat, mid: nat, hi: nat)
    requires Band(Wires(sends, r, x), WireStamp(n), lo, mid) && Band(Wires(sends, r, y), WireStamp(n), mid, hi)
    requires lo <= mid <= hi
    ensures Band(Wires(sends, r, x + y), WireStamp(n), lo, hi)
  {
    assert Wires(sends, r, x + y) == Wires(sends, r, x) + Wires(sends, r, y);
    BandConcat(Wires(sends, r, x), Wires(sends, r, y), WireStamp(n), lo, mid, hi);
  }

  lemma {:induction false} RoundBand(b: Buckets<nat>, keys: seq<nat>, k: nat, sends: bool, r: nat, n: nat, top: nat)
    requires Rising(keys) && (forall j :: 0 <= j < |keys| ==> keys[j] < top) && forall p: nat :: PlacesOnly(b, p)
    ensures Band(Wires(sends, r, RoundOf(b, keys, k)), WireStamp(n), k * (2 * n) + r, k * (2 * n) + r + top)
  {
    if keys != [] {
      var last := |keys| - 1;
      var p, before, turn := keys[last], RoundOf(b, keys[..last], k), Turn(b, keys[last], k);
      RoundBand(b, keys[..last], k, sends, r, n, p);
      assert PlacesOnly(b, p);
      TurnBand(b, p, k, sends, r, n, top);
      StretchesJoin(before, turn, sends, r, n, k * (2 * n) + r, k * (2 * n) + r + p, k * (2 * n) + r + top);
    }
  }

  /** A peer's k-th item is place k under that peer. */
  predicate PlacesOnly(b: Buckets<nat>, p: nat) {
    forall k :: 0 <= k < |HeldFor(b, p)| ==> HeldFor(b, p)[k] == Item(p, k)
  }

  lemma TurnBand(b: Buckets<nat>, p: nat, k: nat, sends: bool, r: nat, n: nat, top: nat)
    requires PlacesOnly(b, p) && p < top
    ensures Band(Wires(sends, r, Turn(b, p, k)), WireStamp(n), k * (2 * n) + r + p, k * (2 * n) + r + top)
  {
    var turn := Turn(b, p, k);
    if turn != [] {
      assert turn == [Item(p, k)];
      assert WireStamp(n)(WireOf(sends, r, turn[0])) == k * (2 * n) + r + p;
    }
  }

  /** The peers' items are places, and the peers are ranks of a world of n. */
  ghost predicate PlacesBelow(b: Buckets<nat>, keys: seq<nat>, n: nat) {
    Rising(keys) && (forall j :: 0 <= j < |keys| ==> keys[j] < n) && forall p: nat :: PlacesOnly(b, p)
  }

  lemma RoundInStretch(b: Buckets<nat>, keys: seq<nat>, k: nat, sends: bool, r: nat, n: nat, lo: nat)
    requires PlacesBelow(b, keys, n) && r < n && lo == k * (2 * n)
    ensures Band(Wires(sends, r, RoundOf(b, keys, k)), WireStamp(n), lo, lo + 2 * n)
  {
    RoundBand(b, keys, k, sends, r, n, n);
  }

  lemma NextStretch(k: nat, n: nat)
    ensures (k + 1) * (2 * n) == k * (2 * n) + 2 * n
  {
    Distribute(k, 1, 2 * n);
  }

  lemma {:induction false} RoundsInStretch(b: Buckets<nat>, keys: seq<nat>, m: nat, sends: bool, r: nat, n: nat,
                                           hi: nat)
    requires PlacesBelow(b, keys, n) && r < n && hi == m * (2 * n)
    ensures Band(Wires(sends, r, RoundsTo(b, keys, m)), WireStamp(n), 0, hi)
  {
    if m == 0 {
      assert RoundsTo(b, keys, 0) == [];
    } else {
      NextStretch(m - 1, n);
      RoundsInStretch(b, keys, m - 1, sends, r, n, hi - 2 * n);
      RoundInStretch(b, keys, m - 1, sends, r, n, hi - 2 * n);
      OneMoreStretch(b, keys, m - 1, sends, r, n, hi - 2 * n, hi);
    }
  }

  lemma OneMoreStretch(b: Buckets<nat>, keys: seq<nat>, k: nat, sends: bool, r: nat, n: nat, mid: nat, hi: nat)
    requires Band(Wires(sends, r, RoundsTo(b, keys, k)), WireStamp(n), 0, mid)
    requires Band(Wires(sends, r, RoundOf(b, keys, k)), WireStamp(n), mid, hi) && mid <= hi
    ensures Band(Wires(sends, r, RoundsTo(b, keys, k + 1)), WireStamp(n), 0, hi)
  {
    RoundsStep(b, keys, k);
    StretchesJoin(RoundsTo(b, keys, k), RoundOf(b, keys, k), sends, r, n, 0, mid, hi);
  }

  lemma RobinClimbs(b: Buckets<nat>, sends: bool, r: nat, n: nat)
    requires PlacesBelow(b, SortedKeys(b.Keys), n) && r < n
    ensures Climbs(Wires(sends, r, RoundRobin(b)), WireStamp(n))
  {
    var rounds := Longest(b);
    RoundsInStretch(b, SortedKeys(b.Keys), rounds, sends, r, n, rounds * (2 * n));
  }

  lemma BuiltPlaces<T>(w: Plans<T>, r: nat)
    requires Paired(w) && r < |w.held|
    ensures PlacesBelow(Built(w.held[r]), SortedKeys(Built(w.held[r]).Keys), |w.held|)
  {
    var b := Built(w.held[r]);
    var keys := SortedKeys(b.Keys);
    SortedKeysProperties(b.Keys);
    forall j | 0 <= j < |keys| ensures keys[j] < |w.held| {
      assert keys[j] in b.Keys;
    }
  }

  lemma WiresClimb<T>(w: Plans<T>, r: nat)
    requires Paired(w) && r < |w.held|
    ensures Climbs(ProgramOf(w, r), WireStamp(|w.held|))
  {
    BuiltPlaces(w, r);
    RobinClimbs(Built(w.held[r]), r >= w.first, r, |w.held|);
  }

  /** One by one, in the order built, the operations of both sides fit together. */
  lemma SeparatedWellFormed<T>(w: Plans<T>)
    requires Paired(w)
    ensures WellFormed(WireNet(w))
  {
    WiresAgreed(w);
    forall r | 0 <= r < |w.held| ensures Climbs(WireNet(w).progs[r], WireNet(w).stamp) {
      WiresClimb(w, r);
    }
  }

  /** So no reachable state is stuck, and every run ends. */
  lemma SeparatedNeverStuck<T>(w: Plans<T>, run: seq<Wire>) returns (next: Wire)
    requires Paired(w) && IsRun(WireNet(w), run)
    ensures var net := WireNet(w);
            && Fits(net, After(net, run)) && Fits(net, Start(net))
            && |run| + Remaining(net, After(net, run), |w.held|) <= Remaining(net, Start(net), |w.held|)
            && (!Finished(net, After(net, run)) ==> Enabled(net, After(net, run), next) && IsRun(net, run + [next]))
  {
    SeparatedWellFormed(w);
    RunsEnd(WireNet(w), run);
    if !Finished(WireNet(w), After(WireNet(w), run)) {
      next := Progress(WireNet(w), run);
    } else {
      next := Wire(0, 0, 0);
    }
  }

  /** A finished run has moved each operation of each pair once, and nothing else. */
  lemma SeparatedDelivers<T>(w: Plans<T>, run: seq<Wire>, e: Wire)
    requires Paired(w) && FinishedRun(WireNet(w), run)
    ensures multiset(run)[e]
         == if e.dst < w.first <= e.src < |w.held| && e.index < |HeldFor(w.held[e.src], e.dst)| then 1 else 0
  {
    SeparatedWellFormed(w);
    FinishedOnce(WireNet(w), run, e);
    if e.dst < w.first <= e.src < |w.held| && e.index < |HeldFor(w.held[e.src], e.dst)| {
      WireIn(w, e.src, e);
      assert e in WireNet(w).progs[e.src];
    } else {
      forall r | 0 <= r < |w.held| ensures e !in WireNet(w).progs[r] {
        if e in ProgramOf(w, r) {
          WirePaired(w, r, e);
        }
      }
    }
  }

  // ----- the plans that the planner makes

  /** The local plans of all inference and training ranks. */
  ghost function LocalPlans(b: Builder, inferMetas: seq<ParamMeta>, trainMetas: seq<ParamMeta>, trainWorld: nat)
    : Plans<CommOp>
    requires AllCompatible(ByName(inferMetas), ByName(trainMetas)) && MappingPlan(b, inferMetas, trainMetas, None).Ok?
  {
    Plans(b.inferWorld, seq(b.inferWorld + trainWorld, r requires 0 <= r < b.inferWorld + trainWorld =>
      (LocalPlanIsGroupedPart(b, inferMetas, trainMetas, r); LocalPlanOf(b, inferMetas, trainMetas, r).value)))
  }

  /** They fit together whenever every sender is one of the ranks. */
  lemma LocalPlansPaired(b: Builder, inferMetas: seq<ParamMeta>, trainMetas: seq<ParamMeta>, trainWorld: nat)
    requires AllCompatible(ByName(inferMetas), ByName(trainMetas)) && MappingPlan(b, inferMetas, trainMetas, None).Ok?
    requires forall op :: op in MappingPlan(b, inferMetas, trainMetas, None).value ==>
               op.sendRank < b.inferWorld + trainWorld
    ensures Paired(LocalPlans(b, inferMetas, trainMetas, trainWorld))
  {
    var w := LocalPlans(b, inferMetas, trainMetas, trainWorld);
    forall r, t | 0 <= r < w.first <= t < |w.held| ensures HeldFor(w.held[t], r) == HeldFor(w.held[r], t) {
      PeersAgree(b, inferMetas, trainMetas, t, r);
    }
    forall i, p: nat | 0 <= i < |w.held| && p in w.held[i] ensures p < |w.held| && (p < w.first <==> i >= w.first) {
      LocalPlanIsGroupedPart(b, inferMetas, trainMetas, i);
      var op := LocalPlanNotEmpty(b, inferMetas, trainMetas, i, p);
      LocalPlanOps(b, inferMetas, trainMetas, i, p, op);
      MappingRanks(b, inferMetas, trainMetas, op);
    }
  }

  // ----- what a run writes

  /** What one operation writes: the receiver's slice filled with the sender's, list by list position. */
  ghost function Moved(w: Plans<CommOp>, e: Wire): seq<CommOp> {
    if e.dst < |w.held| && e.src < |w.held| &&
      e.index < |HeldFor(w.held[e.src], e.dst)| == |HeldFor(w.held[e.dst], e.src)|
    then [Colocate.Joined(HeldFor(w.held[e.src], e.dst)[e.index], HeldFor(w.held[e.dst], e.src)[e.index])]
    else []
  }

  ghost function MovedBy(w: Plans<CommOp>, run: seq<Wire>): seq<seq<CommOp>> {
    seq(|run|, k requires 0 <= k < |run| => Moved(w, run[k]))
  }

  ghost function Writes(w: Plans<CommOp>, run: seq<Wire>): seq<CommOp> { Flatten(MovedBy(w, run)) }

  lemma WriteIn(w: Plans<CommOp>, run: seq<Wire>, op: CommOp)
    ensures op in Writes(w, run) <==> exists e :: e in run && op in Moved(w, e)
  {
    FlattenIn(MovedBy(w, run), op);
    if op in Writes(w, run) {
      var k :| 0 <= k < |run| && op in MovedBy(w, run)[k];
      assert run[k] in run;
    }
    if e :| e in run && op in Moved(w, e) {
      var k :| 0 <= k < |run| && run[k] == e;
      assert op in MovedBy(w, run)[k];
    }
  }

  /** A finished run writes the operations of the global plan and no others. */
  lemma WritesArePlan(b: Builder, inferMetas: seq<ParamMeta>, trainMetas: seq<ParamMeta>, trainWorld: nat,
                      run: seq<Wire>, op: CommOp)
    requires AllCompatible(ByName(inferMetas), ByName(trainMetas)) && MappingPlan(b, inferMetas, trainMetas, None).Ok?
    requires forall x :: x in MappingPlan(b, inferMetas, trainMetas, None).value ==>
               x.sendRank < b.inferWorld + trainWorld
    requires FinishedRun(WireNet(LocalPlans(b, inferMetas, trainMetas, trainWorld)), run)
    ensures op in Writes(LocalPlans(b, inferMetas, trainMetas, trainWorld), run)
       <==> op in MappingPlan(b, inferMetas, trainMetas, None).value
  {
    var w := LocalPlans(b, inferMetas, trainMetas, trainWorld);
    LocalPlansPaired(b, inferMetas, trainMetas, trainWorld);
    WriteIn(w, run, op);
    if e :| e in run && op in Moved(w, e) {
      SeparatedDelivers(w, run, e);
      assert multiset(run)[e] > 0;
      WireIsPlanned(b, inferMetas, trainMetas, trainWorld, e, op);
    }
    if op in MappingPlan(b, inferMetas, trainMetas, None).value {
      var e := PlannedIsWire(b, inferMetas, trainMetas, trainWorld, op);
      SeparatedDelivers(w, run, e);
      assert e in multiset(run);
    }
  }

  lemma WireIsPlanned(b: Builder, inferMetas: seq<ParamMeta>, trainMetas: seq<ParamMeta>, trainWorld: nat, e: Wire,
                      op: CommOp)
    requires AllCompatible(ByName(inferMetas), ByName(trainMetas)) && MappingPlan(b, inferMetas, trainMetas, None).Ok?
    requires Paired(LocalPlans(b, inferMetas, trainMetas, trainWorld)) &&
             op in Moved(LocalPlans(b, inferMetas, trainMetas, trainWorld), e)
    requires e.dst < b.inferWorld <= e.src
    ensures op in MappingPlan(b, inferMetas, trainMetas, None).value
  {
    var w := LocalPlans(b, inferMetas, trainMetas, trainWorld);
    assert HeldFor(w.held[e.src], e.dst) == HeldFor(w.held[e.dst], e.src);
    assert op == HeldFor(w.held[e.src], e.dst)[e.index];
    LocalPlanOps(b, inferMetas, trainMetas, e.src, e.dst, op);
  }

  lemma PlannedIsWire(b: Builder, inferMetas: seq<ParamMeta>, trainMetas: seq<ParamMeta>, trainWorld: nat, op: CommOp)
    returns (e: Wire)
    requires AllCompatible(ByName(inferMetas), ByName(trainMetas)) && MappingPlan(b, inferMetas, trainMetas, None).Ok?
    requires op in MappingPlan(b, inferMetas, trainMetas, None).value && op.sendRank < b.inferWorld + trainWorld
    requires Paired(LocalPlans(b, inferMetas, trainMetas, trainWorld))
    ensures var w := LocalPlans(b, inferMetas, trainMetas, trainWorld);
            && e.dst < w.first <= e.src < |w.held| && e.index < |HeldFor(w.held[e.src], e.dst)|
            && op in Moved(w, e)
  {
    var w := LocalPlans(b, inferMetas, trainMetas, trainWorld);
    MappingRanks(b, inferMetas, trainMetas, op);
    LocalPlanOps(b, inferMetas, trainMetas, op.sendRank, op.recvRank, op);
    var list := HeldFor(w.held[op.sendRank], op.recvRank);
    assert list == HeldFor(w.held[op.recvRank], op.sendRank);
    var k :| 0 <= k < |list| && list[k] == op;
    e := Wire(op.sendRank, op.recvRank, k);
  }
}
