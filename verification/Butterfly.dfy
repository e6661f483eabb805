/**
 The recursive-partition schedule (awex/transfer/nccl_stream_batch.py): in every round the
 ranks fall into partitions, and the two halves of each partition exchange their batches,
 first one way and then the other, each rank walking its peers in ascending order.
 */
module Butterfly {
  import opened Seqs
  import opened Arithmetic
  import opened Rendezvous

  // ----- rounds and halves

  function Pow2(n: nat): pos { if n == 0 then 1 else 2 * Pow2(n - 1) }

  /** The number of rounds: the logarithm rounded down. */
  function Log2(w: pos): nat { if w == 1 then 0 else 1 + Log2(w / 2) }

  function Quotient(x: nat, d: pos): nat { x / d }

  function PartSize(w: pos, t: nat): nat { Quotient(w, Pow2(t)) }

  function PartOf(w: pos, t: nat, r: nat): nat
    requires PartSize(w, t) > 0
  {
    r / PartSize(w, t)
  }

  predicate InFirst(w: pos, t: nat, r: nat)
    requires PartSize(w, t) > 0
  {
    r % PartSize(w, t) < PartSize(w, t) / 2
  }

  /** The two ranks are in opposite halves of one partition of round t. */
  predicate Meets(w: pos, t: nat, i: nat, j: nat)
    requires PartSize(w, t) > 0
  {
    PartOf(w, t, i) == PartOf(w, t, j) && InFirst(w, t, i) != InFirst(w, t, j)
  }

  lemma {:induction false} PowersFit(w: pos)
    ensures Pow2(Log2(w)) <= w < 2 * Pow2(Log2(w))
  {
    if w > 1 {
      PowersFit(w / 2);
    }
  }

  lemma {:induction false} PowersGrow(t: nat, n: nat)
    requires t <= n
    ensures Pow2(t) <= Pow2(n) && (t < n ==> 2 * Pow2(t) <= Pow2(n))
  {
    if t < n {
      PowersGrow(t, n - 1);
    }
  }

  lemma RoundsSplit(w: pos, t: nat)
    requires t <= Log2(w)
    ensures PartSize(w, t) > 0 && (t < Log2(w) ==> PartSize(w, t) >= 2)
  {
    PowersFit(w);
    PowersGrow(t, Log2(w));
    QuotientAtLeast(w, Pow2(t), 1);
    if t < Log2(w) {
      QuotientAtLeast(w, Pow2(t), 2);
    }
  }

  lemma QuotientAtLeast(x: nat, d: pos, q: nat)
    requires q * d <= x
    ensures Quotient(x, d) >= q
  {
    assert x == (x / d) * d + x % d;
    Arithmetic.MulOrder(x / d, q, d);
  }

  // ----- one rank's schedule

  /** One blocking exchange with a peer of all operations held for it. */
  datatype Batch<T> = Batch(round: nat, phase: nat, sending: bool, peer: nat, ops: seq<T>)

  function HeldFor<T>(ops: map<nat, seq<T>>, peer: nat): seq<T> { if peer in ops then ops[peer] else [] }

  /** The non-empty batches for the peers in [lo, hi), ascending. */
  function Batches<T>(ops: map<nat, seq<T>>, lo: nat, hi: nat, round: nat, phase: nat, sending: bool): seq<Batch<T>>
    requires lo <= hi
  {
    if lo == hi then [] else
      Batches(ops, lo, hi - 1, round, phase, sending)
      + (if HeldFor(ops, hi - 1) == [] then [] else [Batch(round, phase, sending, hi - 1, ops[hi - 1])])
  }

  function OtherLo(w: pos, t: nat, r: nat): nat
    requires PartSize(w, t) > 0
  {
    PartOf(w, t, r) * PartSize(w, t) + (if InFirst(w, t, r) then PartSize(w, t) / 2 else 0)
  }

  function OtherHi(w: pos, t: nat, r: nat): nat
    requires PartSize(w, t) > 0
  {
    PartOf(w, t, r) * PartSize(w, t) + (if InFirst(w, t, r) then PartSize(w, t) else PartSize(w, t) / 2)
  }

  /** The batches of one phase of a round: the first half sends in phase 0, the second in phase 1. */
  function PhaseBatches<T>(r: nat, w: pos, t: nat, phase: nat, sends: map<nat, seq<T>>, recvs: map<nat, seq<T>>)
    : seq<Batch<T>>
    requires PartSize(w, t) > 0
  {
    var sending := InFirst(w, t, r) == (phase == 0);
    Batches(if sending then sends else recvs, OtherLo(w, t, r), OtherHi(w, t, r), t, phase, sending)
  }

  /** The first n rounds. */
  function Rounds<T>(r: nat, w: pos, n: nat, sends: map<nat, seq<T>>, recvs: map<nat, seq<T>>): seq<Batch<T>>
    requires n <= Log2(w)
  {
    if n == 0 then [] else
      RoundsSplit(w, n - 1);
      Rounds(r, w, n - 1, sends, recvs)
      + PhaseBatches(r, w, n - 1, 0, sends, recvs) + PhaseBatches(r, w, n - 1, 1, sends, recvs)
  }

  function Schedule<T>(r: nat, w: pos, sends: map<nat, seq<T>>, recvs: map<nat, seq<T>>): seq<Batch<T>> {
    Rounds(r, w, Log2(w), sends, recvs)
  }

  method ExecuteOpsConcurrent<T(==)>(ops: map<nat, seq<T>>, lo: nat, hi: nat, round: nat, phase: nat, sending: bool)
    returns (issued: seq<Batch<T>>)
    requires lo <= hi
    ensures issued == Batches(ops, lo, hi, round, phase, sending)
  {
    issued := [];
    for peer := lo to hi
      invariant issued == Batches(ops, lo, peer, round, phase, sending)
    {
      if peer in ops && ops[peer] != [] {
        issued := issued + [Batch(round, phase, sending, peer, ops[peer])];
      }
    }
  }

  method OtherRange(rank: nat, partitionSize: nat, ghost round: nat, ghost w: pos)
    returns (inFirstHalf: bool, start: nat, end: nat)
    requires partitionSize == PartSize(w, round) > 0
    ensures inFirstHalf == InFirst(w, round, rank)
    ensures start == OtherLo(w, round, rank) <= end == OtherHi(w, round, rank)
  {
    var half := partitionSize / 2;
    var partitionBase := (rank / partitionSize) * partitionSize;
    Arithmetic.DivModParts(rank, partitionSize);
    var partitionEnd := partitionBase + partitionSize;
    inFirstHalf := rank - partitionBase < half;
    if inFirstHalf {
      start, end := partitionBase + half, partitionEnd;
    } else {
      start, end := partitionBase, partitionBase + half;
    }
  }

  method ExecuteRound<T(==)>(rank: nat, partitionSize: nat, round: nat, sends: map<nat, seq<T>>,
                             recvs: map<nat, seq<T>>, ghost w: pos)
    returns (phase1: seq<Batch<T>>, phase2: seq<Batch<T>>)
    requires partitionSize == PartSize(w, round) > 0
    ensures phase1 == PhaseBatches(rank, w, round, 0, sends, recvs)
    ensures phase2 == PhaseBatches(rank, w, round, 1, sends, recvs)
  {
    var inFirstHalf, otherStart, otherEnd := OtherRange(rank, partitionSize, round, w);
    if inFirstHalf {
      phase1 := ExecuteOpsConcurrent(sends, otherStart, otherEnd, round, 0, true);
    } else {
      phase1 := ExecuteOpsConcurrent(recvs, otherStart, otherEnd, round, 0, false);
    }
    if inFirstHalf {
      phase2 := ExecuteOpsConcurrent(recvs, otherStart, otherEnd, round, 1, false);
    } else {
      phase2 := ExecuteOpsConcurrent(sends, otherStart, otherEnd, round, 1, true);
    }
  }

  method ExecuteRecursivePartition<T(==)>(rank: nat, worldSize: pos, sends: map<nat, seq<T>>, recvs: map<nat, seq<T>>)
    returns (issued: seq<Batch<T>>)
    ensures issued == Schedule(rank, worldSize, sends, recvs)
  {
    issued := [];
    for round := 0 to Log2(worldSize)
      invariant issued == Rounds(rank, worldSize, round, sends, recvs)
    {
      RoundsSplit(worldSize, round);
      var phase1, phase2 := ExecuteRound(rank, Quotient(worldSize, Pow2(round)), round, sends, recvs, worldSize);
      issued := issued + phase1 + phase2;
    }
  }

  // ----- what is in the schedule

  lemma {:induction false} BatchesHave<T>(ops: map<nat, seq<T>>, lo: nat, hi: nat, t: nat, phase: nat, sending: bool,
                                          b: Batch<T>)
    requires lo <= hi
    ensures b in Batches(ops, lo, hi, t, phase, sending)
       <==> lo <= b.peer < hi && b.ops == HeldFor(ops, b.peer) != [] && b == Batch(t, phase, sending, b.peer, b.ops)
  {
    if lo < hi {
      BatchesHave(ops, lo, hi - 1, t, phase, sending, b);
    }
  }

  /** The peers a rank walks are exactly the ranks it meets. */
  lemma OtherHalf(w: pos, t: nat, r: nat, peer: nat)
    requires PartSize(w, t) > 0
    ensures OtherLo(w, t, r) <= peer < OtherHi(w, t, r) <==> Meets(w, t, r, peer)
  {
    InBlock(PartSize(w, t), PartOf(w, t, r), peer);
  }

  lemma InBlock(p: pos, q: nat, x: nat)
    ensures q * p <= x < q * p + p <==> x / p == q
    ensures x / p == q ==> x % p == x - q * p
  {
    assert x == (x / p) * p + x % p;
    if x / p < q {
      assert (x / p + 1) * p <= q * p;
    } else if x / p > q {
      assert (q + 1) * p <= (x / p) * p;
    }
  }

  predicate Scheduled<T(==)>(r: nat, w: pos, n: nat, sends: map<nat, seq<T>>, recvs: map<nat, seq<T>>, b: Batch<T>)
    requires n <= Log2(w)
  {
    && b.round < n && b.phase < 2
    && (RoundsSplit(w, b.round);
        && Meets(w, b.round, r, b.peer) && b.sending == (InFirst(w, b.round, r) == (b.phase == 0))
        && b.ops == HeldFor(if b.sending then sends else recvs, b.peer) != [])
  }

  lemma PhaseHas<T>(r: nat, w: pos, t: nat, phase: nat, sends: map<nat, seq<T>>, recvs: map<nat, seq<T>>, b: Batch<T>)
    requires t < Log2(w) && phase < 2 && PartSize(w, t) > 0
    ensures b in PhaseBatches(r, w, t, phase, sends, recvs)
       <==> b.round == t && b.phase == phase && Scheduled(r, w, t + 1, sends, recvs, b)
  {
    var sending := InFirst(w, t, r) == (phase == 0);
    BatchesHave(if sending then sends else recvs, OtherLo(w, t, r), OtherHi(w, t, r), t, phase, sending, b);
    OtherHalf(w, t, r, b.peer);
  }

  lemma {:induction false} RoundsHave<T>(r: nat, w: pos, n: nat, sends: map<nat, seq<T>>, recvs: map<nat, seq<T>>,
                                         b: Batch<T>)
    requires n <= Log2(w)
    ensures b in Rounds(r, w, n, sends, recvs) <==> Scheduled(r, w, n, sends, recvs, b)
  {
    if n > 0 {
      RoundsSplit(w, n - 1);
      RoundsHave(r, w, n - 1, sends, recvs, b);
      PhaseHas(r, w, n - 1, 0, sends, recvs, b);
      PhaseHas(r, w, n - 1, 1, sends, recvs, b);
    }
  }

  /** Of two ranks that meet, the lower one sends in phase 0 and the higher one in phase 1. */
  lemma LowerSendsFirst<T>(r: nat, w: pos, sends: map<nat, seq<T>>, recvs: map<nat, seq<T>>, b: Batch<T>)
    requires b in Schedule(r, w, sends, recvs)
    ensures b.peer != r && (b.sending == (r < b.peer) <==> b.phase == 0)
    ensures b.phase < 2 && b.ops == HeldFor(if b.sending then sends else recvs, b.peer) != []
  {
    RoundsHave(r, w, Log2(w), sends, recvs, b);
    RoundsSplit(w, b.round);
    HalvesInOrder(w, b.round, r, b.peer);
  }

  lemma HalvesInOrder(w: pos, t: nat, i: nat, j: nat)
    requires PartSize(w, t) > 0 && Meets(w, t, i, j)
    ensures i != j && (InFirst(w, t, i) <==> i < j)
  {
    DivModParts(i, PartSize(w, t));
    DivModParts(j, PartSize(w, t));
  }

  // ----- all ranks together

  /** What every rank holds, chunk by chunk, for sending and receiving. */
  datatype World<!T> = World(size: pos, chunks: nat, sends: (nat, nat) -> map<nat, seq<T>>,
                             recvs: (nat, nat) -> map<nat, seq<T>>)

  /** In every chunk, what one rank holds to send to another is what the other expects from it. */
  ghost predicate Consistent<T>(world: World<T>) {
    && (forall c, i, j :: 0 <= c < world.chunks && 0 <= i < world.size && 0 <= j < world.size ==>
          HeldFor(world.sends(c, i), j) == HeldFor(world.recvs(c, j), i))
    && (forall c, i, peer: nat :: 0 <= c < world.chunks && 0 <= i < world.size && peer in world.sends(c, i) ==>
          peer < world.size)
    && (forall c, i, peer: nat :: 0 <= c < world.chunks && 0 <= i < world.size && peer in world.recvs(c, i) ==>
          peer < world.size)
  }

  datatype Event = Event(chunk: nat, round: nat, phase: nat, src: nat, dst: nat)

  function EventOf<T>(chunk: nat, r: nat, b: Batch<T>): Event {
    if b.sending then Event(chunk, b.round, b.phase, r, b.peer) else Event(chunk, b.round, b.phase, b.peer, r)
  }

  function Labels<T>(chunk: nat, r: nat, batches: seq<Batch<T>>): seq<Event> {
    seq(|batches|, k requires 0 <= k < |batches| => EventOf(chunk, r, batches[k]))
  }

  function ChunkProgram<T>(world: World<T>, r: nat, c: nat): seq<Event> {
    Labels(c, r, Schedule(r, world.size, world.sends(c, r), world.recvs(c, r)))
  }

  function ChunkPrograms<T>(world: World<T>, r: nat): seq<seq<Event>> {
    seq(world.chunks, c requires 0 <= c < world.chunks => ChunkProgram(world, r, c))
  }

  function Program<T>(world: World<T>, r: nat): seq<Event> { Flatten(ChunkPrograms(world, r)) }

  /** The number of batches a phase may issue before the next phase's stamps begin. */
  function StampBase(w: pos, c: nat, t: nat, phase: nat): nat { ((c * Log2(w) + t) * 2 + phase) * (2 * w) }

  function StampOf(w: pos): Event -> nat { (e: Event) => StampBase(w, e.chunk, e.round, e.phase) + e.src + e.dst }

  function PartiesOf(e: Event): set<nat> { {e.src, e.dst} }

  function NetOf<T>(world: World<T>): Net<Event> {
    Net(seq(world.size, r requires 0 <= r < world.size => Program(world, r)), PartiesOf, StampOf(world.size))
  }

  /** The two ranks face each other in that round and phase, the sender holding something. */
  ghost predicate Exchanged<T>(world: World<T>, e: Event) {
    && e.round < Log2(world.size) && e.src < world.size && e.dst < world.size
    && (RoundsSplit(world.size, e.round);
        && Meets(world.size, e.round, e.src, e.dst)
        && e.phase == (if InFirst(world.size, e.round, e.src) then 0 else 1))
    && HeldFor(world.sends(e.chunk, e.src), e.dst) != []
  }

  /** The exchanges the schedule plans. */
  ghost predicate Planned<T>(world: World<T>, e: Event) { e.chunk < world.chunks && Exchanged(world, e) }

  lemma LabelsHave<T>(chunk: nat, r: nat, batches: seq<Batch<T>>, e: Event)
    ensures e in Labels(chunk, r, batches) <==> exists b :: b in batches && e == EventOf(chunk, r, b)
  {
    if e in Labels(chunk, r, batches) {
      var k :| 0 <= k < |batches| && e == Labels(chunk, r, batches)[k];
      assert batches[k] in batches;
    }
    if b :| b in batches && e == EventOf(chunk, r, b) {
      var k :| 0 <= k < |batches| && batches[k] == b;
      assert Labels(chunk, r, batches)[k] == e;
    }
  }

  /** A chunk's program on a rank holds exactly the planned exchanges the rank takes part in. */
  lemma ChunkHas<T>(world: World<T>, r: nat, c: nat, e: Event)
    requires Consistent(world) && r < world.size && c < world.chunks
    ensures e in ChunkProgram(world, r, c) <==> e.chunk == c && Exchanged(world, e) && r in PartiesOf(e)
  {
    var w, sends, recvs := world.size, world.sends(c, r), world.recvs(c, r);
    LabelsHave(c, r, Schedule(r, w, sends, recvs), e);
    if e in ChunkProgram(world, r, c) {
      var b :| b in Schedule(r, w, sends, recvs) && e == EventOf(c, r, b);
      RoundsHave(r, w, Log2(w), sends, recvs, b);
      RoundsSplit(w, b.round);
    }
    if e.chunk == c && Exchanged(world, e) && r in PartiesOf(e) {
      RoundsSplit(w, e.round);
      var b := if r == e.src then Batch(e.round, e.phase, true, e.dst, HeldFor(sends, e.dst))
               else Batch(e.round, e.phase, false, e.src, HeldFor(recvs, e.src));
      RoundsHave(r, w, Log2(w), sends, recvs, b);
      assert e == EventOf(c, r, b);
    }
  }

  lemma FlattenTagged(parts: seq<seq<Event>>, e: Event, own: bool)
    requires forall c :: 0 <= c < |parts| ==> (e in parts[c] <==> e.chunk == c && own)
    ensures e in Flatten(parts) <==> e.chunk < |parts| && own
  {
    FlattenIn(parts, e);
  }

  lemma ProgramHas<T>(world: World<T>, r: nat, e: Event)
    requires Consistent(world) && r < world.size
    ensures e in Program(world, r) <==> Planned(world, e) && r in PartiesOf(e)
  {
    var own := Exchanged(world, e) && r in PartiesOf(e);
    forall c | 0 <= c < world.chunks ensures e in ChunkPrograms(world, r)[c] <==> e.chunk == c && own {
      ChunkHas(world, r, c, e);
    }
    FlattenTagged(ChunkPrograms(world, r), e, own);
  }

  // ----- the stamps climb along every program

  lemma LabelsConcat<T>(chunk: nat, r: nat, a: seq<Batch<T>>, b: seq<Batch<T>>)
    ensures Labels(chunk, r, a + b) == Labels(chunk, r, a) + Labels(chunk, r, b)
  {
  }

  /** Within a phase the stamps grow with the peer. */
  lemma {:induction false} PeersClimb<T>(w: pos, c: nat, r: nat, ops: map<nat, seq<T>>, lo: nat, hi: nat, t: nat,
                                         phase: nat, sending: bool)
    requires lo <= hi
    ensures Band(Labels(c, r, Batches(ops, lo, hi, t, phase, sending)), StampOf(w),
                 StampBase(w, c, t, phase) + r + lo, StampBase(w, c, t, phase) + r + hi)
  {
    if lo < hi {
      PeersClimb(w, c, r, ops, lo, hi - 1, t, phase, sending);
      var last: seq<Batch<T>> :=
        if HeldFor(ops, hi - 1) == [] then [] else [Batch(t, phase, sending, hi - 1, ops[hi - 1])];
      var base := StampBase(w, c, t, phase) + r;
      LabelsConcat(c, r, Batches(ops, lo, hi - 1, t, phase, sending), last);
      assert Band(Labels(c, r, last), StampOf(w), base + hi - 1, base + hi);
      BandConcat(Labels(c, r, Batches(ops, lo, hi - 1, t, phase, sending)), Labels(c, r, last), StampOf(w),
                 base + lo, base + hi - 1, base + hi);
    }
  }

  lemma PhaseBand<T>(w: pos, c: nat, r: nat, t: nat, phase: nat, sends: map<nat, seq<T>>, recvs: map<nat, seq<T>>)
    requires t < Log2(w) && phase < 2 && r < w && PartSize(w, t) > 0
    requires (forall peer :: peer in sends ==> peer < w) && (forall peer :: peer in recvs ==> peer < w)
    ensures Band(Labels(c, r, PhaseBatches(r, w, t, phase, sends, recvs)), StampOf(w),
                 StampBase(w, c, t, phase), StampBase(w, c, t, phase) + 2 * w)
  {
    var sending := InFirst(w, t, r) == (phase == 0);
    var ops := if sending then sends else recvs;
    var batches := PhaseBatches(r, w, t, phase, sends, recvs);
    PeersClimb(w, c, r, ops, OtherLo(w, t, r), OtherHi(w, t, r), t, phase, sending);
    forall k | 0 <= k < |batches| ensures batches[k].peer < w && batches[k].round == t && batches[k].phase == phase {
      BatchesHave(ops, OtherLo(w, t, r), OtherHi(w, t, r), t, phase, sending, batches[k]);
    }
    PeersBound(w, c, r, batches, t, phase);
  }

  lemma PeersBound<T>(w: pos, c: nat, r: nat, batches: seq<Batch<T>>, t: nat, phase: nat)
    requires r < w && Climbs(Labels(c, r, batches), StampOf(w))
    requires forall k :: 0 <= k < |batches| ==>
               batches[k].peer < w && batches[k].round == t && batches[k].phase == phase
    ensures Band(Labels(c, r, batches), StampOf(w), StampBase(w, c, t, phase), StampBase(w, c, t, phase) + 2 * w)
  {
    var base := StampBase(w, c, t, phase);
    forall k | 0 <= k < |batches| ensures base <= StampOf(w)(Labels(c, r, batches)[k]) < base + 2 * w {
      assert StampOf(w)(EventOf(c, r, batches[k])) == base + r + batches[k].peer;
    }
  }

  lemma StampSteps(w: pos, c: nat, t: nat)
    ensures StampBase(w, c, t, 1) == StampBase(w, c, t, 0) + 2 * w
    ensures StampBase(w, c, t + 1, 0) == StampBase(w, c, t, 1) + 2 * w
    ensures StampBase(w, c + 1, 0, 0) == StampBase(w, c, Log2(w), 0)
  {
    var n, k := c * Log2(w) + t, 2 * w;
    assert (n * 2 + 1) * k == (n * 2) * k + k;
    assert ((n + 1) * 2) * k == (n * 2 + 1) * k + k;
    assert (c + 1) * Log2(w) == c * Log2(w) + Log2(w);
  }

  lemma {:induction false} RoundsBand<T>(w: pos, c: nat, r: nat, n: nat, sends: map<nat, seq<T>>,
                                         recvs: map<nat, seq<T>>)
    requires n <= Log2(w) && r < w
    requires (forall peer :: peer in sends ==> peer < w) && (forall peer :: peer in recvs ==> peer < w)
    ensures StampBase(w, c, 0, 0) <= StampBase(w, c, n, 0)
    ensures Band(Labels(c, r, Rounds(r, w, n, sends, recvs)), StampOf(w), StampBase(w, c, 0, 0), StampBase(w, c, n, 0))
  {
    if n > 0 {
      var t, stamp := n - 1, StampOf(w);
      RoundsSplit(w, t);
      RoundsBand(w, c, r, t, sends, recvs);
      var before := Rounds(r, w, t, sends, recvs);
      var p0, p1 := PhaseBatches(r, w, t, 0, sends, recvs), PhaseBatches(r, w, t, 1, sends, recvs);
      PhaseBand(w, c, r, t, 0, sends, recvs);
      PhaseBand(w, c, r, t, 1, sends, recvs);
      StampSteps(w, c, t);
      LabelsConcat(c, r, before, p0);
      LabelsConcat(c, r, before + p0, p1);
      BandConcat(Labels(c, r, before), Labels(c, r, p0), stamp,
                 StampBase(w, c, 0, 0), StampBase(w, c, t, 0), StampBase(w, c, t, 1));
      BandConcat(Labels(c, r, before + p0), Labels(c, r, p1), stamp,
                 StampBase(w, c, 0, 0), StampBase(w, c, t, 1), StampBase(w, c, n, 0));
    }
  }

  lemma ChunkBand<T>(world: World<T>, r: nat, c: nat)
    requires Consistent(world) && r < world.size && c < world.chunks
    ensures StampBase(world.size, c, 0, 0) <= StampBase(world.size, c + 1, 0, 0)
    ensures Band(ChunkProgram(world, r, c), StampOf(world.size), StampBase(world.size, c, 0, 0),
                 StampBase(world.size, c + 1, 0, 0))
  {
    var w := world.size;
    RoundsBand(w, c, r, Log2(w), world.sends(c, r), world.recvs(c, r));
    StampSteps(w, c, 0);
  }

  lemma ProgramClimbs<T>(world: World<T>, r: nat)
    requires Consistent(world) && r < world.size
    ensures Climbs(Program(world, r), StampOf(world.size))
  {
    var n := world.chunks;
    var marks := seq(n + 1, c requires 0 <= c <= n => StampBase(world.size, c, 0, 0));
    forall c | 0 <= c < n
      ensures marks[c] <= marks[c + 1] && Band(ChunkPrograms(world, r)[c], StampOf(world.size), marks[c], marks[c + 1])
    {
      ChunkBand(world, r, c);
    }
    FlattenBand(ChunkPrograms(world, r), StampOf(world.size), marks);
  }

  /** The schedule fits together, whatever the world size: so no run of it can get stuck. */
  lemma ButterflyWellFormed<T>(world: World<T>)
    requires Consistent(world)
    ensures WellFormed(NetOf(world))
  {
    var net := NetOf(world);
    forall r, k | 0 <= r < |net.progs| && 0 <= k < |net.progs[r]|
      ensures r in net.parties(net.progs[r][k])
      ensures forall q: nat :: q in net.parties(net.progs[r][k]) ==> q < |net.progs| && net.progs[r][k] in net.progs[q]
    {
      var e := net.progs[r][k];
      ProgramHas(world, r, e);
      ProgramHas(world, e.src, e);
      ProgramHas(world, e.dst, e);
    }
    forall r | 0 <= r < |net.progs| ensures Climbs(net.progs[r], net.stamp) {
      ProgramClimbs(world, r);
    }
  }

  /** Within one phase of a round a rank only sends or only receives. */
  lemma OneDirection<T>(world: World<T>, r: nat, e: Event, f: Event)
    requires Consistent(world) && r < world.size
    requires e in NetOf(world).progs[r] && f in NetOf(world).progs[r]
    requires e.chunk == f.chunk && e.round == f.round && e.phase == f.phase
    ensures r == e.src <==> r == f.src
  {
    ProgramHas(world, r, e);
    ProgramHas(world, r, f);
    RoundsSplit(world.size, e.round);
  }

  /** No reachable state is stuck, and a run is never longer than all programs together. */
  lemma ButterflyNeverStuck<T>(world: World<T>, run: seq<Event>) returns (next: Event)
    requires Consistent(world) && IsRun(NetOf(world), run)
    ensures var net := NetOf(world);
            && Fits(net, After(net, run)) && Fits(net, Start(net))
            && |run| + Remaining(net, After(net, run), world.size) <= Remaining(net, Start(net), world.size)
            && (!Finished(net, After(net, run)) ==> Enabled(net, After(net, run), next) && IsRun(net, run + [next]))
  {
    ButterflyWellFormed(world);
    RunsEnd(NetOf(world), run);
    if !Finished(NetOf(world), After(NetOf(world), run)) {
      next := Progress(NetOf(world), run);
    } else {
      next := Event(0, 0, 0, 0, 0);
    }
  }

  // ----- which pairs meet

  predicate PowerOfTwo(w: pos) { w == Pow2(Log2(w)) }

  /** In how many of the first n rounds the two ranks face each other. */
  function MeetCount(w: pos, i: nat, j: nat, n: nat): nat
    requires n <= Log2(w)
  {
    if n == 0 then 0 else
      RoundsSplit(w, n - 1);
      MeetCount(w, i, j, n - 1) + (if Meets(w, n - 1, i, j) then 1 else 0)
  }

  lemma {:induction false} PowersDivide(n: nat, t: nat)
    requires t <= n
    ensures Quotient(Pow2(n), Pow2(t)) == Pow2(n - t)
  {
    PowersMultiply(t, n - t);
    DivideProduct(Pow2(t), Pow2(n - t));
  }

  lemma DivideProduct(d: pos, q: nat)
    ensures Quotient(d * q, d) == q
  {
    InBlock(d, q, q * d);
  }

  lemma {:induction false} PowersMultiply(a: nat, b: nat)
    ensures Pow2(a + b) == Pow2(a) * Pow2(b)
  {
    if a > 0 {
      PowersMultiply(a - 1, b);
      assert Pow2(a + b) == 2 * (Pow2(a - 1) * Pow2(b));
      Arithmetic.Associate(2, Pow2(a - 1), Pow2(b));
    }
  }

  lemma HalfBlocks(x: nat, h: pos)
    ensures x / (2 * h) == (x / h) / 2
    ensures x % (2 * h) < h <==> (x / h) % 2 == 0
  {
    var q := x / h;
    DivModParts(x, h);
    DivModParts(q, 2);
    Associate(q / 2, 2, h);
    Distribute((q / 2) * 2, q % 2, h);
    assert (q % 2) * h == if q % 2 == 0 then 0 else h;
    DivModUnique(x, q / 2, (q % 2) * h + x % h, 2 * h);
  }

  /** In a power of two the ranks face each other where their partitions first part ways. */
  lemma MeetsWhereTheyPart(w: pos, t: nat, i: nat, j: nat)
    requires PowerOfTwo(w) && t < Log2(w) && PartSize(w, t) > 0 && PartSize(w, t + 1) > 0
    ensures Meets(w, t, i, j) <==> PartOf(w, t, i) == PartOf(w, t, j) && PartOf(w, t + 1, i) != PartOf(w, t + 1, j)
    ensures PartOf(w, t, i) != PartOf(w, t, j) ==> PartOf(w, t + 1, i) != PartOf(w, t + 1, j)
  {
    var n := Log2(w);
    PowersDivide(n, t);
    PowersDivide(n, t + 1);
    HalfBlocks(i, PartSize(w, t + 1));
    HalfBlocks(j, PartSize(w, t + 1));
  }

  lemma {:induction false} CountUpTo(w: pos, i: nat, j: nat, n: nat)
    requires PowerOfTwo(w) && i < w && j < w && n <= Log2(w) && PartSize(w, n) > 0
    ensures MeetCount(w, i, j, n) == if PartOf(w, n, i) == PartOf(w, n, j) then 0 else 1
  {
    if n == 0 {
      PowersDivide(Log2(w), 0);
      InBlock(w, 0, i);
      InBlock(w, 0, j);
    } else {
      RoundsSplit(w, n - 1);
      CountUpTo(w, i, j, n - 1);
      MeetsWhereTheyPart(w, n - 1, i, j);
    }
  }

  /** Which halves a rank is in, over the first n rounds, as a number. */
  function Code(w: pos, n: nat, r: nat): nat
    requires n <= Log2(w)
  {
    if n == 0 then 0 else
      RoundsSplit(w, n - 1);
      2 * Code(w, n - 1, r) + (if InFirst(w, n - 1, r) then 0 else 1)
  }

  lemma {:induction false} CodesBounded(w: pos, n: nat, r: nat)
    requires n <= Log2(w)
    ensures Code(w, n, r) < Pow2(n)
  {
    if n > 0 {
      CodesBounded(w, n - 1, r);
    }
  }

  /** Ranks that are always in the same half never face each other. */
  lemma {:induction false} SameCodeNeverMeets(w: pos, n: nat, i: nat, j: nat)
    requires n <= Log2(w) && Code(w, n, i) == Code(w, n, j)
    ensures MeetCount(w, i, j, n) == 0
  {
    if n > 0 {
      RoundsSplit(w, n - 1);
      SameCodeNeverMeets(w, n - 1, i, j);
    }
  }

  function Upto(n: nat): set<nat> { if n == 0 then {} else Upto(n - 1) + {n - 1} }

  lemma {:induction false} UptoSize(n: nat)
    ensures |Upto(n)| == n && forall k: nat :: k in Upto(n) <==> k < n
  {
    if n > 0 {
      UptoSize(n - 1);
    }
  }

  lemma Pigeonhole(f: nat -> nat, n: nat, m: nat) returns (i: nat, j: nat)
    requires m < n && forall k: nat :: k < n ==> f(k) < m
    ensures i < j < n && f(i) == f(j)
  {
    var seen: set<nat> := {};
    UptoSize(m);
    j := 0;
    while f(j) !in seen
      invariant j < n && |seen| == j && seen <= Upto(m)
      invariant forall v :: v in seen <==> exists k: nat :: k < j && f(k) == v
      decreases n - j
    {
      seen := seen + {f(j)};
      j := j + 1;
      Subset(seen, Upto(m));
    }
    i :| i < j && f(i) == f(j);
  }

  lemma {:induction false} Subset(a: set<nat>, b: set<nat>)
    requires a <= b
    ensures |a| <= |b|
  {
    if x :| x in a {
      Subset(a - {x}, b - {x});
    }
  }

  /** Every pair faces each other, and then in exactly one round, if and only if the world is a power of two. */
  lemma CoverageIffPowerOfTwo(w: pos)
    ensures (forall i, j :: 0 <= i < j < w ==> MeetCount(w, i, j, Log2(w)) == 1) <==> PowerOfTwo(w)
    ensures (forall i, j :: 0 <= i < j < w ==> MeetCount(w, i, j, Log2(w)) >= 1) <==> PowerOfTwo(w)
  {
    var n := Log2(w);
    PowersFit(w);
    if PowerOfTwo(w) {
      forall i, j | 0 <= i < j < w ensures MeetCount(w, i, j, n) == 1 {
        PowersDivide(n, n);
        CountUpTo(w, i, j, n);
      }
    } else {
      forall r: nat ensures Code(w, n, r) < Pow2(n) {
        CodesBounded(w, n, r);
      }
      var i, j := Pigeonhole((r: nat) => Code(w, n, r), w, Pow2(n));
      SameCodeNeverMeets(w, n, i, j);
    }
  }

  /** Off the powers of two a pair may also face each other twice: ranks 4 and 5 of 11. */
  lemma MeetsTwice()
    ensures Log2(11) == 3 && MeetCount(11, 4, 5, 3) == 2
  {
    assert Log2(5) == 2;
    assert Pow2(1) == 2 && Pow2(2) == 4;
    assert PartSize(11, 0) == 11 && PartSize(11, 1) == 5 && PartSize(11, 2) == 2;
    assert MeetCount(11, 4, 5, 1) == 1;
    assert MeetCount(11, 4, 5, 2) == 1;
  }

  lemma {:induction false} MeetsOnce(w: pos, i: nat, j: nat, n: nat) returns (t: nat)
    requires n <= Log2(w) && MeetCount(w, i, j, n) == 1
    ensures t < n && PartSize(w, t) > 0 && Meets(w, t, i, j)
    ensures forall u: nat :: u < n && PartSize(w, u) > 0 && Meets(w, u, i, j) ==> u == t
  {
    RoundsSplit(w, n - 1);
    if MeetCount(w, i, j, n - 1) == 1 {
      t := MeetsOnce(w, i, j, n - 1);
    } else {
      t := n - 1;
      NeverMeets(w, i, j, n - 1);
    }
  }

  lemma {:induction false} NeverMeets(w: pos, i: nat, j: nat, n: nat)
    requires n <= Log2(w) && MeetCount(w, i, j, n) == 0
    ensures forall u: nat :: u < n && PartSize(w, u) > 0 ==> !Meets(w, u, i, j)
  {
    if n > 0 {
      NeverMeets(w, i, j, n - 1);
    }
  }

  lemma {:induction false} MeetCountSymmetric(w: pos, i: nat, j: nat, n: nat)
    requires n <= Log2(w)
    ensures MeetCount(w, i, j, n) == MeetCount(w, j, i, n)
  {
    if n > 0 {
      MeetCountSymmetric(w, i, j, n - 1);
    }
  }

  lemma FacingRound(w: pos, i: nat, j: nat) returns (t: nat)
    requires PowerOfTwo(w) && i < w && j < w && i != j
    ensures t < Log2(w) && PartSize(w, t) > 0 && Meets(w, t, i, j)
    ensures forall u: nat :: u < Log2(w) && PartSize(w, u) > 0 && Meets(w, u, i, j) ==> u == t
  {
    CoverageIffPowerOfTwo(w);
    MeetCountSymmetric(w, i, j, Log2(w));
    t := MeetsOnce(w, i, j, Log2(w));
  }

  predicate SamePair(e: Event, f: Event) { e.chunk == f.chunk && e.src == f.src && e.dst == f.dst }

  /** What rank i holds for rank j in a chunk is planned as exactly one exchange. */
  lemma PlannedOnce<T>(world: World<T>, c: nat, i: nat, j: nat) returns (e: Event)
    requires Consistent(world) && PowerOfTwo(world.size)
    requires c < world.chunks && i < world.size && j < world.size && i != j && HeldFor(world.sends(c, i), j) != []
    ensures Planned(world, e) && e.chunk == c && e.src == i && e.dst == j
    ensures forall f :: Planned(world, f) && SamePair(e, f) ==> f == e
  {
    var t := FacingRound(world.size, i, j);
    e := Event(c, t, if InFirst(world.size, t, i) then 0 else 1, i, j);
    forall f | Planned(world, f) && SamePair(e, f) ensures f == e {
      RoundsSplit(world.size, f.round);
    }
  }

  /** In a power of two, a finished run has carried each chunk's batch of each pair exactly once. */
  lemma DeliveredOnce<T>(world: World<T>, run: seq<Event>, c: nat, i: nat, j: nat) returns (e: Event)
    requires Consistent(world) && PowerOfTwo(world.size)
    requires c < world.chunks && i < world.size && j < world.size && i != j && HeldFor(world.sends(c, i), j) != []
    requires FinishedRun(NetOf(world), run)
    ensures e.chunk == c && e.src == i && e.dst == j && multiset(run)[e] == 1
    ensures forall f :: f in run && SamePair(e, f) ==> f == e
  {
    e := PlannedOnce(world, c, i, j);
    PlannedIsRun(world, run, e);
    forall f | f in run && SamePair(e, f) ensures f == e {
      RunPlanned(world, run, f);
    }
  }

  /** A finished run carries out every planned exchange once. */
  lemma PlannedIsRun<T>(world: World<T>, run: seq<Event>, e: Event)
    requires Consistent(world) && Planned(world, e)
    requires FinishedRun(NetOf(world), run)
    ensures multiset(run)[e] == 1
  {
    ButterflyWellFormed(world);
    ProgramHas(world, e.src, e);
    assert e in NetOf(world).progs[e.src];
    FinishedOnce(NetOf(world), run, e);
  }

  /** A run carries out planned exchanges only. */
  lemma RunPlanned<T>(world: World<T>, run: seq<Event>, f: Event)
    requires Consistent(world) && IsRun(NetOf(world), run) && f in run
    ensures Planned(world, f)
  {
    var net := NetOf(world);
    RunOfPrograms(net, run, f);
    var r :| 0 <= r < |net.progs| && f in net.progs[r];
    ProgramHas(world, r, f);
  }
}
