/**
 The chunked transfer (awex/transfer/nccl_stream_batch.py): every per-peer list is cut into
 chunks of a step size all ranks agree on, and the recursive-partition schedule runs once
 per chunk. Whatever the ranks propose, it delivers what the one-shot transfer delivers.
 */
module Chunked {
  import opened Seqs
  import opened Slices
  import opened Arithmetic
  import opened Rendezvous
  import opened Butterfly

  // ----- what a finished run delivers between two ranks

  function Payload<T>(world: World<T>, e: Event): seq<T> { HeldFor(world.sends(e.chunk, e.src), e.dst) }

  function FromTo(i: nat, j: nat): Event -> bool { (e: Event) => e.src == i && e.dst == j }

  function Payloads<T>(world: World<T>, events: seq<Event>): seq<seq<T>> {
    seq(|events|, k requires 0 <= k < |events| => Payload(world, events[k]))
  }

  /** The operations rank j receives from rank i, in the order the run carries them. */
  function Delivered<T>(world: World<T>, run: seq<Event>, i: nat, j: nat): seq<T> {
    Flatten(Payloads(world, Filter(run, FromTo(i, j))))
  }

  lemma {:induction false} FilterSingle<T>(s: seq<T>, keep: T -> bool, x: T)
    requires (forall y :: y in s && keep(y) ==> y == x) && multiset(s)[x] <= 1
    ensures Filter(s, keep) == if x in s && keep(x) then [x] else []
  {
    if s != [] {
      var n := |s| - 1;
      assert s == s[..n] + [s[n]];
      assert s[n] in s;
      assert forall y :: y in s[..n] ==> y in s;
      FilterSingle(s[..n], keep, x);
    }
  }

  lemma ChunkPairNone<T>(world: World<T>, i: nat, j: nat, c: nat)
    requires Consistent(world) && i < world.size && c < world.chunks && HeldFor(world.sends(c, i), j) == []
    ensures Filter(ChunkPrograms(world, i)[c], FromTo(i, j)) == []
  {
    var prog := ChunkPrograms(world, i)[c];
    forall e | e in prog ensures !FromTo(i, j)(e) {
      ChunkHas(world, i, c, e);
    }
    FilterNone(prog, FromTo(i, j));
  }

  lemma ChunkPairOne<T>(world: World<T>, i: nat, j: nat, c: nat, e: Event)
    requires Consistent(world) && i < world.size && c < world.chunks && FromTo(i, j)(e) && e.chunk == c &&
             Planned(world, e)
    requires forall f :: Planned(world, f) && SamePair(e, f) ==> f == e
    ensures Filter(ChunkPrograms(world, i)[c], FromTo(i, j)) == [e]
  {
    var prog := ChunkPrograms(world, i)[c];
    ChunkHas(world, i, c, e);
    forall f | f in prog && FromTo(i, j)(f) ensures f == e {
      ChunkHas(world, i, c, f);
      assert Planned(world, f) && SamePair(e, f);
    }
    ChunkBand(world, i, c);
    ClimbingOnce(prog, StampOf(world.size), e);
    FilterSingle(prog, FromTo(i, j), e);
  }

  /** A chunk's program holds the pair's exchange once if there is anything to send, else not at all. */
  lemma ChunkPair<T>(world: World<T>, i: nat, j: nat, c: nat)
    requires Consistent(world) && PowerOfTwo(world.size) && i < world.size && j < world.size && i != j &&
             c < world.chunks
    ensures Flatten(Payloads(world, Filter(ChunkPrograms(world, i)[c], FromTo(i, j)))) == HeldFor(world.sends(c, i), j)
  {
    if HeldFor(world.sends(c, i), j) == [] {
      ChunkPairNone(world, i, j, c);
    } else {
      var e := PlannedOnce(world, c, i, j);
      ChunkPairOne(world, i, j, c, e);
    }
  }

  lemma PayloadsConcat<T>(world: World<T>, a: seq<Event>, b: seq<Event>)
    ensures Flatten(Payloads(world, a + b)) == Flatten(Payloads(world, a)) + Flatten(Payloads(world, b))
  {
    assert Payloads(world, a + b) == Payloads(world, a) + Payloads(world, b);
    FlattenConcat(Payloads(world, a), Payloads(world, b));
  }

  lemma {:induction false} PayloadsOfParts<T>(world: World<T>, parts: seq<seq<Event>>, held: seq<seq<T>>)
    requires |held| == |parts| && forall c :: 0 <= c < |parts| ==> Flatten(Payloads(world, parts[c])) == held[c]
    ensures Flatten(Payloads(world, Flatten(parts))) == Flatten(held)
  {
    if parts != [] {
      var n := |parts| - 1;
      PayloadsOfParts(world, parts[..n], held[..n]);
      PayloadsConcat(world, Flatten(parts[..n]), parts[n]);
    }
  }

  /** What a rank holds for another, chunk after chunk. */
  function ChunksHeld<T>(world: World<T>, i: nat, j: nat): seq<seq<T>> {
    seq(world.chunks, c requires 0 <= c < world.chunks => HeldFor(world.sends(c, i), j))
  }

  /** Every finished run delivers, between every two ranks, all chunks in their order. */
  lemma DeliveredInOrder<T>(world: World<T>, run: seq<Event>, i: nat, j: nat)
    requires Consistent(world) && PowerOfTwo(world.size) && i < world.size && j < world.size && i != j
    requires FinishedRun(NetOf(world), run)
    ensures Delivered(world, run, i, j) == Flatten(ChunksHeld(world, i, j))
  {
    RunPairs(world, run, i, j);
    ProgramPairs(world, i, j);
  }

  lemma RunPairs<T>(world: World<T>, run: seq<Event>, i: nat, j: nat)
    requires Consistent(world) && i < world.size
    requires FinishedRun(NetOf(world), run)
    ensures Filter(run, FromTo(i, j)) == Filter(Program(world, i), FromTo(i, j))
  {
    var net := NetOf(world);
    ButterflyWellFormed(world);
    RunFollowsPrograms(net, run, i);
    assert net.progs[i][..|net.progs[i]|] == net.progs[i];
    FilterTwice(run, Involves(net, i), FromTo(i, j), FromTo(i, j));
  }

  lemma ProgramPairs<T>(world: World<T>, i: nat, j: nat)
    requires Consistent(world) && PowerOfTwo(world.size) && i < world.size && j < world.size && i != j
    ensures Flatten(Payloads(world, Filter(Program(world, i), FromTo(i, j)))) == Flatten(ChunksHeld(world, i, j))
  {
    var parts := ChunkPrograms(world, i);
    var kept := seq(|parts|, c requires 0 <= c < |parts| => Filter(parts[c], FromTo(i, j)));
    FilterFlatten(parts, FromTo(i, j), kept);
    forall c | 0 <= c < |parts| ensures Flatten(Payloads(world, kept[c])) == ChunksHeld(world, i, j)[c] {
      ChunkPair(world, i, j, c);
    }
    PayloadsOfParts(world, kept, ChunksHeld(world, i, j));
  }

  // ----- cutting a list into chunks

  /** Operation k is in chunk k / step and in no other. */
  lemma ChunkOfOp<T>(ops: seq<T>, k: nat, c: nat, step: pos)
    requires k < |ops|
    ensures c * step <= k < c * step + |Chunk(ops, c, step)| <==> c == k / step
    ensures c == k / step ==> Chunk(ops, c, step)[k % step] == ops[k]
  {
    InBlock(step, c, k);
    DivModParts(k, step);
  }

  // ----- agreeing on the step and on the number of chunks

  function MinOf(s: seq<nat>): nat
    requires s != []
  {
    if |s| == 1 then s[0] else Min(MinOf(s[..|s| - 1]), s[|s| - 1])
  }

  function MaxOf(s: seq<nat>): nat
    requires s != []
  {
    if |s| == 1 then s[0] else Max(MaxOf(s[..|s| - 1]), s[|s| - 1])
  }

  lemma {:induction false} MaxOfBounds(s: seq<nat>, k: nat)
    requires k < |s|
    ensures s[k] <= MaxOf(s)
  {
    if k < |s| - 1 {
      MaxOfBounds(s[..|s| - 1], k);
    }
  }

  function LongestUpTo<T>(ops: map<nat, seq<T>>, peers: seq<nat>): nat {
    if peers == [] then 0 else Max(LongestUpTo(ops, peers[..|peers| - 1]), |HeldFor(ops, peers[|peers| - 1])|)
  }

  function Longest<T>(ops: map<nat, seq<T>>): nat { LongestUpTo(ops, SortedKeys(ops.Keys)) }

  lemma {:induction false} LongestBounds<T>(ops: map<nat, seq<T>>, peers: seq<nat>, k: nat)
    requires k < |peers|
    ensures |HeldFor(ops, peers[k])| <= LongestUpTo(ops, peers)
  {
    if k < |peers| - 1 {
      LongestBounds(ops, peers[..|peers| - 1], k);
    }
  }

  lemma LongestOf<T>(ops: map<nat, seq<T>>, peer: nat)
    ensures |HeldFor(ops, peer)| <= Longest(ops)
  {
    SortedKeysProperties(ops.Keys);
    if peer in ops {
      var k :| 0 <= k < |SortedKeys(ops.Keys)| && SortedKeys(ops.Keys)[k] == peer;
      LongestBounds(ops, SortedKeys(ops.Keys), k);
    }
  }

  /** The chunks one rank needs for its own lists. */
  function OwnChunks<T>(sends: map<nat, seq<T>>, recvs: map<nat, seq<T>>, step: pos): nat {
    Max(1, CeilDiv(Max(Longest(sends), Longest(recvs)), step))
  }

  lemma OwnChunksEnough<T>(sends: map<nat, seq<T>>, recvs: map<nat, seq<T>>, step: pos, n: nat, peer: nat)
    requires n >= OwnChunks(sends, recvs, step)
    ensures |HeldFor(sends, peer)| <= n * step && |HeldFor(recvs, peer)| <= n * step
  {
    CeilingCovers(Max(Longest(sends), Longest(recvs)), step, n);
    LongestOf(sends, peer);
    LongestOf(recvs, peer);
  }

  // ----- the chunked transfer

  /** A rank's lists for its peers, and the step size it proposes. */
  datatype RankOps<T> = RankOps(sends: map<nat, seq<T>>, recvs: map<nat, seq<T>>, step: nat)

  /** The lists of all ranks; there is at least one. */
  type Ranks<T> = ranks: seq<RankOps<T>> | ranks != [] witness [RankOps(map[], map[], 1)]

  /** The dictionary of one chunk: peers with nothing left are dropped. */
  function ChunkDict<T>(ops: map<nat, seq<T>>, c: nat, step: nat): map<nat, seq<T>> {
    CutDict(ops, ChunkStart(c, step), ChunkStart(c, step) + step)
  }

  function CutDict<T>(ops: map<nat, seq<T>>, start: nat, end: nat): map<nat, seq<T>>
    requires start <= end
  {
    map peer | peer in ops && |SliceOf(ops[peer], start, end)| > 0 :: SliceOf(ops[peer], start, end)
  }

  function Steps<T>(ranks: Ranks<T>): seq<nat> {
    seq(|ranks|, r requires 0 <= r < |ranks| => ranks[r].step)
  }

  /** The all-reduced minimum, never below one. */
  function AgreedStep<T>(ranks: Ranks<T>): pos { Max(1, MinOf(Steps(ranks))) }

  function ChunkCounts<T>(ranks: Ranks<T>): seq<nat> {
    seq(|ranks|, r requires 0 <= r < |ranks| => OwnChunks(ranks[r].sends, ranks[r].recvs, AgreedStep(ranks)))
  }

  /** The all-reduced maximum of what the ranks need. */
  function AgreedChunks<T>(ranks: Ranks<T>): nat { MaxOf(ChunkCounts(ranks)) }

  lemma {:induction false} MinOfTight(s: seq<nat>) returns (k: nat)
    requires s != []
    ensures k < |s| && s[k] == MinOf(s) && forall i :: 0 <= i < |s| ==> MinOf(s) <= s[i]
  {
    if |s| == 1 {
      k := 0;
    } else {
      k := MinOfTight(s[..|s| - 1]);
      if s[|s| - 1] < s[k] {
        k := |s| - 1;
      }
    }
  }

  lemma {:induction false} MaxOfTaken(s: seq<nat>) returns (k: nat)
    requires s != []
    ensures k < |s| && s[k] == MaxOf(s)
  {
    if |s| == 1 {
      k := 0;
    } else {
      k := MaxOfTaken(s[..|s| - 1]);
      if s[|s| - 1] > s[k] {
        k := |s| - 1;
      }
    }
  }

  lemma {:induction false} LongestTaken<T>(ops: map<nat, seq<T>>, peers: seq<nat>) returns (peer: nat)
    ensures LongestUpTo(ops, peers) == 0 || |HeldFor(ops, peer)| == LongestUpTo(ops, peers)
  {
    peer := 0;
    if peers != [] {
      peer := LongestTaken(ops, peers[..|peers| - 1]);
      if |HeldFor(ops, peers[|peers| - 1])| == LongestUpTo(ops, peers) {
        peer := peers[|peers| - 1];
      }
    }
  }

  /** The agreed step is what the rank with the smallest proposal wants, and no rank's proposal is exceeded. */
  lemma AgreedStepTight<T>(ranks: Ranks<T>) returns (r: nat)
    ensures r < |ranks| && AgreedStep(ranks) == (if ranks[r].step == 0 then 1 else ranks[r].step)
    ensures forall i :: 0 <= i < |ranks| ==> ranks[i].step == 0 || AgreedStep(ranks) <= ranks[i].step
  {
    r := MinOfTight(Steps(ranks));
    assert forall i :: 0 <= i < |ranks| ==> Steps(ranks)[i] == ranks[i].step;
  }

  /** The agreed number of chunks leaves nothing out, and with one chunk less some list would be cut short. */
  lemma AgreedChunksTight<T>(ranks: Ranks<T>) returns (r: nat, peer: nat)
    ensures forall i, p: nat :: 0 <= i < |ranks| ==>
              && |HeldFor(ranks[i].sends, p)| <= AgreedChunks(ranks) * AgreedStep(ranks)
              && |HeldFor(ranks[i].recvs, p)| <= AgreedChunks(ranks) * AgreedStep(ranks)
    ensures r < |ranks| && AgreedChunks(ranks) >= 1
    ensures AgreedChunks(ranks) > 1 ==>
              Max(|HeldFor(ranks[r].sends, peer)|, |HeldFor(ranks[r].recvs, peer)|)
              > (AgreedChunks(ranks) - 1) * AgreedStep(ranks)
  {
    forall i, p: nat | 0 <= i < |ranks|
      ensures |HeldFor(ranks[i].sends, p)| <= AgreedChunks(ranks) * AgreedStep(ranks)
      ensures |HeldFor(ranks[i].recvs, p)| <= AgreedChunks(ranks) * AgreedStep(ranks)
    {
      MaxOfBounds(ChunkCounts(ranks), i);
      OwnChunksEnough(ranks[i].sends, ranks[i].recvs, AgreedStep(ranks), AgreedChunks(ranks), p);
    }
    r := MaxOfTaken(ChunkCounts(ranks));
    peer := OwnChunksNeeded(ranks[r].sends, ranks[r].recvs, AgreedStep(ranks), AgreedChunks(ranks));
  }

  lemma OwnChunksNeeded<T>(sends: map<nat, seq<T>>, recvs: map<nat, seq<T>>, step: pos, n: nat) returns (peer: nat)
    requires n == OwnChunks(sends, recvs, step)
    ensures n >= 1 && (n > 1 ==> Max(|HeldFor(sends, peer)|, |HeldFor(recvs, peer)|) > (n - 1) * step)
  {
    var p := LongestTaken(sends, SortedKeys(sends.Keys));
    var q := LongestTaken(recvs, SortedKeys(recvs.Keys));
    peer := if Longest(sends) >= Longest(recvs) then p else q;
    var longest := Max(Longest(sends), Longest(recvs));
    if n > 1 {
      CeilingTight(longest, step, n);
    }
  }

  method BuildChunk<T>(ops: map<nat, seq<T>>, c: nat, step: nat) returns (chunk: map<nat, seq<T>>)
    ensures chunk == ChunkDict(ops, c, step)
    ensures forall peer: nat :: HeldFor(chunk, peer) == Chunk(HeldFor(ops, peer), c, step)
    ensures forall peer :: peer in chunk ==> chunk[peer] != []
  {
    forall peer: nat ensures HeldFor(ChunkDict(ops, c, step), peer) == Chunk(HeldFor(ops, peer), c, step) {
      ChunkHeld(ops, c, step, peer);
    }
    var start := ChunkStart(c, step);
    chunk := CutEach(ops, start, start + step);
  }

  method CutEach<T>(ops: map<nat, seq<T>>, start: nat, end: nat) returns (chunk: map<nat, seq<T>>)
    requires start <= end
    ensures chunk == CutDict(ops, start, end)
  {
    chunk := map[];
    var rest := ops.Keys;
    while rest != {}
      invariant rest <= ops.Keys
      invariant forall peer :: peer in chunk <==> peer in ops && peer !in rest && |SliceOf(ops[peer], start, end)| > 0
      invariant forall peer :: peer in chunk ==> chunk[peer] == SliceOf(ops[peer], start, end)
      decreases rest
    {
      var peer :| peer in rest;
      var sub := SliceOf(ops[peer], start, end);
      rest := rest - {peer};
      if |sub| > 0 {
        chunk := chunk[peer := sub];
      }
    }
  }

  /** One rank's part: the schedule of every chunk in turn. */
  method RunChunked<T(==)>(rank: nat, worldSize: pos, ops: RankOps<T>, step: nat, chunks: nat)
    returns (issued: seq<seq<Batch<T>>>)
    ensures |issued| == chunks
    ensures forall c :: 0 <= c < chunks ==>
              issued[c] == Schedule(rank, worldSize, ChunkDict(ops.sends, c, step), ChunkDict(ops.recvs, c, step))
  {
    issued := [];
    for c := 0 to chunks
      invariant |issued| == c
      invariant forall d :: 0 <= d < c ==>
                  issued[d] == Schedule(rank, worldSize, ChunkDict(ops.sends, d, step), ChunkDict(ops.recvs, d, step))
    {
      var sends := BuildChunk(ops.sends, c, step);
      var recvs := BuildChunk(ops.recvs, c, step);
      var batches := ExecuteRecursivePartition(rank, worldSize, sends, recvs);
      issued := issued + [batches];
    }
  }

  function SendsOf<T>(ranks: Ranks<T>, r: nat): map<nat, seq<T>> { if r < |ranks| then ranks[r].sends else map[] }
  function RecvsOf<T>(ranks: Ranks<T>, r: nat): map<nat, seq<T>> { if r < |ranks| then ranks[r].recvs else map[] }

  /** All ranks running n chunks of one step size. */
  function CutWorld<T>(ranks: Ranks<T>, n: nat, step: nat): World<T> {
    World(|ranks|, n,
          (c: nat, r: nat) => ChunkDict(SendsOf(ranks, r), c, step),
          (c: nat, r: nat) => ChunkDict(RecvsOf(ranks, r), c, step))
  }

  /** All ranks running the chunked transfer. */
  function ChunkedWorld<T>(ranks: Ranks<T>): World<T> { CutWorld(ranks, AgreedChunks(ranks), AgreedStep(ranks)) }

  /** All ranks running the one-shot transfer. */
  function OneShotWorld<T>(ranks: Ranks<T>): World<T> {
    World(|ranks|, 1, (c: nat, r: nat) => SendsOf(ranks, r), (c: nat, r: nat) => RecvsOf(ranks, r))
  }

  /** What a rank would send to a peer is what the peer would receive from it. */
  ghost predicate Aligned<T>(ranks: Ranks<T>) {
    && (forall i, j :: 0 <= i < |ranks| && 0 <= j < |ranks| ==>
          HeldFor(ranks[i].sends, j) == HeldFor(ranks[j].recvs, i))
    && (forall i, peer: nat :: 0 <= i < |ranks| && peer in ranks[i].sends ==> peer < |ranks|)
    && (forall i, peer: nat :: 0 <= i < |ranks| && peer in ranks[i].recvs ==> peer < |ranks|)
  }

  lemma ChunkHeld<T>(ops: map<nat, seq<T>>, c: nat, step: nat, peer: nat)
    ensures HeldFor(ChunkDict(ops, c, step), peer) == Chunk(HeldFor(ops, peer), c, step)
  {
  }

  lemma CutAgrees<T>(ranks: Ranks<T>, n: nat, step: nat, c: nat, i: nat, j: nat)
    requires Aligned(ranks) && i < |ranks| && j < |ranks|
    ensures HeldFor(CutWorld(ranks, n, step).sends(c, i), j) == HeldFor(CutWorld(ranks, n, step).recvs(c, j), i)
  {
    ChunkHeld(ranks[i].sends, c, step, j);
    ChunkHeld(ranks[j].recvs, c, step, i);
  }

  lemma CutPeers<T>(ranks: Ranks<T>, n: nat, step: nat, c: nat, i: nat, peer: nat)
    requires Aligned(ranks) && i < |ranks|
    ensures peer in CutWorld(ranks, n, step).sends(c, i) ==> peer < |ranks|
    ensures peer in CutWorld(ranks, n, step).recvs(c, i) ==> peer < |ranks|
  {
  }

  /** Chunk c on the sender is chunk c on the receiver, so the chunked worlds fit together too. */
  lemma CutConsistent<T>(ranks: Ranks<T>, n: nat, step: nat)
    requires Aligned(ranks)
    ensures Consistent(CutWorld(ranks, n, step))
  {
    var world := CutWorld(ranks, n, step);
    forall c, i, j | 0 <= c < world.chunks && 0 <= i < world.size && 0 <= j < world.size
      ensures HeldFor(world.sends(c, i), j) == HeldFor(world.recvs(c, j), i)
    {
      CutAgrees(ranks, n, step, c, i, j);
    }
    forall c, i, peer: nat | 0 <= c < world.chunks && 0 <= i < world.size && peer in world.sends(c, i)
      ensures peer < world.size
    {
      CutPeers(ranks, n, step, c, i, peer);
    }
    forall c, i, peer: nat | 0 <= c < world.chunks && 0 <= i < world.size && peer in world.recvs(c, i)
      ensures peer < world.size
    {
      CutPeers(ranks, n, step, c, i, peer);
    }
  }

  lemma OneShotConsistent<T>(ranks: Ranks<T>)
    requires Aligned(ranks)
    ensures Consistent(OneShotWorld(ranks))
  {
  }

  lemma CutHeld<T>(ranks: Ranks<T>, n: nat, step: nat, i: nat, j: nat)
    requires i < |ranks| && n * step >= |HeldFor(ranks[i].sends, j)|
    ensures Flatten(ChunksHeld(CutWorld(ranks, n, step), i, j)) == HeldFor(ranks[i].sends, j)
  {
    var world, held := CutWorld(ranks, n, step), HeldFor(ranks[i].sends, j);
    forall c | 0 <= c < n ensures ChunksHeld(world, i, j)[c] == Chunk(held, c, step) {
      ChunkHeld(ranks[i].sends, c, step, j);
    }
    assert ChunksHeld(world, i, j) == Chunks(held, n, step);
    ChunksJoin(held, n, step);
  }

  /** The agreed numbers leave nothing of any list out. */
  lemma ChunksHeldAre<T>(ranks: Ranks<T>, i: nat, j: nat)
    requires i < |ranks|
    ensures Flatten(ChunksHeld(ChunkedWorld(ranks), i, j)) == HeldFor(ranks[i].sends, j)
    ensures Flatten(ChunksHeld(OneShotWorld(ranks), i, j)) == HeldFor(ranks[i].sends, j)
  {
    var step, held := AgreedStep(ranks), HeldFor(ranks[i].sends, j);
    MaxOfBounds(ChunkCounts(ranks), i);
    OwnChunksEnough(ranks[i].sends, ranks[i].recvs, step, AgreedChunks(ranks), j);
    CutHeld(ranks, AgreedChunks(ranks), step, i, j);
    assert ChunksHeld(OneShotWorld(ranks), i, j) == [held];
    assert [held][..0] == [];
  }

  /** Whatever steps the ranks propose, both transfers deliver the full list between every two ranks. */
  lemma ChunkedRefinesOneShot<T>(ranks: Ranks<T>, run: seq<Event>, whole: seq<Event>, i: nat, j: nat)
    requires Aligned(ranks) && PowerOfTwo(|ranks|) && i < |ranks| && j < |ranks| && i != j
    requires FinishedRun(NetOf(ChunkedWorld(ranks)), run) && FinishedRun(NetOf(OneShotWorld(ranks)), whole)
    ensures Delivered(ChunkedWorld(ranks), run, i, j) == HeldFor(ranks[i].sends, j) == HeldFor(ranks[j].recvs, i)
    ensures Delivered(OneShotWorld(ranks), whole, i, j) == HeldFor(ranks[i].sends, j)
  {
    CutConsistent(ranks, AgreedChunks(ranks), AgreedStep(ranks));
    OneShotConsistent(ranks);
    ChunksHeldAre(ranks, i, j);
    DeliveredInOrder(ChunkedWorld(ranks), run, i, j);
    DeliveredInOrder(OneShotWorld(ranks), whole, i, j);
  }
}
