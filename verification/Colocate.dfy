/**
 The colocated update from end to end (awex/transfer/nccl_stream_batch.py and
 awex/transfer/nccl_comm.py): every device holds one training and one inference rank,
 copies what it owes itself, and exchanges the rest chunk by chunk. Any finished run leaves
 every inference element with the training value of its global index.
 */
module Colocate {
  import opened Wrappers
  import opened Seqs
  import opened ShardMeta
  import opened TransferPlan
  import opened Reshard
  import opened AnyOrder
  import opened LocalPlan
  import opened Rendezvous
  import opened Butterfly
  import opened Chunked
  import Slices

  datatype DeviceError = UnmappedSender(rank: nat) | CopyMismatch | InconsistentMapping

  // ----- the two rank mappings

  predicate Undone(forth: map<nat, nat>, back: map<nat, nat>, k: nat) {
    k in forth && forth[k] in back && back[forth[k]] == k
  }

  predicate Inverse(trainToInfer: map<nat, nat>, inferToTrain: map<nat, nat>) {
    && (forall t :: t in trainToInfer ==> Undone(trainToInfer, inferToTrain, t))
    && (forall i :: i in inferToTrain ==> Undone(inferToTrain, trainToInfer, i))
  }

  method ValidateOneWay(forth: map<nat, nat>, back: map<nat, nat>) returns (ok: bool)
    ensures ok <==> forall k :: k in forth ==> Undone(forth, back, k)
  {
    var rest := forth.Keys;
    while rest != {}
      invariant rest <= forth.Keys
      invariant forall k :: k in forth && k !in rest ==> Undone(forth, back, k)
      decreases rest
    {
      var k :| k in rest;
      if forth[k] !in back || back[forth[k]] != k {
        assert !Undone(forth, back, k);
        return false;
      }
      rest := rest - {k};
    }
    ok := true;
  }

  method ValidateRankMappings(trainToInfer: map<nat, nat>, inferToTrain: map<nat, nat>)
    returns (r: Result<bool, DeviceError>)
    ensures r == if Inverse(trainToInfer, inferToTrain) then Ok(true) else Err(InconsistentMapping)
  {
    var forth := ValidateOneWay(trainToInfer, inferToTrain);
    if !forth {
      return Err(InconsistentMapping);
    }
    var back := ValidateOneWay(inferToTrain, trainToInfer);
    if !back {
      return Err(InconsistentMapping);
    }
    r := Ok(true);
  }

  // ----- one device before the exchange

  /** What a device keeps for itself, sends and receives. */
  datatype Prepared = Prepared(copies: seq<CommOp>, sends: map<nat, seq<CommOp>>, recvs: map<nat, seq<CommOp>>)

  /** A tensor sliced as one operation says, copied into the slice another says. */
  function Joined(send: CommOp, recv: CommOp): CommOp {
    recv.(sendRank := send.sendRank, sendShard := send.sendShard, sendOffset := send.sendOffset,
          trainSlices := send.trainSlices)
  }

  /** It writes where the one operation says and reads, element for element, where the other says. */
  lemma JoinedMoves(send: CommOp, recv: CommOp, loc: Loc)
    ensures Covers(Joined(send, recv), loc) <==> Covers(recv, loc)
    ensures |send.trainSlices| == |recv.infSlices| == |loc.idx| ==>
              var op := Joined(send, recv);
              && |op.trainSlices| == |op.infSlices| == |loc.idx|
              && SourceOf(op, loc).rank == send.sendRank && SourceOf(op, loc).name == send.sendShard.raw.name
              && forall d :: 0 <= d < |loc.idx| ==>
                   SourceOf(op, loc).idx[d] - send.trainSlices[d].start == loc.idx[d] - recv.infSlices[d].start
  {
  }

  function JoinAll(sends: seq<CommOp>, recvs: seq<CommOp>): seq<CommOp>
    requires |sends| == |recvs|
  {
    seq(|sends|, k requires 0 <= k < |sends| => Joined(sends[k], recvs[k]))
  }

  lemma JoinSame(ops: seq<CommOp>)
    ensures JoinAll(ops, ops) == ops
  {
  }

  function MappedPeer(trainToInfer: map<nat, nat>, peer: nat): nat {
    if peer in trainToInfer then trainToInfer[peer] else peer
  }

  function OthersSends(rank: nat, sendPlan: map<nat, seq<CommOp>>): map<nat, seq<CommOp>> {
    map peer | peer in sendPlan && peer != rank :: sendPlan[peer]
  }

  /** The receive plan under the device that holds each training rank. */
  function OthersRecvs(rank: nat, inferToTrain: map<nat, nat>, recvPlan: map<nat, seq<CommOp>>): map<nat, seq<CommOp>> {
    map i | i in inferToTrain && inferToTrain[i] in recvPlan && i != rank :: recvPlan[inferToTrain[i]]
  }

  predicate SendersMapped(trainToInfer: map<nat, nat>, recvPlan: map<nat, seq<CommOp>>) {
    forall t :: t in recvPlan ==> t in trainToInfer
  }

  /** The positional copy of the device's own slices; both lists must be of one length. */
  method ExecuteTensorsToCopy(tensors: seq<CommOp>, copyOps: seq<CommOp>) returns (r: Result<seq<CommOp>, DeviceError>)
    ensures r == if |tensors| == |copyOps| then Ok(JoinAll(tensors, copyOps)) else Err(CopyMismatch)
  {
    if |copyOps| != |tensors| {
      return Err(CopyMismatch);
    }
    var done: seq<CommOp> := [];
    for k := 0 to |tensors|
      invariant done == JoinAll(tensors, copyOps)[..k]
    {
      done := done + [Joined(tensors[k], copyOps[k])];
    }
    assert done == JoinAll(tensors, copyOps);
    r := Ok(done);
  }

  method MapReceives(rank: nat, trainToInfer: map<nat, nat>, ghost inferToTrain: map<nat, nat>,
                     recvPlan: map<nat, seq<CommOp>>)
    returns (r: Result<map<nat, seq<CommOp>>, DeviceError>)
    requires Inverse(trainToInfer, inferToTrain)
    ensures r.Ok? <==> SendersMapped(trainToInfer, recvPlan)
    ensures r.Ok? ==> r.value == OthersRecvs(rank, inferToTrain, recvPlan)
    ensures r.Err? ==> r.error.UnmappedSender? && r.error.rank in recvPlan && r.error.rank !in trainToInfer
  {
    var recvs: map<nat, seq<CommOp>>, rest := map[], recvPlan.Keys;
    while rest != {}
      invariant rest <= recvPlan.Keys
      invariant forall t :: t in recvPlan && t !in rest ==> t in trainToInfer
      invariant forall i :: i in recvs <==>
                  i in inferToTrain && inferToTrain[i] in recvPlan && inferToTrain[i] !in rest && i != rank
      invariant forall i :: i in recvs ==> recvs[i] == recvPlan[inferToTrain[i]]
      decreases rest
    {
      var t :| t in rest;
      if t !in trainToInfer {
        return Err(UnmappedSender(t));
      }
      assert Undone(trainToInfer, inferToTrain, t);
      assert forall i :: i in inferToTrain && inferToTrain[i] == t ==> Undone(inferToTrain, trainToInfer, i);
      rest := rest - {t};
      if trainToInfer[t] != rank {
        recvs := recvs[trainToInfer[t] := recvPlan[t]];
      }
    }
    r := Ok(recvs);
  }

  /** The peers of a send plan are inference ranks, so the mapping leaves them as they are. */
  method PrepareDevice(rank: nat, trainToInfer: map<nat, nat>, inferToTrain: map<nat, nat>,
                       sendPlan: map<nat, seq<CommOp>>, recvPlan: map<nat, seq<CommOp>>)
    returns (r: Result<Prepared, DeviceError>)
    requires Inverse(trainToInfer, inferToTrain) && rank in inferToTrain
    requires forall peer :: peer in sendPlan ==> peer !in trainToInfer
    ensures r.Ok? <==> SendersMapped(trainToInfer, recvPlan)
                       && (PeerOps(sendPlan, rank) == []
                           || |PeerOps(sendPlan, rank)| == |PeerOps(recvPlan, inferToTrain[rank])|)
    ensures r.Ok? ==> r.value.sends == OthersSends(rank, sendPlan)
                      && r.value.recvs == OthersRecvs(rank, inferToTrain, recvPlan)
                      && r.value.copies == if PeerOps(sendPlan, rank) == [] then []
                                           else JoinAll(PeerOps(sendPlan, rank), PeerOps(recvPlan, inferToTrain[rank]))
  {
    var toCopy: seq<CommOp>, sends: map<nat, seq<CommOp>>, rest := [], map[], sendPlan.Keys;
    while rest != {}
      invariant rest <= sendPlan.Keys
      invariant toCopy == if rank in rest then [] else PeerOps(sendPlan, rank)
      invariant forall p :: p in sends <==> p in sendPlan && p !in rest && p != rank
      invariant forall p :: p in sends ==> sends[p] == sendPlan[p]
      decreases rest
    {
      var peer :| peer in rest;
      var mapped := MappedPeer(trainToInfer, peer);
      rest := rest - {peer};
      if mapped == rank {
        toCopy := toCopy + sendPlan[peer];
      } else {
        sends := sends[mapped := sendPlan[peer]];
      }
    }
    assert sends == OthersSends(rank, sendPlan);
    var recvs := MapReceives(rank, trainToInfer, inferToTrain, recvPlan);
    if recvs.Err? {
      return Err(recvs.error);
    }
    var copies: seq<CommOp> := [];
    if |toCopy| > 0 {
      var copied := ExecuteTensorsToCopy(toCopy, PeerOps(recvPlan, inferToTrain[rank]));
      if copied.Err? {
        return Err(copied.error);
      }
      copies := copied.value;
    }
    r := Ok(Prepared(copies, sends, recvs.value));
  }

  // ----- all devices

  /** The metadata of both sides, the rank mappings and the step sizes the devices propose. */
  datatype Setting = Setting(b: Builder, inferMetas: seq<ParamMeta>, trainMetas: seq<ParamMeta>,
                             trainToInfer: map<nat, nat>, inferToTrain: map<nat, nat>, steps: seq<nat>)

  ghost predicate HasPlan(g: Setting) {
    && AllCompatible(ByName(g.inferMetas), ByName(g.trainMetas))
    && MappingPlan(g.b, g.inferMetas, g.trainMetas, None).Ok?
  }

  ghost function AllOps(g: Setting): seq<CommOp>
    requires HasPlan(g)
  {
    MappingPlan(g.b, g.inferMetas, g.trainMetas, None).value
  }

  /** One device per inference rank, the mappings inverse to each other, every sender mapped. */
  ghost predicate Colocated(g: Setting) {
    && HasPlan(g) && |g.steps| == g.b.inferWorld > 0
    && Inverse(g.trainToInfer, g.inferToTrain)
    && (forall i :: i in g.inferToTrain <==> i < g.b.inferWorld)
    && (forall t :: t in g.trainToInfer ==> t >= g.b.inferWorld)
    && (forall op :: op in AllOps(g) ==> op.sendRank in g.trainToInfer)
  }

  ghost function PlanOf(g: Setting, rank: nat): map<nat, seq<CommOp>>
    requires HasPlan(g)
  {
    LocalPlanIsGroupedPart(g.b, g.inferMetas, g.trainMetas, rank);
    LocalPlanOf(g.b, g.inferMetas, g.trainMetas, rank).value
  }

  /** What PrepareDevice makes of device i's two plans. */
  ghost function SendsOfDevice(g: Setting, i: nat): map<nat, seq<CommOp>>
    requires HasPlan(g) && i in g.inferToTrain
  {
    OthersSends(i, PlanOf(g, g.inferToTrain[i]))
  }

  ghost function RecvsOfDevice(g: Setting, i: nat): map<nat, seq<CommOp>>
    requires HasPlan(g)
  {
    OthersRecvs(i, g.inferToTrain, PlanOf(g, i))
  }

  ghost function Devices(g: Setting): Ranks<CommOp>
    requires Colocated(g)
  {
    seq(g.b.inferWorld, i requires 0 <= i < g.b.inferWorld =>
      RankOps(SendsOfDevice(g, i), RecvsOfDevice(g, i), g.steps[i]))
  }

  /** Both ends of a pair of devices hold the same list, in the same order. */
  lemma DevicePair(g: Setting, i: nat, j: nat)
    requires Colocated(g) && i < g.b.inferWorld && j < g.b.inferWorld
    ensures PeerOps(PlanOf(g, g.inferToTrain[i]), j) == PeerOps(PlanOf(g, j), g.inferToTrain[i])
    ensures i != j ==> HeldFor(SendsOfDevice(g, i), j) == PeerOps(PlanOf(g, g.inferToTrain[i]), j)
    ensures HeldFor(SendsOfDevice(g, i), j) == HeldFor(RecvsOfDevice(g, j), i)
  {
    assert Undone(g.inferToTrain, g.trainToInfer, i);
    PeersAgree(g.b, g.inferMetas, g.trainMetas, g.inferToTrain[i], j);
  }

  /** A list under a peer holds exactly the operations between the two ranks. */
  lemma PlanHolds(g: Setting, rank: nat, peer: nat, op: CommOp)
    requires HasPlan(g)
    ensures op in PeerOps(PlanOf(g, rank), peer)
       <==> op in AllOps(g) && OwnRank(op, rank >= g.b.inferWorld) == rank
            && PeerRank(op, rank >= g.b.inferWorld) == peer
  {
    LocalPlanOps(g.b, g.inferMetas, g.trainMetas, rank, peer, op);
  }

  /** No list of a plan is empty. */
  lemma PlanNotEmpty(g: Setting, rank: nat, peer: nat) returns (op: CommOp)
    requires HasPlan(g) && peer in PlanOf(g, rank)
    ensures op in PeerOps(PlanOf(g, rank), peer)
  {
    LocalPlanIsGroupedPart(g.b, g.inferMetas, g.trainMetas, rank);
    op := LocalPlanNotEmpty(g.b, g.inferMetas, g.trainMetas, rank, peer);
  }

  // ----- the peers of a device

  lemma PlanRanks(g: Setting, op: CommOp)
    requires HasPlan(g) && op in AllOps(g)
    ensures op.recvRank < g.b.inferWorld <= op.sendRank
  {
    MappingRanks(g.b, g.inferMetas, g.trainMetas, op);
  }

  lemma DevicePeers(g: Setting, i: nat, peer: nat)
    requires Colocated(g) && i < g.b.inferWorld
    ensures peer in SendsOfDevice(g, i) ==> peer < g.b.inferWorld
    ensures peer in RecvsOfDevice(g, i) ==> peer < g.b.inferWorld
  {
    if peer in SendsOfDevice(g, i) {
      DevicePeerIsInference(g, i, peer);
    }
  }

  /** What the devices hold for one another fits together. */
  lemma DevicesAligned(g: Setting)
    requires Colocated(g)
    ensures Aligned(Devices(g))
  {
    var ranks := Devices(g);
    forall i, j | 0 <= i < |ranks| && 0 <= j < |ranks|
      ensures HeldFor(ranks[i].sends, j) == HeldFor(ranks[j].recvs, i)
    {
      DevicePair(g, i, j);
    }
    forall i, peer: nat | 0 <= i < |ranks| && peer in ranks[i].sends ensures peer < |ranks| {
      DevicePeers(g, i, peer);
    }
    forall i, peer: nat | 0 <= i < |ranks| && peer in ranks[i].recvs ensures peer < |ranks| {
      DevicePeers(g, i, peer);
    }
  }

  /** Preparing a device succeeds: its peers are inference ranks, its senders mapped, its own lists of one length. */
  lemma DeviceReady(g: Setting, i: nat)
    requires Colocated(g) && i < g.b.inferWorld
    ensures var t := g.inferToTrain[i];
            && (forall peer :: peer in PlanOf(g, t) ==> peer !in g.trainToInfer)
            && SendersMapped(g.trainToInfer, PlanOf(g, i))
            && |PeerOps(PlanOf(g, t), i)| == |PeerOps(PlanOf(g, i), t)|
  {
    var t := g.inferToTrain[i];
    DevicePair(g, i, i);
    forall peer | peer in PlanOf(g, t) ensures peer !in g.trainToInfer {
      DevicePeerIsInference(g, i, peer);
    }
    forall peer | peer in PlanOf(g, i) ensures peer in g.trainToInfer {
      var op := PlanNotEmpty(g, i, peer);
      PlanHolds(g, i, peer, op);
    }
  }

  lemma DevicePeerIsInference(g: Setting, i: nat, peer: nat)
    requires Colocated(g) && i < g.b.inferWorld && peer in PlanOf(g, g.inferToTrain[i])
    ensures peer < g.b.inferWorld
  {
    var t := g.inferToTrain[i];
    assert Undone(g.inferToTrain, g.trainToInfer, i);
    var op := PlanNotEmpty(g, t, peer);
    PlanHolds(g, t, peer, op);
    PlanRanks(g, op);
  }

  // ----- what the devices apply

  /** A device's copies to itself, as PrepareDevice makes them. */
  ghost function CopiesOf(g: Setting, i: nat): seq<CommOp>
    requires Colocated(g) && i < g.b.inferWorld
  {
    DevicePair(g, i, i);
    JoinAll(PeerOps(PlanOf(g, g.inferToTrain[i]), i), PeerOps(PlanOf(g, i), g.inferToTrain[i]))
  }

  /** An exchange writes, position by position, what the sender sliced into what the receiver sliced. */
  ghost function Effect(world: World<CommOp>, e: Event): seq<CommOp> {
    var sends, recvs := HeldFor(world.sends(e.chunk, e.src), e.dst), HeldFor(world.recvs(e.chunk, e.dst), e.src);
    if |sends| == |recvs| then JoinAll(sends, recvs) else []
  }

  lemma EffectIsPayload(world: World<CommOp>, e: Event)
    requires Consistent(world) && e.chunk < world.chunks && e.src < world.size && e.dst < world.size
    ensures Effect(world, e) == Payload(world, e)
  {
    JoinSame(Payload(world, e));
  }

  ghost function AllCopies(g: Setting): seq<seq<CommOp>>
    requires Colocated(g)
  {
    seq(g.b.inferWorld, i requires 0 <= i < g.b.inferWorld => CopiesOf(g, i))
  }

  ghost function Effects(world: World<CommOp>, run: seq<Event>): seq<seq<CommOp>> {
    seq(|run|, k requires 0 <= k < |run| => Effect(world, run[k]))
  }

  /** All copies, then all exchanges of a run. */
  ghost function Applied(g: Setting, run: seq<Event>): seq<CommOp>
    requires Colocated(g)
  {
    Flatten(AllCopies(g)) + Flatten(Effects(ChunkedWorld(Devices(g)), run))
  }

  lemma CopiesPlanned(g: Setting, op: CommOp)
    requires Colocated(g)
    ensures op in Flatten(AllCopies(g)) <==> op in AllOps(g) && g.trainToInfer[op.sendRank] == op.recvRank
  {
    FlattenIn(AllCopies(g), op);
    forall i: nat | i < g.b.inferWorld
      ensures op in AllCopies(g)[i] <==> op in AllOps(g) && op.sendRank == g.inferToTrain[i] && op.recvRank == i
    {
      CopiesAre(g, i, op);
    }
    if op in AllOps(g) && g.trainToInfer[op.sendRank] == op.recvRank {
      PlanRanks(g, op);
      assert Undone(g.trainToInfer, g.inferToTrain, op.sendRank);
      assert op in AllCopies(g)[op.recvRank];
    }
    if op in Flatten(AllCopies(g)) {
      var i: nat :| i < g.b.inferWorld && op in AllCopies(g)[i];
      assert Undone(g.inferToTrain, g.trainToInfer, i);
    }
  }

  lemma CopiesAre(g: Setting, i: nat, op: CommOp)
    requires Colocated(g) && i < g.b.inferWorld
    ensures op in CopiesOf(g, i) <==> op in AllOps(g) && op.sendRank == g.inferToTrain[i] && op.recvRank == i
  {
    var t := g.inferToTrain[i];
    assert Undone(g.inferToTrain, g.trainToInfer, i);
    DevicePair(g, i, i);
    JoinSame(PeerOps(PlanOf(g, t), i));
    PlanHolds(g, t, i, op);
  }

  /** Everything an exchange of a run writes is planned. */
  lemma EffectPlanned(g: Setting, run: seq<Event>, e: Event, op: CommOp)
    requires Colocated(g) && IsRun(NetOf(ChunkedWorld(Devices(g))), run) && e in run
    requires op in Effect(ChunkedWorld(Devices(g)), e)
    ensures op in AllOps(g)
  {
    DevicesAligned(g);
    EffectHeld(Devices(g), run, e, op);
    DevicePair(g, e.src, e.dst);
    assert Undone(g.inferToTrain, g.trainToInfer, e.src);
    PlanHolds(g, g.inferToTrain[e.src], e.dst, op);
  }

  lemma EventRanks<T>(world: World<T>, run: seq<Event>, e: Event)
    requires Consistent(world) && IsRun(NetOf(world), run) && e in run
    ensures e.chunk < world.chunks && e.src < world.size && e.dst < world.size && e.src != e.dst
  {
    RunPlanned(world, run, e);
    RoundsSplit(world.size, e.round);
  }

  /** What an exchange of a run writes is in the sender's list for the receiver. */
  lemma EffectHeld(ranks: Ranks<CommOp>, run: seq<Event>, e: Event, op: CommOp)
    requires Aligned(ranks) && IsRun(NetOf(ChunkedWorld(ranks)), run) && e in run
    requires op in Effect(ChunkedWorld(ranks), e)
    ensures e.src < |ranks| && e.dst < |ranks| && e.src != e.dst && op in HeldFor(ranks[e.src].sends, e.dst)
  {
    var world, step := ChunkedWorld(ranks), AgreedStep(ranks);
    CutConsistent(ranks, AgreedChunks(ranks), step);
    EventRanks(world, run, e);
    EffectIsPayload(world, e);
    ChunkHeld(ranks[e.src].sends, e.chunk, step, e.dst);
    assert op in Slices.Chunk(HeldFor(ranks[e.src].sends, e.dst), e.chunk, step);
  }

  /** Every planned operation between two devices is written by some exchange of a finished run. */
  lemma PlannedHasEffect(g: Setting, run: seq<Event>, op: CommOp) returns (e: Event)
    requires Colocated(g) && PowerOfTwo(g.b.inferWorld) && FinishedRun(NetOf(ChunkedWorld(Devices(g))), run)
    requires op in AllOps(g) && g.trainToInfer[op.sendRank] != op.recvRank
    ensures e in run && op in Effect(ChunkedWorld(Devices(g)), e)
  {
    var ranks := Devices(g);
    var world, i, j := ChunkedWorld(ranks), g.trainToInfer[op.sendRank], op.recvRank;
    assert Undone(g.trainToInfer, g.inferToTrain, op.sendRank);
    PlanRanks(g, op);
    PlanHolds(g, op.sendRank, j, op);
    DevicePair(g, i, j);
    DevicesAligned(g);
    CutConsistent(ranks, AgreedChunks(ranks), AgreedStep(ranks));
    DeliveredInOrder(world, run, i, j);
    ChunksHeldAre(ranks, i, j);
    e := DeliveredBy(world, run, i, j, op);
    RunPlanned(world, run, e);
    EffectIsPayload(world, e);
  }

  lemma DeliveredBy(world: World<CommOp>, run: seq<Event>, i: nat, j: nat, op: CommOp) returns (e: Event)
    requires op in Delivered(world, run, i, j)
    ensures e in run && op in Payload(world, e)
  {
    var events := Filter(run, FromTo(i, j));
    FlattenIn(Payloads(world, events), op);
    var k :| 0 <= k < |events| && op in Payloads(world, events)[k];
    e := events[k];
    FilterIn(run, FromTo(i, j), e);
  }

  lemma EffectsPlanned(g: Setting, run: seq<Event>, op: CommOp)
    requires Colocated(g) && IsRun(NetOf(ChunkedWorld(Devices(g))), run)
    requires op in Flatten(Effects(ChunkedWorld(Devices(g)), run))
    ensures op in AllOps(g)
  {
    var effects := Effects(ChunkedWorld(Devices(g)), run);
    FlattenIn(effects, op);
    var k :| 0 <= k < |effects| && op in effects[k];
    EffectPlanned(g, run, run[k], op);
  }

  lemma InEffects(world: World<CommOp>, run: seq<Event>, e: Event, op: CommOp)
    requires e in run && op in Effect(world, e)
    ensures op in Flatten(Effects(world, run))
  {
    var k :| 0 <= k < |run| && run[k] == e;
    assert op in Effects(world, run)[k];
    FlattenIn(Effects(world, run), op);
  }

  /** Copies and exchanges together apply the operations of the plan and no others. */
  lemma AppliedIsPlan(g: Setting, run: seq<Event>, op: CommOp)
    requires Colocated(g) && PowerOfTwo(g.b.inferWorld) && FinishedRun(NetOf(ChunkedWorld(Devices(g))), run)
    ensures op in Applied(g, run) <==> op in AllOps(g)
  {
    var world := ChunkedWorld(Devices(g));
    CopiesPlanned(g, op);
    if op in Flatten(Effects(world, run)) {
      EffectsPlanned(g, run, op);
    } else if op in AllOps(g) && g.trainToInfer[op.sendRank] != op.recvRank {
      var e := PlannedHasEffect(g, run, op);
      InEffects(world, run, e, op);
    }
  }

  lemma OrderIsPlan(g: Setting, run: seq<Event>, order: seq<CommOp>)
    requires Colocated(g) && PowerOfTwo(g.b.inferWorld) && FinishedRun(NetOf(ChunkedWorld(Devices(g))), run)
    requires multiset(order) == multiset(Applied(g, run))
    ensures forall op :: op in order <==> op in AllOps(g)
  {
    forall op ensures op in order <==> op in AllOps(g) {
      AppliedIsPlan(g, run, op);
      assert op in order <==> op in multiset(order);
      assert op in Applied(g, run) <==> op in multiset(Applied(g, run));
    }
  }

  /**
   Metadata that matches, a power of two of devices, any step sizes, any finished run, and
   its writes in any order: every inference element has the training value of its global index.
   */
  lemma ColocatedUpdate<V(!new)>(g: Setting, shapes: map<nat, seq<nat>>, run: seq<Event>, order: seq<CommOp>,
                                 train: Loc -> V, value: (nat, seq<nat>) -> V, mem: Loc -> V,
                                 name: nat, engine: nat, a: nat, k: nat, idx: seq<nat>)
    requires Colocated(g) && PowerOfTwo(g.b.inferWorld) && FinishedRun(NetOf(ChunkedWorld(Devices(g))), run)
    requires multiset(order) == multiset(Applied(g, run))
    requires g.inferMetas != [] && g.trainMetas != [] &&
             MatchedWorld(g.b, ByName(g.inferMetas), ByName(g.trainMetas), shapes)
    requires KeysMatch(g.b, ByName(g.inferMetas).Keys, ByName(g.trainMetas).Keys)
    requires name in ByName(g.inferMetas) && name in ByName(g.trainMetas) && engine < g.b.numEngines
    requires var im := ByName(g.inferMetas)[name];
             a < |im.replicas| && k < |im.replicas[a]| && InShape(idx, im.replicas[a][k].raw.shape)
    requires TrainHolds(g.b, ByName(g.trainMetas)[name], train, x => value(name, x))
    ensures var s := ByName(g.inferMetas)[name].replicas[a][k];
            Run(order, train, mem)(InferLoc(g.b, s, engine, idx)) == value(name, GlobalOf(s, idx))
  {
    OrderIsPlan(g, run, order);
    ReshardAnyOrder(g.b, g.inferMetas, g.trainMetas, shapes, train, value, mem, order, name, engine, a, k, idx);
  }
}
