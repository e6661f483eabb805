/**
 The circle-shift transport (NcclColocateTransport in awex/transfer/nccl_comm.py): at
 stage s every rank sends to the rank s places on and receives from the rank s places
 back, in two phases separated by barriers, with blocking sends and receives.
 */
module CircleShift {
  import opened Wrappers
  import opened Seqs
  import opened Rendezvous
  import opened Butterfly
  import opened TwoPhase
  import opened Arithmetic

  // ----- which rank a stage pairs with which

  function SendTo(rank: nat, stage: nat, w: nat): nat
    requires rank < w && stage < w
  {
    if rank + stage >= w then rank + stage - w else rank + stage
  }

  function RecvFrom(rank: nat, stage: nat, w: nat): nat
    requires rank < w && stage < w
  {
    if rank - stage < 0 then rank - stage + w else rank - stage
  }

  /** The stage at which i sends to j. */
  function StageOf(i: nat, j: nat, w: nat): (s: nat)
    requires i < w && j < w
    ensures s < w
  {
    if j >= i then j - i else j - i + w
  }

  /** Every ordered pair meets at exactly one stage, the same for its sender and its receiver. */
  lemma PairsAtOneStage(i: nat, j: nat, s: nat, w: nat)
    requires i < w && j < w && s < w
    ensures SendTo(i, s, w) == j <==> s == StageOf(i, j, w)
    ensures RecvFrom(j, s, w) == i <==> s == StageOf(i, j, w)
    ensures StageOf(i, j, w) == (j - i) % w && SendTo(i, s, w) == (i + s) % w
  {
    Arithmetic.DivModUnique(j - i, if j >= i then 0 else -1, StageOf(i, j, w), w);
    Arithmetic.DivModUnique(i + s, if i + s >= w then 1 else 0, SendTo(i, s, w), w);
  }

  // ----- when all stages alternate

  lemma {:induction false} OddDivisor(n: nat, g: nat, k: nat)
    requires n * g == Pow2(k) && n % 2 == 1
    ensures n == 1
  {
    if k == 0 {
      DividesOne(g, n);
    } else {
      var h := EvenFactor(n, g, Pow2(k - 1));
      OddDivisor(n, h, k - 1);
    }
  }

  lemma EvenFactor(n: nat, g: nat, m: nat) returns (h: nat)
    requires n * g == 2 * m && n % 2 == 1
    ensures n * h == m
  {
    var a := n / 2;
    assert n == 2 * a + 1;
    h := g / 2;
    assert n * g == 2 * (a * g) + g;
    assert g == 2 * h;
    assert n * g == 2 * (n * h);
  }

  lemma {:induction false} OddPart(w: pos) returns (m: nat, a: nat)
    ensures w == m * Pow2(a) && m % 2 == 1
  {
    if w % 2 == 1 {
      m, a := w, 0;
    } else {
      m, a := OddPart(w / 2);
      assert w == 2 * (m * Pow2(a));
      a := a + 1;
    }
  }

  lemma {:induction false} Log2OfPow2(a: nat)
    ensures Log2(Pow2(a)) == a
  {
    if a > 0 {
      Log2OfPow2(a - 1);
    }
  }

  lemma CycleDivides(stage: nat, w: nat)
    requires 0 < stage < w
    ensures CycleLength(stage, w) > 1 && CycleLength(stage, w) * Gcd(w, stage) == w
  {
    Reduced(w, stage);
    GcdAtMost(stage / Gcd(w, stage), Gcd(w, stage));
  }

  lemma GcdAtMost(q: nat, g: nat)
    requires q > 0
    ensures g <= q * g
  {
    Arithmetic.MulOrder(0, q, g);
  }

  lemma OddStage(m: nat, p: nat, w: nat)
    requires w == m * p && m > 1 && m % 2 == 1 && p > 0
    ensures p < w && CycleLength(p, w) % 2 == 1
  {
    Arithmetic.MulOrder(1, m, p);
    Arithmetic.DivModUnique(w, m, 0, p);
    assert Gcd(w, p) == Gcd(p, 0);
  }

  /** The cycles of every stage are even if and only if the world is a power of two. */
  lemma EvenCyclesIffPowerOfTwo(w: pos)
    ensures (forall stage :: 0 < stage < w ==> CycleLength(stage, w) % 2 == 0) <==> PowerOfTwo(w)
  {
    if PowerOfTwo(w) {
      forall stage | 0 < stage < w ensures CycleLength(stage, w) % 2 == 0 {
        CycleDivides(stage, w);
        if CycleLength(stage, w) % 2 == 1 {
          OddDivisor(CycleLength(stage, w), Gcd(w, stage), Log2(w));
          assert false;
        }
      }
    } else {
      var m, a := OddPart(w);
      Log2OfPow2(a);
      assert m != 1;
      OddStage(m, Pow2(a), w);
    }
  }

  // ----- one rank's calls

  datatype Call<T> =
    | Send(stage: nat, peer: nat, index: nat, op: T)
    | Recv(stage: nat, peer: nat, index: nat, op: T)
    | Meet(stage: nat, phase: nat)

  datatype StageError = InconsistentSend(stage: nat) | InconsistentRecv(stage: nat)

  function SendCalls<T>(stage: nat, peer: nat, ops: seq<T>): seq<Call<T>> {
    seq(|ops|, k requires 0 <= k < |ops| => Send(stage, peer, k, ops[k]))
  }

  function RecvCalls<T>(stage: nat, peer: nat, ops: seq<T>): seq<Call<T>> {
    seq(|ops|, k requires 0 <= k < |ops| => Recv(stage, peer, k, ops[k]))
  }

  /** The calls of one stage: partition 0 sends before the first barrier and receives after it. */
  function StageCalls<T>(r: nat, w: nat, s: nat, sends: map<nat, seq<T>>, recvs: map<nat, seq<T>>): seq<Call<T>>
    requires r < w && s < w
  {
    var out := SendCalls(s, SendTo(r, s, w), HeldFor(sends, SendTo(r, s, w)));
    var into := RecvCalls(s, RecvFrom(r, s, w), HeldFor(recvs, RecvFrom(r, s, w)));
    if TwoPhasePartition(r, s, w) == 0 then out + [Meet(s, 0)] + into + [Meet(s, 1)]
    else into + [Meet(s, 0)] + out + [Meet(s, 1)]
  }

  /** The calls of stages 1 to w - 1; stage 0 is the rank itself and needs none. */
  function AllCalls<T>(r: nat, w: nat, sends: map<nat, seq<T>>, recvs: map<nat, seq<T>>): seq<seq<Call<T>>>
    requires r < w
  {
    seq(w - 1, s requires 0 <= s < w - 1 => StageCalls(r, w, s + 1, sends, recvs))
  }

  /** A plan entry for another rank that holds no operation is refused. */
  function StageFault<T>(r: nat, w: nat, s: nat, sends: map<nat, seq<T>>, recvs: map<nat, seq<T>>): Option<StageError>
    requires r < w && s < w
  {
    if SendTo(r, s, w) in sends && SendTo(r, s, w) != r && |sends[SendTo(r, s, w)]| == 0 then Some(InconsistentSend(s))
    else if RecvFrom(r, s, w) in recvs && RecvFrom(r, s, w) != r && |recvs[RecvFrom(r, s, w)]| == 0
    then Some(InconsistentRecv(s))
    else None
  }

  /** The fault of the first stage that has one. */
  function FirstFault<T>(r: nat, w: nat, n: nat, sends: map<nat, seq<T>>, recvs: map<nat, seq<T>>): Option<StageError>
    requires r < w && n <= w
  {
    if n == 0 then None
    else if FirstFault(r, w, n - 1, sends, recvs).Some? then FirstFault(r, w, n - 1, sends, recvs)
    else StageFault(r, w, n - 1, sends, recvs)
  }

  lemma {:induction false} FaultStays<T>(r: nat, w: nat, n: nat, m: nat, sends: map<nat, seq<T>>,
                                         recvs: map<nat, seq<T>>)
    requires r < w && n <= m <= w && FirstFault(r, w, n, sends, recvs).Some?
    ensures FirstFault(r, w, m, sends, recvs) == FirstFault(r, w, n, sends, recvs)
  {
    if n < m {
      FaultStays(r, w, n, m - 1, sends, recvs);
    }
  }

  /** What a stage sends and receives over the network; stage 0 is left to the self copies. */
  function StageGroup<T>(ops: map<nat, seq<T>>, peer: nat, r: nat): seq<T> {
    if peer == r then [] else HeldFor(ops, peer)
  }

  method BuildStage<T>(rank: nat, worldSize: nat, stage: nat, sends: map<nat, seq<T>>, recvs: map<nat, seq<T>>)
    returns (sendOps: seq<T>, recvOps: seq<T>, copies: seq<T>, fault: Option<StageError>)
    requires rank < worldSize && stage < worldSize
    ensures fault == StageFault(rank, worldSize, stage, sends, recvs)
    ensures sendOps == StageGroup(sends, SendTo(rank, stage, worldSize), rank)
    ensures recvOps == StageGroup(recvs, RecvFrom(rank, stage, worldSize), rank)
    ensures copies == if stage == 0 then HeldFor(sends, rank) else []
  {
    var sendToRank := rank + stage;
    if sendToRank >= worldSize {
      sendToRank := sendToRank - worldSize;
    }
    var recvFromRank: int := rank - stage;
    if recvFromRank < 0 {
      recvFromRank := recvFromRank + worldSize;
    }
    sendOps, recvOps, copies := [], [], [];
    if sendToRank in sends {
      if sendToRank == rank {
        copies := sends[sendToRank];
      } else {
        sendOps := sends[sendToRank];
      }
    }
    if recvFromRank in recvs && recvFromRank != rank {
      recvOps := recvs[recvFromRank];
    }
    if sendToRank in sends && sendToRank != rank && |sendOps| == 0 {
      fault := Some(InconsistentSend(stage));
    } else if recvFromRank in recvs && recvFromRank != rank && |recvOps| == 0 {
      fault := Some(InconsistentRecv(stage));
    } else {
      fault := None;
    }
  }

  function SendGroups<T>(r: nat, w: nat, n: nat, sends: map<nat, seq<T>>): seq<seq<T>>
    requires r < w && n <= w
  {
    if n == 0 then [] else SendGroups(r, w, n - 1, sends) + [StageGroup(sends, SendTo(r, n - 1, w), r)]
  }

  function RecvGroups<T>(r: nat, w: nat, n: nat, recvs: map<nat, seq<T>>): seq<seq<T>>
    requires r < w && n <= w
  {
    if n == 0 then [] else RecvGroups(r, w, n - 1, recvs) + [StageGroup(recvs, RecvFrom(r, n - 1, w), r)]
  }

  lemma {:induction false} GroupsAt<T>(r: nat, w: nat, n: nat, s: nat, sends: map<nat, seq<T>>, recvs: map<nat, seq<T>>)
    requires r < w && s < n <= w
    ensures |SendGroups(r, w, n, sends)| == |RecvGroups(r, w, n, recvs)| == n
    ensures SendGroups(r, w, n, sends)[s] == StageGroup(sends, SendTo(r, s, w), r)
    ensures RecvGroups(r, w, n, recvs)[s] == StageGroup(recvs, RecvFrom(r, s, w), r)
  {
    if n > 1 {
      GroupsAt(r, w, n - 1, if s < n - 1 then s else 0, sends, recvs);
    }
  }

  method BuildStages<T>(rank: nat, worldSize: nat, sends: map<nat, seq<T>>, recvs: map<nat, seq<T>>)
    returns (sendGroups: seq<seq<T>>, recvGroups: seq<seq<T>>, copies: seq<T>, fault: Option<StageError>)
    requires rank < worldSize
    ensures fault == FirstFault(rank, worldSize, worldSize, sends, recvs)
    ensures fault.None? ==> copies == HeldFor(sends, rank)
    ensures fault.None? ==> sendGroups == SendGroups(rank, worldSize, worldSize, sends)
    ensures fault.None? ==> recvGroups == RecvGroups(rank, worldSize, worldSize, recvs)
  {
    sendGroups, recvGroups, copies := [], [], [];
    for stage := 0 to worldSize
      invariant FirstFault(rank, worldSize, stage, sends, recvs).None?
      invariant copies == if stage == 0 then [] else HeldFor(sends, rank)
      invariant sendGroups == SendGroups(rank, worldSize, stage, sends)
      invariant recvGroups == RecvGroups(rank, worldSize, stage, recvs)
    {
      var sendOps, recvOps, copied;
      sendOps, recvOps, copied, fault := BuildStage(rank, worldSize, stage, sends, recvs);
      if fault.Some? {
        FaultStays(rank, worldSize, stage + 1, worldSize, sends, recvs);
        return;
      }
      copies := copies + copied;
      sendGroups, recvGroups := sendGroups + [sendOps], recvGroups + [recvOps];
    }
    fault := None;
  }

  method ExecuteStages<T>(rank: nat, worldSize: nat, sendGroups: seq<seq<T>>, recvGroups: seq<seq<T>>,
                          ghost sends: map<nat, seq<T>>, ghost recvs: map<nat, seq<T>>)
    returns (calls: seq<seq<Call<T>>>)
    requires rank < worldSize && |sendGroups| == |recvGroups| == worldSize
    requires forall s :: 0 < s < worldSize ==>
               sendGroups[s] == HeldFor(sends, SendTo(rank, s, worldSize)) &&
                 recvGroups[s] == HeldFor(recvs, RecvFrom(rank, s, worldSize))
    ensures calls == AllCalls(rank, worldSize, sends, recvs)
  {
    calls := [];
    for stage := 1 to worldSize
      invariant calls == AllCalls(rank, worldSize, sends, recvs)[..stage - 1]
    {
      var out := SendCalls(stage, SendTo(rank, stage, worldSize), sendGroups[stage]);
      var into := RecvCalls(stage, RecvFrom(rank, stage, worldSize), recvGroups[stage]);
      var made: seq<Call<T>> := [];
      if TwoPhasePartition(rank, stage, worldSize) == 0 {
        made := out;
      } else {
        made := into;
      }
      made := made + [Meet(stage, 0)];
      if TwoPhasePartition(rank, stage, worldSize) == 0 {
        made := made + into;
      } else {
        made := made + out;
      }
      calls := calls + [made + [Meet(stage, 1)]];
    }
  }

  // ----- what the calls carry

  predicate Joins<T>(call: Call<T>, peer: nat, sending: bool) {
    !call.Meet? && call.Send? == sending && call.peer == peer
  }

  /** The operations a list of calls sends to a peer, or receives from it, in order. */
  function Moved<T>(calls: seq<Call<T>>, peer: nat, sending: bool): seq<T> {
    if calls == [] then [] else
      var last := calls[|calls| - 1];
      Moved(calls[..|calls| - 1], peer, sending) + (if Joins(last, peer, sending) then [last.op] else [])
  }

  lemma {:induction false} MovedConcat<T>(a: seq<Call<T>>, b: seq<Call<T>>, peer: nat, sending: bool)
    ensures Moved(a + b, peer, sending) == Moved(a, peer, sending) + Moved(b, peer, sending)
  {
    if b == [] {
      assert a + b == a;
    } else {
      MovedConcat(a, b[..|b| - 1], peer, sending);
      assert (a + b)[..|a + b| - 1] == a + b[..|b| - 1];
    }
  }

  lemma {:induction false} MovedBySends<T>(s: nat, to: nat, ops: seq<T>, peer: nat, sending: bool)
    ensures Moved(SendCalls(s, to, ops), peer, sending) == if sending && peer == to then ops else []
  {
    if ops != [] {
      var n, calls := |ops| - 1, SendCalls(s, to, ops);
      MovedBySends(s, to, ops[..n], peer, sending);
      assert calls[..n] == SendCalls(s, to, ops[..n]) && calls[n] == Send(s, to, n, ops[n]);
      assert ops == ops[..n] + [ops[n]];
    }
  }

  lemma {:induction false} MovedByRecvs<T>(s: nat, from: nat, ops: seq<T>, peer: nat, sending: bool)
    ensures Moved(RecvCalls(s, from, ops), peer, sending) == if !sending && peer == from then ops else []
  {
    if ops != [] {
      var n, calls := |ops| - 1, RecvCalls(s, from, ops);
      MovedByRecvs(s, from, ops[..n], peer, sending);
      assert calls[..n] == RecvCalls(s, from, ops[..n]) && calls[n] == Recv(s, from, n, ops[n]);
      assert ops == ops[..n] + [ops[n]];
    }
  }

  lemma MovedPastMeet<T>(calls: seq<Call<T>>, s: nat, phase: nat, peer: nat, sending: bool)
    ensures Moved(calls + [Meet(s, phase)], peer, sending) == Moved(calls, peer, sending)
  {
    assert (calls + [Meet(s, phase)])[..|calls|] == calls;
  }

  lemma MovedByFour<T>(a: seq<Call<T>>, b: seq<Call<T>>, s: nat, peer: nat, sending: bool)
    ensures Moved(a + [Meet(s, 0)] + b + [Meet(s, 1)], peer, sending)
         == Moved(a, peer, sending) + Moved(b, peer, sending)
  {
    var head := a + [Meet(s, 0)];
    MovedPastMeet(a, s, 0, peer, sending);
    MovedConcat(head, b, peer, sending);
    MovedPastMeet(head + b, s, 1, peer, sending);
  }

  lemma MovedInStage<T>(r: nat, w: nat, s: nat, sends: map<nat, seq<T>>, recvs: map<nat, seq<T>>, peer: nat,
                        sending: bool)
    requires r < w && s < w
    ensures Moved(StageCalls(r, w, s, sends, recvs), peer, sending)
         == if sending then (if peer == SendTo(r, s, w) then HeldFor(sends, peer) else [])
            else (if peer == RecvFrom(r, s, w) then HeldFor(recvs, peer) else [])
  {
    var to, from := SendTo(r, s, w), RecvFrom(r, s, w);
    var out, into := SendCalls(s, to, HeldFor(sends, to)), RecvCalls(s, from, HeldFor(recvs, from));
    MovedBySends(s, to, HeldFor(sends, to), peer, sending);
    MovedByRecvs(s, from, HeldFor(recvs, from), peer, sending);
    if TwoPhasePartition(r, s, w) == 0 {
      MovedByFour(out, into, s, peer, sending);
    } else {
      MovedByFour(into, out, s, peer, sending);
    }
  }

  /** The stage at which two ranks meet, seen from the rank that sends or the one that receives. */
  function MeetingStage(r: nat, p: nat, w: nat, sending: bool): nat
    requires r < w && p < w
  {
    if sending then StageOf(r, p, w) else StageOf(p, r, w)
  }

  /** Part number c of the calls moves something to or from the rank only if it is the stage where the two meet. */
  ghost predicate MovesAt<T>(calls: seq<seq<Call<T>>>, at: nat, list: seq<T>, p: nat, sending: bool) {
    at > 0 && forall c :: 0 <= c < |calls| ==> MovedBy(calls[c], p, sending, if c + 1 == at then list else [])
  }

  ghost predicate MovedBy<T>(calls: seq<Call<T>>, p: nat, sending: bool, list: seq<T>) {
    Moved(calls, p, sending) == list
  }

  /** What a stage moves to or from a rank: its whole list at the stage where the two meet, else nothing. */
  lemma MovedAtStage<T>(r: nat, w: nat, p: nat, s: nat, sends: map<nat, seq<T>>, recvs: map<nat, seq<T>>,
                        sending: bool, at: nat, list: seq<T>)
    requires r < w && p < w && s < w
    requires at == MeetingStage(r, p, w, sending) && list == HeldFor(if sending then sends else recvs, p)
    ensures MovedBy(StageCalls(r, w, s, sends, recvs), p, sending, if s == at then list else [])
  {
    MovedInStage(r, w, s, sends, recvs, p, sending);
    PairsAtOneStage(r, p, s, w);
    PairsAtOneStage(p, r, s, w);
  }

  lemma MovedStep<T>(calls: seq<seq<Call<T>>>, n: nat, p: nat, sending: bool)
    requires 0 < n <= |calls|
    ensures Moved(Flatten(calls[..n]), p, sending)
         == Moved(Flatten(calls[..n - 1]), p, sending) + Moved(calls[n - 1], p, sending)
  {
    FlattenPrefix(calls, n - 1);
    MovedConcat(Flatten(calls[..n - 1]), calls[n - 1], p, sending);
  }

  lemma {:induction false} MovedUpTo<T>(calls: seq<seq<Call<T>>>, at: nat, list: seq<T>, p: nat, n: nat, sending: bool)
    requires n <= |calls| && MovesAt(calls, at, list, p, sending)
    ensures Moved(Flatten(calls[..n]), p, sending) == if at <= n then list else []
  {
    if n > 0 {
      MovedUpTo(calls, at, list, p, n - 1, sending);
      MovedStep(calls, n, p, sending);
      assert MovedBy(calls[n - 1], p, sending, if n == at then list else []);
    }
  }

  lemma AllCallsAt<T>(r: nat, w: nat, c: nat, sends: map<nat, seq<T>>, recvs: map<nat, seq<T>>)
    requires r < w && c + 1 < w
    ensures AllCalls(r, w, sends, recvs)[c] == StageCalls(r, w, c + 1, sends, recvs)
  {
  }

  lemma StagesMoveAt<T>(r: nat, w: nat, p: nat, sends: map<nat, seq<T>>, recvs: map<nat, seq<T>>, sending: bool,
                        at: nat, list: seq<T>)
    requires r < w && p < w && p != r
    requires at == MeetingStage(r, p, w, sending) && list == HeldFor(if sending then sends else recvs, p)
    ensures MovesAt(AllCalls(r, w, sends, recvs), at, list, p, sending)
  {
    var calls := AllCalls(r, w, sends, recvs);
    forall c | 0 <= c < |calls| ensures MovedBy(calls[c], p, sending, if c + 1 == at then list else []) {
      AllCallsAt(r, w, c, sends, recvs);
      MovedAtStage(r, w, p, c + 1, sends, recvs, sending, at, list);
    }
  }

  lemma CarryList<T>(r: nat, w: nat, p: nat, sends: map<nat, seq<T>>, recvs: map<nat, seq<T>>, sending: bool)
    requires r < w && p < w && p != r
    ensures Moved(Flatten(AllCalls(r, w, sends, recvs)), p, sending) == HeldFor(if sending then sends else recvs, p)
  {
    var calls, at := AllCalls(r, w, sends, recvs), MeetingStage(r, p, w, sending);
    var list := HeldFor(if sending then sends else recvs, p);
    StagesMoveAt(r, w, p, sends, recvs, sending, at, list);
    MovedUpTo(calls, at, list, p, |calls|, sending);
    assert calls[..|calls|] == calls;
  }

  /** All stages together send every other rank its own list and receive from it what is expected of it. */
  lemma CallsCarry<T>(r: nat, w: nat, p: nat, sends: map<nat, seq<T>>, recvs: map<nat, seq<T>>)
    requires r < w && p < w && p != r
    ensures Moved(Flatten(AllCalls(r, w, sends, recvs)), p, true) == HeldFor(sends, p)
    ensures Moved(Flatten(AllCalls(r, w, sends, recvs)), p, false) == HeldFor(recvs, p)
  {
    CarryList(r, w, p, sends, recvs, true);
    CarryList(r, w, p, sends, recvs, false);
  }

  /** A stage sends before its first barrier in partition 0 and after it in partition 1, and receives the other way. */
  lemma StagePhases<T>(r: nat, w: nat, s: nat, sends: map<nat, seq<T>>, recvs: map<nat, seq<T>>) returns (m: nat)
    requires r < w && s < w
    ensures var calls := StageCalls(r, w, s, sends, recvs);
            && m < |calls| - 1 && calls[m] == Meet(s, 0) && calls[|calls| - 1] == Meet(s, 1)
            && forall k :: 0 <= k < |calls| ==>
                 && (calls[k].Send? ==> (k < m <==> TwoPhasePartition(r, s, w) == 0))
                 && (calls[k].Recv? ==> (k > m <==> TwoPhasePartition(r, s, w) == 0))
                 && (calls[k].Meet? ==> k == m || k == |calls| - 1)
  {
    m := if TwoPhasePartition(r, s, w) == 0 then |HeldFor(sends, SendTo(r, s, w))|
         else |HeldFor(recvs, RecvFrom(r, s, w))|;
  }

  /** The plan has an entry without operations for another rank. */
  ghost predicate EmptyEntry<T>(r: nat, w: nat, ops: map<nat, seq<T>>) {
    exists p: nat :: p < w && p != r && p in ops && ops[p] == []
  }

  lemma {:induction false} FaultFrom<T>(r: nat, w: nat, n: nat, sends: map<nat, seq<T>>, recvs: map<nat, seq<T>>)
    requires r < w && n <= w
    ensures FirstFault(r, w, n, sends, recvs).Some? <==>
              exists s: nat :: s < n && StageFault(r, w, s, sends, recvs).Some?
  {
    if n > 0 {
      FaultFrom(r, w, n - 1, sends, recvs);
    }
  }

  /** The stages are refused exactly when the plan has an empty entry for another rank. */
  lemma FaultIff<T>(r: nat, w: nat, sends: map<nat, seq<T>>, recvs: map<nat, seq<T>>)
    requires r < w
    ensures FirstFault(r, w, w, sends, recvs).Some? <==> EmptyEntry(r, w, sends) || EmptyEntry(r, w, recvs)
  {
    FaultFrom(r, w, w, sends, recvs);
    forall p: nat | p < w && p != r && ((p in sends && sends[p] == []) || (p in recvs && recvs[p] == []))
      ensures exists s: nat :: s < w && StageFault(r, w, s, sends, recvs).Some?
    {
      var s := if p in sends && sends[p] == [] then StageOf(r, p, w) else StageOf(p, r, w);
      PairsAtOneStage(r, p, s, w);
      PairsAtOneStage(p, r, s, w);
      assert StageFault(r, w, s, sends, recvs).Some?;
    }
  }

  method UpdateWeightsInColocateMode<T>(rank: nat, worldSize: nat, sends: map<nat, seq<T>>, recvs: map<nat, seq<T>>)
    returns (r: Result<(seq<T>, seq<seq<Call<T>>>), StageError>)
    requires rank < worldSize
    ensures r == match FirstFault(rank, worldSize, worldSize, sends, recvs)
                 case Some(e) => Err(e)
                 case None => Ok((HeldFor(sends, rank), AllCalls(rank, worldSize, sends, recvs)))
    ensures r.Err? <==> EmptyEntry(rank, worldSize, sends) || EmptyEntry(rank, worldSize, recvs)
    ensures r.Ok? ==> forall p :: 0 <= p < worldSize && p != rank ==>
              Moved(Flatten(r.value.1), p, true) == HeldFor(sends, p)
              && Moved(Flatten(r.value.1), p, false) == HeldFor(recvs, p)
  {
    FaultIff(rank, worldSize, sends, recvs);
    forall p | 0 <= p < worldSize && p != rank
      ensures Moved(Flatten(AllCalls(rank, worldSize, sends, recvs)), p, true) == HeldFor(sends, p)
      ensures Moved(Flatten(AllCalls(rank, worldSize, sends, recvs)), p, false) == HeldFor(recvs, p)
    {
      CallsCarry(rank, worldSize, p, sends, recvs);
    }
    var sendGroups, recvGroups, copies, fault := BuildStages(rank, worldSize, sends, recvs);
    if fault.Some? {
      return Err(fault.value);
    }
    forall s | 0 < s < worldSize
      ensures |sendGroups| == |recvGroups| == worldSize
      ensures sendGroups[s] == HeldFor(sends, SendTo(rank, s, worldSize))
      ensures recvGroups[s] == HeldFor(recvs, RecvFrom(rank, s, worldSize))
    {
      GroupsAt(rank, worldSize, worldSize, s, sends, recvs);
    }
    GroupsAt(rank, worldSize, worldSize, 0, sends, recvs);
    var calls := ExecuteStages(rank, worldSize, sendGroups, recvGroups, sends, recvs);
    r := Ok((copies, calls));
  }

  // ----- all ranks together

  datatype Exchange = Xfer(stage: nat, src: nat, dst: nat, index: nat) | Barrier(stage: nat, phase: nat)

  function ExchangeOf<T>(r: nat, call: Call<T>): Exchange {
    match call
    case Send(s, peer, k, op) => Xfer(s, r, peer, k)
    case Recv(s, peer, k, op) => Xfer(s, peer, r, k)
    case Meet(s, phase) => Barrier(s, phase)
  }

  function Exchanges<T>(r: nat, calls: seq<Call<T>>): seq<Exchange> {
    seq(|calls|, k requires 0 <= k < |calls| => ExchangeOf(r, calls[k]))
  }

  /** A rank's program of one stage. */
  function StageProgram<T>(world: World<T>, r: nat, s: nat): seq<Exchange>
    requires r < world.size && s < world.size
  {
    Exchanges(r, StageCalls(r, world.size, s, world.sends(0, r), world.recvs(0, r)))
  }

  function StagePrograms<T>(world: World<T>, r: nat): seq<seq<Exchange>>
    requires r < world.size
  {
    seq(world.size - 1, s requires 0 <= s < world.size - 1 => StageProgram(world, r, s + 1))
  }

  function CirclePartiesOf(w: nat): Exchange -> set<nat> {
    (e: Exchange) => match e case Xfer(_, src, dst, _) => {src, dst} case Barrier(_, _) => Upto(w)
  }

  /** Longer than any list one rank holds for another. */
  function RowWidth<T>(world: World<T>, i: nat, n: nat): nat {
    if n == 0 then 1 else RowWidth(world, i, n - 1) + |HeldFor(world.sends(0, i), n - 1)|
  }

  function Width<T>(world: World<T>, n: nat): nat {
    if n == 0 then 1 else Width(world, n - 1) + RowWidth(world, n - 1, world.size)
  }

  /** Where an exchange stands in its stage: before the first barrier, at it, between the two, at the second. */
  function Quarter(e: Exchange, w: nat): nat {
    match e
    case Xfer(s, src, dst, k) => if s < w && TwoPhasePartition(src, s, w) == 0 then 0 else 2
    case Barrier(s, phase) => if phase == 0 then 1 else 3
  }

  function CircleStamp(w: nat, width: nat): Exchange -> nat {
    (e: Exchange) => (e.stage * 4 + Quarter(e, w)) * width + (if e.Xfer? then e.index else 0)
  }

  function CircleNet<T>(world: World<T>): Net<Exchange> {
    Net(seq(world.size, r requires 0 <= r < world.size => Flatten(StagePrograms(world, r))),
        CirclePartiesOf(world.size), CircleStamp(world.size, Width(world, world.size)))
  }

  /** The exchanges the stages call for. */
  predicate Due<T>(world: World<T>, e: Exchange) {
    0 < e.stage < world.size &&
    match e
    case Xfer(s, src, dst, k) =>
      src < world.size && dst == SendTo(src, s, world.size) && k < |HeldFor(world.sends(0, src), dst)|
    case Barrier(s, phase) => phase < 2
  }

  lemma {:induction false} RowCovers<T>(world: World<T>, i: nat, j: nat, n: nat)
    requires j < n
    ensures |HeldFor(world.sends(0, i), j)| < RowWidth(world, i, n)
  {
    if j < n - 1 {
      RowCovers(world, i, j, n - 1);
    } else {
      RowPositive(world, i, n - 1);
    }
  }

  lemma {:induction false} RowPositive<T>(world: World<T>, i: nat, n: nat)
    ensures RowWidth(world, i, n) > 0
  {
    if n > 0 {
      RowPositive(world, i, n - 1);
    }
  }

  lemma {:induction false} WidthCovers<T>(world: World<T>, i: nat, j: nat, n: nat)
    requires i < n && j < world.size
    ensures |HeldFor(world.sends(0, i), j)| < Width(world, n)
  {
    if i < n - 1 {
      WidthCovers(world, i, j, n - 1);
    } else {
      RowCovers(world, i, j, world.size);
    }
  }

  // ----- what is in a program

  lemma SendsHave<T>(r: nat, s: nat, peer: nat, ops: seq<T>, e: Exchange)
    ensures e in Exchanges(r, SendCalls(s, peer, ops)) <==> e.Xfer? && e == Xfer(s, r, peer, e.index) && e.index < |ops|
  {
    if e.Xfer? && e == Xfer(s, r, peer, e.index) && e.index < |ops| {
      assert Exchanges(r, SendCalls(s, peer, ops))[e.index] == e;
    }
  }

  lemma RecvsHave<T>(r: nat, s: nat, peer: nat, ops: seq<T>, e: Exchange)
    ensures e in Exchanges(r, RecvCalls(s, peer, ops)) <==> e.Xfer? && e == Xfer(s, peer, r, e.index) && e.index < |ops|
  {
    if e.Xfer? && e == Xfer(s, peer, r, e.index) && e.index < |ops| {
      assert Exchanges(r, RecvCalls(s, peer, ops))[e.index] == e;
    }
  }

  /** A stage's program, spelled out. */
  lemma StageParts<T>(world: World<T>, r: nat, s: nat)
    requires r < world.size && s < world.size
    ensures var w := world.size;
            var out := Exchanges(r, SendCalls(s, SendTo(r, s, w), HeldFor(world.sends(0, r), SendTo(r, s, w))));
            var into := Exchanges(r, RecvCalls(s, RecvFrom(r, s, w), HeldFor(world.recvs(0, r), RecvFrom(r, s, w))));
            StageProgram(world, r, s) ==
              if TwoPhasePartition(r, s, w) == 0 then out + [Barrier(s, 0)] + into + [Barrier(s, 1)]
              else into + [Barrier(s, 0)] + out + [Barrier(s, 1)]
  {
    var w := world.size;
    var out := SendCalls(s, SendTo(r, s, w), HeldFor(world.sends(0, r), SendTo(r, s, w)));
    var into := RecvCalls(s, RecvFrom(r, s, w), HeldFor(world.recvs(0, r), RecvFrom(r, s, w)));
    if TwoPhasePartition(r, s, w) == 0 {
      FourParts(r, s, out, into);
    } else {
      FourParts(r, s, into, out);
    }
  }

  lemma FourParts<T>(r: nat, s: nat, a: seq<Call<T>>, b: seq<Call<T>>)
    ensures Exchanges(r, a + [Meet(s, 0)] + b + [Meet(s, 1)])
         == Exchanges(r, a) + [Barrier(s, 0)] + Exchanges(r, b) + [Barrier(s, 1)]
  {
    ExchangesMeet(r, a, s, 0);
    ExchangesConcat(r, a + [Meet(s, 0)], b);
    ExchangesMeet(r, a + [Meet(s, 0)] + b, s, 1);
  }

  lemma ExchangesConcat<T>(r: nat, a: seq<Call<T>>, b: seq<Call<T>>)
    ensures Exchanges(r, a + b) == Exchanges(r, a) + Exchanges(r, b)
  {
  }

  lemma ExchangesMeet<T>(r: nat, a: seq<Call<T>>, s: nat, phase: nat)
    ensures Exchanges(r, a + [Meet(s, phase)]) == Exchanges(r, a) + [Barrier(s, phase)]
  {
  }

  lemma StageHas<T>(world: World<T>, r: nat, s: nat, e: Exchange)
    requires Consistent(world) && world.chunks > 0 && r < world.size && 0 < s < world.size
    ensures e in StageProgram(world, r, s) <==> e.stage == s && Due(world, e) && r in CirclePartiesOf(world.size)(e)
  {
    StageMembers(world, r, s, e);
    UptoSize(world.size);
  }

  lemma StageMembers<T>(world: World<T>, r: nat, s: nat, e: Exchange)
    requires r < world.size && s < world.size
    ensures var to, from := SendTo(r, s, world.size), RecvFrom(r, s, world.size);
            e in StageProgram(world, r, s) <==>
              match e
              case Xfer(stage, src, dst, k) =>
                stage == s && ((src == r && dst == to && k < |HeldFor(world.sends(0, r), to)|)
                               || (src == from && dst == r && k < |HeldFor(world.recvs(0, r), from)|))
              case Barrier(stage, phase) => stage == s && phase < 2
  {
    var w := world.size;
    StageParts(world, r, s);
    SendsHave(r, s, SendTo(r, s, w), HeldFor(world.sends(0, r), SendTo(r, s, w)), e);
    RecvsHave(r, s, RecvFrom(r, s, w), HeldFor(world.recvs(0, r), RecvFrom(r, s, w)), e);
  }

  lemma FlattenTagged(parts: seq<seq<Exchange>>, e: Exchange, own: bool)
    requires forall s :: 0 <= s < |parts| ==> (e in parts[s] <==> e.stage == s + 1 && own)
    ensures e in Flatten(parts) <==> 0 < e.stage <= |parts| && own
  {
    FlattenIn(parts, e);
    if 0 < e.stage <= |parts| && own {
      assert e in parts[e.stage - 1];
    }
  }

  lemma CircleProgramHas<T>(world: World<T>, r: nat, e: Exchange)
    requires Consistent(world) && world.chunks > 0 && r < world.size
    ensures e in CircleNet(world).progs[r] <==> Due(world, e) && r in CirclePartiesOf(world.size)(e)
  {
    var own := Due(world, e) && r in CirclePartiesOf(world.size)(e);
    var parts := StagePrograms(world, r);
    forall s | 0 <= s < |parts| ensures e in parts[s] <==> e.stage == s + 1 && own {
      assert parts[s] == StageProgram(world, r, s + 1);
      StageHas(world, r, s + 1, e);
    }
    FlattenTagged(parts, e, own);
  }

  lemma CircleAgreed<T>(world: World<T>)
    requires Consistent(world) && world.chunks > 0
    ensures Agreed(CircleNet(world))
  {
    var net, w := CircleNet(world), world.size;
    UptoSize(w);
    forall r, k | 0 <= r < |net.progs| && 0 <= k < |net.progs[r]|
      ensures r in net.parties(net.progs[r][k])
      ensures forall q: nat :: q in net.parties(net.progs[r][k]) ==> q < |net.progs| && net.progs[r][k] in net.progs[q]
    {
      var e := net.progs[r][k];
      CircleProgramHas(world, r, e);
      forall q: nat | q in net.parties(e) ensures q < w && e in net.progs[q] {
        CircleProgramHas(world, q, e);
      }
    }
  }

  // ----- the stamps climb when traffic only joins opposite partitions

  /** The sender and the receiver of a pair send in different phases of their stage. */
  predicate Apart(i: nat, j: nat, w: pos)
    requires i < w && j < w
  {
    (TwoPhasePartition(i, StageOf(i, j, w), w) == 0) != (TwoPhasePartition(j, StageOf(i, j, w), w) == 0)
  }

  /** Whatever is sent between two ranks, they are in opposite partitions at its stage. */
  ghost predicate Passable<T>(world: World<T>) {
    forall i: nat, j: nat :: i < world.size && j < world.size && i != j && HeldFor(world.sends(0, i), j) != [] ==>
      Apart(i, j, world.size)
  }

  lemma XfersClimb(w: nat, width: nat, events: seq<Exchange>, s: nat, quarter: nat)
    requires |events| <= width
    requires forall k :: 0 <= k < |events| ==>
               events[k].Xfer? && events[k].stage == s && events[k].index == k && Quarter(events[k], w) == quarter
    ensures Band(events, CircleStamp(w, width), (s * 4 + quarter) * width, (s * 4 + quarter + 1) * width)
  {
    Arithmetic.MulOrder(s * 4 + quarter, s * 4 + quarter + 1, width);
    forall k | 0 <= k < |events| ensures CircleStamp(w, width)(events[k]) == (s * 4 + quarter) * width + k {
    }
  }

  lemma BarrierBand(w: nat, width: nat, s: nat, phase: nat)
    requires width > 0 && phase < 2
    ensures Band([Barrier(s, phase)], CircleStamp(w, width), (s * 4 + 2 * phase + 1) * width,
                 (s * 4 + 2 * phase + 2) * width)
  {
    Arithmetic.MulOrder(s * 4 + 2 * phase + 1, s * 4 + 2 * phase + 2, width);
  }

  lemma FourBands(a: seq<Exchange>, b: seq<Exchange>, w: nat, width: nat, s: nat)
    requires width > 0
    requires Band(a, CircleStamp(w, width), (s * 4) * width, (s * 4 + 1) * width)
    requires Band(b, CircleStamp(w, width), (s * 4 + 2) * width, (s * 4 + 3) * width)
    ensures (s * 4) * width <= ((s + 1) * 4) * width
    ensures Band(a + [Barrier(s, 0)] + b + [Barrier(s, 1)], CircleStamp(w, width), (s * 4) * width,
                 ((s + 1) * 4) * width)
  {
    var stamp, q := CircleStamp(w, width), s * 4;
    BarrierBand(w, width, s, 0);
    BarrierBand(w, width, s, 1);
    Arithmetic.MulOrder(q, q + 1, width);
    Arithmetic.MulOrder(q + 1, q + 2, width);
    Arithmetic.MulOrder(q + 2, q + 3, width);
    Arithmetic.MulOrder(q + 3, q + 4, width);
    BandConcat(a, [Barrier(s, 0)], stamp, q * width, (q + 1) * width, (q + 2) * width);
    BandConcat(a + [Barrier(s, 0)], b, stamp, q * width, (q + 2) * width, (q + 3) * width);
    BandConcat(a + [Barrier(s, 0)] + b, [Barrier(s, 1)], stamp, q * width, (q + 3) * width, (q + 4) * width);
    assert (s + 1) * 4 == q + 4;
  }

  lemma OutBand<T>(r: nat, s: nat, to: nat, ops: seq<T>, w: nat, width: nat)
    requires |ops| <= width && s < w
    ensures var q := if TwoPhasePartition(r, s, w) == 0 then 0 else 2;
            Band(Exchanges(r, SendCalls(s, to, ops)), CircleStamp(w, width), (s * 4 + q) * width,
                 (s * 4 + q + 1) * width)
  {
    XfersClimb(w, width, Exchanges(r, SendCalls(s, to, ops)), s, if TwoPhasePartition(r, s, w) == 0 then 0 else 2);
  }

  /** What a rank receives stands on the other side of the barrier from what it sends. */
  lemma IntoBand<T>(r: nat, s: nat, from: nat, ops: seq<T>, w: nat, width: nat)
    requires |ops| <= width && r < w && from < w && s < w
    requires ops != [] ==> (TwoPhasePartition(from, s, w) == 0) != (TwoPhasePartition(r, s, w) == 0)
    ensures var q := if TwoPhasePartition(r, s, w) == 0 then 2 else 0;
            Band(Exchanges(r, RecvCalls(s, from, ops)), CircleStamp(w, width), (s * 4 + q) * width,
                 (s * 4 + q + 1) * width)
  {
    XfersClimb(w, width, Exchanges(r, RecvCalls(s, from, ops)), s, if TwoPhasePartition(r, s, w) == 0 then 2 else 0);
  }

  lemma BothBands(out: seq<Exchange>, into: seq<Exchange>, w: nat, width: nat, s: nat, first: bool, lo: nat, hi: nat)
    requires width > 0 && lo == (s * 4) * width && hi == ((s + 1) * 4) * width
    requires var q := if first then 0 else 2;
             Band(out, CircleStamp(w, width), (s * 4 + q) * width, (s * 4 + q + 1) * width)
    requires var q := if first then 2 else 0;
             Band(into, CircleStamp(w, width), (s * 4 + q) * width, (s * 4 + q + 1) * width)
    ensures lo <= hi
    ensures Band(if first then out + [Barrier(s, 0)] + into + [Barrier(s, 1)]
                 else into + [Barrier(s, 0)] + out + [Barrier(s, 1)],
                 CircleStamp(w, width), lo, hi)
  {
    if first {
      FourBands(out, into, w, width, s);
    } else {
      FourBands(into, out, w, width, s);
    }
  }

  lemma StageBand<T>(world: World<T>, r: nat, s: nat, width: nat, lo: nat, hi: nat)
    requires Consistent(world) && world.chunks > 0 && r < world.size && 0 < s < world.size
    requires Passable(world) && width == Width(world, world.size)
    requires lo == (s * 4) * width && hi == ((s + 1) * 4) * width
    ensures lo <= hi && Band(StageProgram(world, r, s), CircleStamp(world.size, width), lo, hi)
  {
    var w: nat, to, from := world.size, SendTo(r, s, world.size), RecvFrom(r, s, world.size);
    WidthCovers(world, r, to, w);
    WidthCovers(world, from, r, w);
    PairsAtOneStage(from, r, s, w);
    OutBand(r, s, to, HeldFor(world.sends(0, r), to), w, width);
    IntoBand(r, s, from, HeldFor(world.recvs(0, r), from), w, width);
    BothBands(Exchanges(r, SendCalls(s, to, HeldFor(world.sends(0, r), to))),
              Exchanges(r, RecvCalls(s, from, HeldFor(world.recvs(0, r), from))),
              w, width, s, TwoPhasePartition(r, s, w) == 0, lo, hi);
    StageParts(world, r, s);
  }

  lemma CircleClimbs<T>(world: World<T>, r: nat)
    requires Consistent(world) && world.chunks > 0 && r < world.size && Passable(world)
    ensures Climbs(CircleNet(world).progs[r], CircleStamp(world.size, Width(world, world.size)))
  {
    var w: nat, width: nat := world.size, Width(world, world.size);
    var parts := StagePrograms(world, r);
    var marks := StageMarks(w, width);
    forall s | 0 <= s < |parts|
      ensures marks[s] <= marks[s + 1] && Band(parts[s], CircleStamp(w, width), marks[s], marks[s + 1])
    {
      StageBand(world, r, s + 1, width, marks[s], marks[s + 1]);
    }
    FlattenBand(parts, CircleStamp(w, width), marks);
  }

  lemma StageMarks(w: nat, width: nat) returns (marks: seq<nat>)
    ensures |marks| == w
    ensures forall s :: 0 <= s < w ==> marks[s] == ((s + 1) * 4) * width
  {
    marks := seq(w, s requires 0 <= s < w => ((s + 1) * 4) * width);
  }

  /** Then the two-phase execution with its barriers fits together. */
  lemma CircleWellFormed<T>(world: World<T>)
    requires Consistent(world) && world.chunks > 0 && Passable(world)
    ensures WellFormed(CircleNet(world))
  {
    CircleAgreed(world);
    forall r | 0 <= r < world.size ensures Climbs(CircleNet(world).progs[r], CircleNet(world).stamp) {
      CircleClimbs(world, r);
    }
  }

  /** So it never gets stuck, and every run ends. */
  lemma CircleNeverStuck<T>(world: World<T>, run: seq<Exchange>) returns (next: Exchange)
    requires Consistent(world) && world.chunks > 0 && Passable(world) && IsRun(CircleNet(world), run)
    ensures var net := CircleNet(world);
            && Fits(net, After(net, run)) && Fits(net, Start(net))
            && |run| + Remaining(net, After(net, run), world.size) <= Remaining(net, Start(net), world.size)
            && (!Finished(net, After(net, run)) ==> Enabled(net, After(net, run), next) && IsRun(net, run + [next]))
  {
    CircleWellFormed(world);
    RunsEnd(CircleNet(world), run);
    if !Finished(CircleNet(world), After(CircleNet(world), run)) {
      next := Progress(CircleNet(world), run);
    } else {
      next := Barrier(0, 0);
    }
  }

  /** The calls of all of a rank's stages. */
  function RankCalls<T>(world: World<T>, r: nat): seq<Call<T>>
    requires r < world.size
  {
    Flatten(AllCalls(r, world.size, world.sends(0, r), world.recvs(0, r)))
  }

  /** The call behind an exchange carries the operation of its index, at the sender and at the receiver. */
  lemma CallsAgree<T>(world: World<T>, i: nat, j: nat, k: nat, s: nat, call: Call<T>)
    requires i < world.size && j < world.size && i != j
    ensures call in RankCalls(world, i) && ExchangeOf(i, call) == Xfer(s, i, j, k) ==>
              k < |HeldFor(world.sends(0, i), j)| && call == Send(s, j, k, HeldFor(world.sends(0, i), j)[k])
    ensures call in RankCalls(world, j) && ExchangeOf(j, call) == Xfer(s, i, j, k) ==>
              k < |HeldFor(world.recvs(0, j), i)| && call == Recv(s, i, k, HeldFor(world.recvs(0, j), i)[k])
  {
    if call in RankCalls(world, i) {
      CallOp(i, world.size, world.sends(0, i), world.recvs(0, i), call);
    }
    if call in RankCalls(world, j) {
      CallOp(j, world.size, world.sends(0, j), world.recvs(0, j), call);
    }
  }

  lemma CallOp<T>(r: nat, w: nat, sends: map<nat, seq<T>>, recvs: map<nat, seq<T>>, call: Call<T>)
    requires r < w && call in Flatten(AllCalls(r, w, sends, recvs))
    ensures call.Send? ==> call.index < |HeldFor(sends, call.peer)| && call.op == HeldFor(sends, call.peer)[call.index]
    ensures call.Recv? ==> call.index < |HeldFor(recvs, call.peer)| && call.op == HeldFor(recvs, call.peer)[call.index]
  {
    var calls := AllCalls(r, w, sends, recvs);
    FlattenIn(calls, call);
    var c :| 0 <= c < |calls| && call in calls[c];
    AllCallsAt(r, w, c, sends, recvs);
    StageCallOp(r, w, c + 1, sends, recvs, call);
  }

  lemma StageCallOp<T>(r: nat, w: nat, s: nat, sends: map<nat, seq<T>>, recvs: map<nat, seq<T>>, call: Call<T>)
    requires r < w && s < w && call in StageCalls(r, w, s, sends, recvs)
    ensures call.Send? ==> call.index < |HeldFor(sends, call.peer)| && call.op == HeldFor(sends, call.peer)[call.index]
    ensures call.Recv? ==> call.index < |HeldFor(recvs, call.peer)| && call.op == HeldFor(recvs, call.peer)[call.index]
  {
    var to, from := SendTo(r, s, w), RecvFrom(r, s, w);
    assert call.Send? ==> call in SendCalls(s, to, HeldFor(sends, to));
    assert call.Recv? ==> call in RecvCalls(s, from, HeldFor(recvs, from));
  }

  /** A finished run has moved every operation of every pair once, at the pair's own stage, with its own calls. */
  lemma CircleDelivers<T>(world: World<T>, run: seq<Exchange>, i: nat, j: nat, k: nat)
    requires Consistent(world) && world.chunks > 0 && Passable(world) && FinishedRun(CircleNet(world), run)
    requires i < world.size && j < world.size && i != j && k < |HeldFor(world.sends(0, i), j)|
    ensures multiset(run)[Xfer((j - i) % world.size, i, j, k)] == 1
    ensures forall s: nat :: Xfer(s, i, j, k) in run ==> s == (j - i) % world.size
    ensures k < |HeldFor(world.recvs(0, j), i)| && HeldFor(world.recvs(0, j), i)[k] == HeldFor(world.sends(0, i), j)[k]
    ensures forall s, call :: call in RankCalls(world, i) && ExchangeOf(i, call) == Xfer(s, i, j, k) ==>
              call == Send(s, j, k, HeldFor(world.sends(0, i), j)[k])
    ensures forall s, call :: call in RankCalls(world, j) && ExchangeOf(j, call) == Xfer(s, i, j, k) ==>
              call == Recv(s, i, k, HeldFor(world.recvs(0, j), i)[k])
  {
    forall s, call | call in RankCalls(world, i) && ExchangeOf(i, call) == Xfer(s, i, j, k)
      ensures call == Send(s, j, k, HeldFor(world.sends(0, i), j)[k])
    {
      CallsAgree(world, i, j, k, s, call);
    }
    forall s, call | call in RankCalls(world, j) && ExchangeOf(j, call) == Xfer(s, i, j, k)
      ensures call == Recv(s, i, k, HeldFor(world.recvs(0, j), i)[k])
    {
      CallsAgree(world, i, j, k, s, call);
    }
    PairsAtOneStage(i, j, StageOf(i, j, world.size), world.size);
    CarriedOnce(world, run, Xfer(StageOf(i, j, world.size), i, j, k));
    forall s: nat | Xfer(s, i, j, k) in run ensures s == (j - i) % world.size {
      CarriedIsDue(world, run, Xfer(s, i, j, k));
      PairsAtOneStage(i, j, s, world.size);
    }
  }

  lemma CarriedOnce<T>(world: World<T>, run: seq<Exchange>, e: Exchange)
    requires Consistent(world) && world.chunks > 0 && Passable(world) && FinishedRun(CircleNet(world), run)
    requires Due(world, e) && e.Xfer?
    ensures multiset(run)[e] == 1
  {
    CircleWellFormed(world);
    CircleProgramHas(world, e.src, e);
    FinishedOnce(CircleNet(world), run, e);
  }

  lemma CarriedIsDue<T>(world: World<T>, run: seq<Exchange>, e: Exchange)
    requires Consistent(world) && world.chunks > 0 && IsRun(CircleNet(world), run) && e in run
    ensures Due(world, e)
  {
    RunOfPrograms(CircleNet(world), run, e);
    var r :| 0 <= r < world.size && e in CircleNet(world).progs[r];
    CircleProgramHas(world, r, e);
  }

  // ----- otherwise it gets stuck

  /** Every rank has something for every other. */
  ghost predicate FullTraffic<T>(world: World<T>) {
    forall i, j :: 0 <= i < world.size && 0 <= j < world.size && i != j ==> HeldFor(world.sends(0, i), j) != []
  }

  /** Part number c holds exchanges of stage c + 1 only. */
  predicate ByStage(parts: seq<seq<Exchange>>) {
    forall c :: 0 <= c < |parts| ==> OfStage(parts[c], c + 1)
  }

  predicate OfStage(part: seq<Exchange>, s: nat) {
    forall k :: 0 <= k < |part| ==> part[k].stage == s
  }

  lemma ProgramsByStage<T>(world: World<T>, r: nat)
    requires Consistent(world) && world.chunks > 0 && r < world.size
    ensures ByStage(StagePrograms(world, r))
  {
    forall c | 0 <= c < world.size - 1 ensures OfStage(StagePrograms(world, r)[c], c + 1) {
      var part := StagePrograms(world, r)[c];
      forall k | 0 <= k < |part| ensures part[k].stage == c + 1 {
        StageHas(world, r, c + 1, part[k]);
      }
    }
  }

  lemma EarlierParts(parts: seq<seq<Exchange>>, s: nat, e: Exchange)
    requires ByStage(parts) && 0 < s <= |parts| && e.stage == s
    ensures e !in Flatten(parts[..s - 1])
  {
    var earlier := parts[..s - 1];
    FlattenIn(earlier, e);
    forall c | 0 <= c < |earlier| ensures e !in earlier[c] {
      assert OfStage(parts[c], c + 1);
    }
  }

  /** Where the end of a stage's first stretch stands, and what does not stand before it. */
  lemma StretchEnd(parts: seq<seq<Exchange>>, s: nat, head: seq<Exchange>, rest: seq<Exchange>, e: Exchange)
    returns (k: nat)
    requires ByStage(parts) && 0 < s <= |parts| && parts[s - 1] == head + rest && head != []
    requires e.stage == s && e !in head
    ensures k < |Flatten(parts)| && Flatten(parts)[k] == head[|head| - 1] && e !in Flatten(parts)[..k + 1]
  {
    var before, after := Flatten(parts[..s - 1]), Flatten(parts[s - 1 + 1..]);
    EarlierParts(parts, s, e);
    FlattenSplit(parts, s - 1);
    k := |before| + |head| - 1;
    PrefixOf(Flatten(parts), before, head, rest, after);
  }

  lemma PrefixOf(prog: seq<Exchange>, before: seq<Exchange>, head: seq<Exchange>, rest: seq<Exchange>,
                 after: seq<Exchange>)
    requires head != [] && prog == before + (head + rest) + after
    ensures |before| + |head| <= |prog| && prog[..|before| + |head|] == before + head
    ensures prog[|before| + |head| - 1] == head[|head| - 1]
  {
    assert prog == (before + head) + (rest + after);
  }

  /** The rank that needs an operation of a pair before the barrier: the pair's first sender or first receiver. */
  lemma EarlyHead<T>(world: World<T>, i: nat, j: nat, s: nat) returns (q: nat, head: seq<Exchange>, rest: seq<Exchange>)
    requires Consistent(world) && world.chunks > 0 && i < world.size && j < world.size && i != j
    requires s == StageOf(i, j, world.size) && HeldFor(world.sends(0, i), j) != [] && !Apart(i, j, world.size)
    ensures q == if TwoPhasePartition(i, s, world.size) == 0 then i else j
    ensures StageProgram(world, q, s) == head + rest && head == [Xfer(s, i, j, 0)]
  {
    q := if TwoPhasePartition(i, s, world.size) == 0 then i else j;
    PairsAtOneStage(i, j, s, world.size);
    StageParts(world, q, s);
    head, rest := StageProgram(world, q, s)[..1], StageProgram(world, q, s)[1..];
  }

  /** The other rank comes to the barrier first. */
  lemma LateHead<T>(world: World<T>, i: nat, j: nat, s: nat) returns (r: nat, head: seq<Exchange>, rest: seq<Exchange>)
    requires i < world.size && j < world.size && i != j && s == StageOf(i, j, world.size) && !Apart(i, j, world.size)
    ensures r == if TwoPhasePartition(i, s, world.size) == 0 then j else i
    ensures StageProgram(world, r, s) == head + rest
    ensures head != [] && head[|head| - 1] == Barrier(s, 0) && Xfer(s, i, j, 0) !in head
  {
    var w, e := world.size, Xfer(s, i, j, 0);
    r := if TwoPhasePartition(i, s, w) == 0 then j else i;
    var to, from := SendTo(r, s, w), RecvFrom(r, s, w);
    var out := Exchanges(r, SendCalls(s, to, HeldFor(world.sends(0, r), to)));
    var into := Exchanges(r, RecvCalls(s, from, HeldFor(world.recvs(0, r), from)));
    SendsHave(r, s, to, HeldFor(world.sends(0, r), to), e);
    RecvsHave(r, s, from, HeldFor(world.recvs(0, r), from), e);
    StageParts(world, r, s);
    head := (if r == j then out else into) + [Barrier(s, 0)];
    rest := StageProgram(world, r, s)[|head|..];
  }

  lemma EarlyAt<T>(world: World<T>, i: nat, j: nat, s: nat) returns (q: nat, k: nat)
    requires Consistent(world) && world.chunks > 0 && i < world.size && j < world.size && i != j
    requires s == StageOf(i, j, world.size) && HeldFor(world.sends(0, i), j) != [] && !Apart(i, j, world.size)
    ensures q == if TwoPhasePartition(i, s, world.size) == 0 then i else j
    ensures var prog := Flatten(StagePrograms(world, q));
            k < |prog| && prog[k] == Xfer(s, i, j, 0) && Barrier(s, 0) !in prog[..k + 1]
  {
    var head, rest;
    q, head, rest := EarlyHead(world, i, j, s);
    ProgramsByStage(world, q);
    k := StretchEnd(StagePrograms(world, q), s, head, rest, Barrier(s, 0));
  }

  lemma LateAt<T>(world: World<T>, i: nat, j: nat, s: nat) returns (r: nat, l: nat)
    requires Consistent(world) && world.chunks > 0 && i < world.size && j < world.size && i != j
    requires s == StageOf(i, j, world.size) && !Apart(i, j, world.size)
    ensures r == if TwoPhasePartition(i, s, world.size) == 0 then j else i
    ensures var prog := Flatten(StagePrograms(world, r));
            l < |prog| && prog[l] == Barrier(s, 0) && Xfer(s, i, j, 0) !in prog[..l + 1]
  {
    var head, rest;
    r, head, rest := LateHead(world, i, j, s);
    ProgramsByStage(world, r);
    l := StretchEnd(StagePrograms(world, r), s, head, rest, Xfer(s, i, j, 0));
  }

  /** Two ranks in one partition with something to send wait for each other across the barrier. */
  lemma TogetherCross<T>(world: World<T>, i: nat, j: nat) returns (q: nat, k: nat, r: nat, l: nat)
    requires Consistent(world) && world.chunks > 0 && i < world.size && j < world.size && i != j
    requires HeldFor(world.sends(0, i), j) != [] && !Apart(i, j, world.size)
    ensures Crossed(CircleNet(world), q, k, r, l)
  {
    var s := StageOf(i, j, world.size);
    q, k := EarlyAt(world, i, j, s);
    r, l := LateAt(world, i, j, s);
    CrossedAt(world, q, k, r, l, Xfer(s, i, j, 0), Barrier(s, 0));
  }

  lemma CrossedAt<T>(world: World<T>, q: nat, k: nat, r: nat, l: nat, e: Exchange, f: Exchange)
    requires q < world.size && r < world.size
    requires var prog := Flatten(StagePrograms(world, q)); k < |prog| && prog[k] == e && f !in prog[..k + 1]
    requires var prog := Flatten(StagePrograms(world, r)); l < |prog| && prog[l] == f && e !in prog[..l + 1]
    requires e.Xfer? && r in {e.src, e.dst} && f.Barrier?
    ensures Crossed(CircleNet(world), q, k, r, l)
  {
    UptoSize(world.size);
  }

  /** A run can finish if and only if traffic only joins opposite partitions, in worlds of any size. */
  lemma CircleFinishesIffPassable<T>(world: World<T>)
    requires Consistent(world) && world.chunks > 0
    ensures (exists run :: FinishedRun(CircleNet(world), run)) <==> Passable(world)
  {
    var net := CircleNet(world);
    if Passable(world) {
      CircleWellFormed(world);
      var run := CanFinish(net, []);
      assert FinishedRun(net, run);
    } else {
      var i: nat, j: nat :| i < world.size && j < world.size && i != j && HeldFor(world.sends(0, i), j) != []
        && !Apart(i, j, world.size);
      var q, k, r, l := TogetherCross(world, i, j);
      forall run ensures !FinishedRun(net, run) {
        if IsRun(net, run) {
          CrossedStaysShort(net, run, q, k, r, l);
        }
      }
    }
  }

  lemma Alternates(i: nat, j: nat, w: pos)
    requires i < w && j < w && i != j && PowerOfTwo(w)
    ensures Apart(i, j, w)
  {
    var s := StageOf(i, j, w);
    EvenCyclesIffPowerOfTwo(w);
    EvenOpposite(i, s, w);
    PairsAtOneStage(i, j, s, w);
    DivModParts(CyclePos(i, s, w), 2);
    DivModParts(CyclePos(j, s, w), 2);
  }

  /** A power of two lets all traffic through, and is the only size that lets through traffic between all ranks. */
  lemma PassableIffPowerOfTwo<T>(world: World<T>)
    requires Consistent(world)
    ensures PowerOfTwo(world.size) ==> Passable(world)
    ensures FullTraffic(world) ==> (Passable(world) <==> PowerOfTwo(world.size))
  {
    var w := world.size;
    if PowerOfTwo(w) {
      forall i: nat, j: nat | i < w && j < w && i != j ensures Apart(i, j, w) {
        Alternates(i, j, w);
      }
    } else if FullTraffic(world) {
      EvenCyclesIffPowerOfTwo(w);
      var s: nat :| 0 < s < w && CycleLength(s, w) % 2 != 0;
      OddCloses(s, w);
      assert StageOf(w - s, 0, w) == s && !Apart(w - s, 0, w);
      assert HeldFor(world.sends(0, w - s), 0) != [];
    }
  }

  lemma FirstOfThree()
    ensures Apart(0, 1, 3) && !PowerOfTwo(3)
  {
    assert Log2(3) == 1 && Pow2(1) == 2;
    assert Gcd(3, 1) == Gcd(1, 0);
    CyclePosAdvances(0, 1, 3);
  }

  /** Three ranks, of which rank 0 has one operation for rank 1. */
  function OneWay(op: nat): World<nat> {
    World(3, 1, (c: nat, r: nat) => if r == 0 then map[1 := [op]] else map[],
          (c: nat, r: nat) => if r == 1 then map[0 := [op]] else map[])
  }

  lemma OneWayTraffic(op: nat, i: nat, j: nat)
    ensures HeldFor(OneWay(op).sends(0, i), j) == if i == 0 && j == 1 then [op] else []
    ensures HeldFor(OneWay(op).recvs(0, j), i) == if i == 0 && j == 1 then [op] else []
  {
  }

  /** Three ranks are no power of two, but traffic from rank 0 to rank 1 alone gets through. */
  lemma ThreeRanksMayPass(op: nat)
    ensures Consistent(OneWay(op)) && !PowerOfTwo(OneWay(op).size) && Passable(OneWay(op))
  {
    FirstOfThree();
    forall i: nat, j: nat | i < 3 && j < 3
      ensures HeldFor(OneWay(op).sends(0, i), j) == HeldFor(OneWay(op).recvs(0, j), i)
      ensures HeldFor(OneWay(op).sends(0, i), j) != [] ==> i == 0 && j == 1
    {
      OneWayTraffic(op, i, j);
    }
  }
}
