/**
 Interleaving operations by peer (awex/transfer/nccl_comm.py) and the cache of training
 slices (slice_tensor in awex/transfer/transfer_plan.py): operations go out in rounds, one
 per peer and round, peers ascending; interleaving what is so built changes nothing.
 */
module Interleave {
  import opened Wrappers
  import opened Seqs
  import opened Butterfly
  import opened Chunked
  import TransferPlan

  /** A point-to-point operation: its peer and what it carries. */
  datatype Item<T> = Item(peer: nat, op: T)

  type Buckets<T> = map<nat, seq<Item<T>>>

  // ----- rounds

  /** A peer's k-th operation, if it has one. */
  function Turn<T>(b: Buckets<T>, p: nat, k: nat): seq<Item<T>> {
    if k < |HeldFor(b, p)| then [HeldFor(b, p)[k]] else []
  }

  function RoundOf<T>(b: Buckets<T>, keys: seq<nat>, k: nat): seq<Item<T>> {
    if keys == [] then [] else RoundOf(b, keys[..|keys| - 1], k) + Turn(b, keys[|keys| - 1], k)
  }

  function RoundList<T>(b: Buckets<T>, keys: seq<nat>, n: nat): seq<seq<Item<T>>> {
    seq(n, k requires 0 <= k < n => RoundOf(b, keys, k))
  }

  function RoundsTo<T>(b: Buckets<T>, keys: seq<nat>, n: nat): seq<Item<T>> { Flatten(RoundList(b, keys, n)) }

  /** All rounds. */
  function RoundRobin<T>(b: Buckets<T>): seq<Item<T>> { RoundsTo(b, SortedKeys(b.Keys), Longest(b)) }

  predicate Rising(list: seq<nat>) { forall i, j :: 0 <= i < j < |list| ==> list[i] < list[j] }

  function Active<T>(b: Buckets<T>, k: nat): nat -> bool { (p: nat) => k < |HeldFor(b, p)| }

  lemma RoundAppend<T>(b: Buckets<T>, keys: seq<nat>, p: nat, k: nat)
    ensures RoundOf(b, keys + [p], k) == RoundOf(b, keys, k) + Turn(b, p, k)
  {
    assert (keys + [p])[..|keys|] == keys;
  }

  /** Peers with nothing left contribute nothing. */
  lemma {:induction false} OnlyActive<T>(b: Buckets<T>, keys: seq<nat>, k: nat)
    ensures RoundOf(b, keys, k) == RoundOf(b, Filter(keys, Active(b, k)), k)
  {
    if keys != [] {
      var n := |keys| - 1;
      var few := Filter(keys[..n], Active(b, k));
      OnlyActive(b, keys[..n], k);
      RoundAppend(b, few, keys[n], k);
      if !Active(b, k)(keys[n]) {
        assert Filter(keys, Active(b, k)) == few;
      }
    }
  }

  lemma {:induction false} FilterRising(list: seq<nat>, keep: nat -> bool)
    requires Rising(list)
    ensures Rising(Filter(list, keep))
  {
    if list != [] {
      var n := |list| - 1;
      FilterRising(list[..n], keep);
      forall i | 0 <= i < |Filter(list[..n], keep)| ensures Filter(list[..n], keep)[i] < list[n] {
        FilterIn(list[..n], keep, Filter(list[..n], keep)[i]);
      }
    }
  }

  /** A rising list is determined by its members. */
  lemma {:induction false} RisingUnique(a: seq<nat>, b: seq<nat>)
    requires Rising(a) && Rising(b) && forall x: nat :: x in a <==> x in b
    ensures a == b
    decreases |a|
  {
    if b != [] {
      assert b[0] in b;
    }
    if a != [] {
      assert a[0] in a;
      LeastFirst(a, b[0]);
      LeastFirst(b, a[0]);
      forall x: nat ensures x in a[1..] <==> x in b[1..] {
        LeastFirst(a, x);
        LeastFirst(b, x);
      }
      RisingUnique(a[1..], b[1..]);
      assert a == [a[0]] + a[1..] && b == [b[0]] + b[1..];
    }
  }

  lemma LeastFirst(a: seq<nat>, x: nat)
    requires Rising(a) && a != []
    ensures x in a ==> a[0] <= x
    ensures x in a[1..] <==> x in a && x != a[0]
  {
    assert a == [a[0]] + a[1..];
  }

  /** Two key lists that agree on the peers with a k-th operation give the same round. */
  lemma SameRound<T>(b: Buckets<T>, keys: seq<nat>, c: Buckets<T>, others: seq<nat>, k: nat)
    requires Rising(keys) && Rising(others)
    requires forall p: nat :: p in keys && Active(b, k)(p) <==> p in others && Active(c, k)(p)
    requires forall p: nat :: p in keys && Active(b, k)(p) ==> HeldFor(b, p) == HeldFor(c, p)
    ensures RoundOf(b, keys, k) == RoundOf(c, others, k)
  {
    OnlyActive(b, keys, k);
    OnlyActive(c, others, k);
    var x, y := Filter(keys, Active(b, k)), Filter(others, Active(c, k));
    FilterRising(keys, Active(b, k));
    FilterRising(others, Active(c, k));
    forall p: nat ensures p in x <==> p in y {
      FilterIn(keys, Active(b, k), p);
      FilterIn(others, Active(c, k), p);
    }
    RisingUnique(x, y);
    forall p: nat | p in x ensures HeldFor(b, p) == HeldFor(c, p) {
      FilterIn(keys, Active(b, k), p);
    }
    SameHeld(b, c, x, k);
  }

  lemma {:induction false} SameHeld<T>(b: Buckets<T>, c: Buckets<T>, keys: seq<nat>, k: nat)
    requires forall p: nat :: p in keys ==> HeldFor(b, p) == HeldFor(c, p)
    ensures RoundOf(b, keys, k) == RoundOf(c, keys, k)
  {
    if keys != [] {
      assert forall p: nat :: p in keys[..|keys| - 1] ==> p in keys;
      SameHeld(b, c, keys[..|keys| - 1], k);
      assert keys[|keys| - 1] in keys;
    }
  }

  // ----- what the rounds hold

  function ForPeer<T>(p: nat): Item<T> -> bool { (item: Item<T>) => item.peer == p }

  /** Every bucket's items are for the bucket's peer. */
  ghost predicate Tagged<T>(b: Buckets<T>) {
    forall p, i :: p in b && 0 <= i < |b[p]| ==> b[p][i].peer == p
  }

  lemma TurnForPeer<T>(b: Buckets<T>, q: nat, k: nat, p: nat)
    requires Tagged(b)
    ensures Filter(Turn(b, q, k), ForPeer(p)) == if q == p then Turn(b, p, k) else []
  {
    var turn := Turn(b, q, k);
    if turn != [] {
      assert turn[..0] == [];
      assert turn[0].peer == q;
    }
  }

  lemma {:induction false} RoundForPeer<T>(b: Buckets<T>, keys: seq<nat>, k: nat, p: nat)
    requires Tagged(b) && Rising(keys)
    ensures Filter(RoundOf(b, keys, k), ForPeer(p)) == if p in keys then Turn(b, p, k) else []
  {
    if keys != [] {
      var n := |keys| - 1;
      RoundForPeer(b, keys[..n], k, p);
      FilterConcat(RoundOf(b, keys[..n], k), Turn(b, keys[n], k), ForPeer(p));
      TurnForPeer(b, keys[n], k, p);
      LastIsNew(keys, p);
    }
  }

  lemma LastIsNew(keys: seq<nat>, p: nat)
    requires keys != [] && Rising(keys)
    ensures p in keys <==> p in keys[..|keys| - 1] || p == keys[|keys| - 1]
    ensures keys[|keys| - 1] !in keys[..|keys| - 1]
  {
  }

  function Taken<T>(s: seq<T>, n: nat): seq<T> { if n < |s| then s[..n] else s }

  lemma TakenStep<T>(b: Buckets<T>, p: nat, n: nat)
    ensures Taken(HeldFor(b, p), n) + Turn(b, p, n) == Taken(HeldFor(b, p), n + 1)
  {
  }

  function TurnList<T>(b: Buckets<T>, p: nat, n: nat): seq<seq<Item<T>>> {
    seq(n, k requires 0 <= k < n => Turn(b, p, k))
  }

  lemma {:induction false} TurnsJoin<T>(b: Buckets<T>, p: nat, n: nat)
    ensures Flatten(TurnList(b, p, n)) == Taken(HeldFor(b, p), n)
  {
    if n > 0 {
      TurnsJoin(b, p, n - 1);
      assert TurnList(b, p, n)[..n - 1] == TurnList(b, p, n - 1);
      TakenStep(b, p, n - 1);
    }
  }

  /** The rounds keep every peer's operations, in their order. */
  lemma RoundsForPeer<T>(b: Buckets<T>, keys: seq<nat>, n: nat, p: nat)
    requires Tagged(b) && Rising(keys) && p in keys
    ensures Filter(RoundsTo(b, keys, n), ForPeer(p)) == Taken(HeldFor(b, p), n)
  {
    forall k | 0 <= k < n ensures TurnList(b, p, n)[k] == Filter(RoundList(b, keys, n)[k], ForPeer(p)) {
      RoundForPeer(b, keys, k, p);
    }
    FilterFlatten(RoundList(b, keys, n), ForPeer(p), TurnList(b, p, n));
    TurnsJoin(b, p, n);
  }

  /** And they hold nothing for other peers. */
  lemma RoundsForOthers<T>(b: Buckets<T>, keys: seq<nat>, n: nat, p: nat)
    requires Tagged(b) && Rising(keys) && p !in keys
    ensures Filter(RoundsTo(b, keys, n), ForPeer(p)) == []
  {
    var none: seq<seq<Item<T>>> := seq(n, k => []);
    forall k | 0 <= k < n ensures none[k] == Filter(RoundList(b, keys, n)[k], ForPeer(p)) {
      RoundForPeer(b, keys, k, p);
    }
    FilterFlatten(RoundList(b, keys, n), ForPeer(p), none);
    FlattenNone(none);
  }

  lemma {:induction false} FlattenNone<T>(parts: seq<seq<T>>)
    requires forall k :: 0 <= k < |parts| ==> parts[k] == []
    ensures Flatten(parts) == []
  {
    if parts != [] {
      FlattenNone(parts[..|parts| - 1]);
    }
  }

  /** Interleaving keeps every peer's operations, all of them and in their order. */
  lemma KeepsPeers<T>(b: Buckets<T>, p: nat)
    requires Tagged(b)
    ensures Filter(RoundRobin(b), ForPeer(p)) == HeldFor(b, p)
  {
    SortedKeysProperties(b.Keys);
    LongestOf(b, p);
    if p in b {
      RoundsForPeer(b, SortedKeys(b.Keys), Longest(b), p);
    } else {
      RoundsForOthers(b, SortedKeys(b.Keys), Longest(b), p);
    }
  }

  /** Further rounds are empty. */
  lemma {:induction false} RoundsBeyond<T>(b: Buckets<T>, keys: seq<nat>, n: nat, m: nat)
    requires n <= m && forall p: nat :: |HeldFor(b, p)| <= n
    ensures RoundsTo(b, keys, m) == RoundsTo(b, keys, n)
  {
    if n < m {
      RoundsBeyond(b, keys, n, m - 1);
      EmptyRound(b, keys, m - 1);
      assert RoundList(b, keys, m)[..m - 1] == RoundList(b, keys, m - 1);
    }
  }

  lemma {:induction false} EmptyRound<T>(b: Buckets<T>, keys: seq<nat>, k: nat)
    requires forall p: nat :: |HeldFor(b, p)| <= k
    ensures RoundOf(b, keys, k) == []
  {
    if keys != [] {
      EmptyRound(b, keys[..|keys| - 1], k);
    }
  }

  // ----- the order of the rounds

  /** How many operations for the same peer stand before place i. */
  function TurnAt<T>(out: seq<Item<T>>, i: nat): nat
    requires i < |out|
  {
    |Filter(out[..i], ForPeer(out[i].peer))|
  }

  /** All first operations before all second ones and so on, peers ascending among each. */
  ghost predicate InRounds<T>(out: seq<Item<T>>) {
    forall i, j :: 0 <= i < j < |out| ==>
      TurnAt(out, i) < TurnAt(out, j) || (TurnAt(out, i) == TurnAt(out, j) && out[i].peer < out[j].peer)
  }

  /** The peers of a round ascend, are listed, and have an operation for it. */
  predicate OnePerPeer<T>(b: Buckets<T>, keys: seq<nat>, k: nat, round: seq<Item<T>>) {
    && (forall i, j :: 0 <= i < j < |round| ==> round[i].peer < round[j].peer)
    && (forall i :: 0 <= i < |round| ==> round[i].peer in keys && k < |HeldFor(b, round[i].peer)|)
  }

  lemma {:induction false} RoundPeers<T>(b: Buckets<T>, keys: seq<nat>, k: nat)
    requires Tagged(b) && Rising(keys)
    ensures OnePerPeer(b, keys, k, RoundOf(b, keys, k))
  {
    if keys != [] {
      var n := |keys| - 1;
      RoundPeers(b, keys[..n], k);
      OneMorePeer(b, keys, k, RoundOf(b, keys[..n], k), Turn(b, keys[n], k));
    }
  }

  lemma OneMorePeer<T>(b: Buckets<T>, keys: seq<nat>, k: nat, before: seq<Item<T>>, turn: seq<Item<T>>)
    requires keys != [] && Rising(keys) && OnePerPeer(b, keys[..|keys| - 1], k, before)
    requires Tagged(b) && turn == Turn(b, keys[|keys| - 1], k)
    ensures OnePerPeer(b, keys, k, before + turn)
  {
    var n := |keys| - 1;
    forall i | 0 <= i < |before| ensures before[i].peer < keys[n] && before[i].peer in keys {
      var j :| 0 <= j < n && keys[..n][j] == before[i].peer;
      assert keys[j] == before[i].peer;
    }
    assert turn != [] ==> turn[0].peer == keys[n];
  }

  lemma TurnInRound<T>(b: Buckets<T>, keys: seq<nat>, k: nat, before: seq<Item<T>>, round: seq<Item<T>>, i: nat)
    requires Tagged(b) && Rising(keys) && OnePerPeer(b, keys, k, round) && i < |round|
    requires before == RoundsTo(b, keys, k)
    ensures TurnAt(before + round, |before| + i) == k
  {
    var p := round[i].peer;
    RoundsForPeer(b, keys, k, p);
    assert (before + round)[..|before| + i] == before + round[..i];
    FilterConcat(before, round[..i], ForPeer(p));
    FilterNone(round[..i], ForPeer<T>(p));
  }

  lemma TurnsInRound<T>(b: Buckets<T>, keys: seq<nat>, k: nat, before: seq<Item<T>>, round: seq<Item<T>>)
    requires Tagged(b) && Rising(keys) && OnePerPeer(b, keys, k, round) && before == RoundsTo(b, keys, k)
    ensures forall i :: |before| <= i < |before + round| ==> TurnAt(before + round, i) == k
  {
    forall i | |before| <= i < |before + round| ensures TurnAt(before + round, i) == k {
      TurnInRound(b, keys, k, before, round, i - |before|);
    }
  }

  lemma OrderExtends<T>(before: seq<Item<T>>, round: seq<Item<T>>, k: nat)
    requires InRounds(before) && forall i :: 0 <= i < |before| ==> TurnAt(before, i) < k
    requires forall i :: |before| <= i < |before + round| ==> TurnAt(before + round, i) == k
    requires forall i, j :: 0 <= i < j < |round| ==> round[i].peer < round[j].peer
    ensures InRounds(before + round)
    ensures forall i :: 0 <= i < |before + round| ==> TurnAt(before + round, i) < k + 1
  {
    var out, m := before + round, |before|;
    forall i | 0 <= i < m ensures TurnAt(out, i) == TurnAt(before, i) {
      assert out[..i] == before[..i];
    }
    forall i, j | 0 <= i < j < |out|
      ensures TurnAt(out, i) < TurnAt(out, j) || (TurnAt(out, i) == TurnAt(out, j) && out[i].peer < out[j].peer)
    {
      if j < m {
        assert TurnAt(before, i) <= TurnAt(before, j);
      } else if i >= m {
        assert round[i - m].peer < round[j - m].peer;
      }
    }
  }

  lemma {:induction false} RoundsInOrder<T>(b: Buckets<T>, keys: seq<nat>, n: nat)
    requires Tagged(b) && Rising(keys)
    ensures var out := RoundsTo(b, keys, n);
            InRounds(out) && forall i :: 0 <= i < |out| ==> TurnAt(out, i) < n
  {
    if n == 0 {
      assert RoundsTo(b, keys, 0) == [];
    } else {
      var before, round := RoundsTo(b, keys, n - 1), RoundOf(b, keys, n - 1);
      RoundsInOrder(b, keys, n - 1);
      RoundPeers(b, keys, n - 1);
      TurnsInRound(b, keys, n - 1, before, round);
      OrderExtends(before, round, n - 1);
      RoundsStep(b, keys, n - 1);
    }
  }

  /** Round robin gives every peer's operations in their order, one per peer and round, peers ascending. */
  lemma RobinInOrder<T>(b: Buckets<T>)
    requires Tagged(b)
    ensures InRounds(RoundRobin(b)) && forall p: nat :: Filter(RoundRobin(b), ForPeer(p)) == HeldFor(b, p)
  {
    SortedKeysProperties(b.Keys);
    RoundsInOrder(b, SortedKeys(b.Keys), Longest(b));
    forall p: nat ensures Filter(RoundRobin(b), ForPeer(p)) == HeldFor(b, p) {
      KeepsPeers(b, p);
    }
  }

  // ----- interleaving a list by peer

  function PeersOf<T>(ops: seq<Item<T>>): set<nat> {
    if ops == [] then {} else PeersOf(ops[..|ops| - 1]) + {ops[|ops| - 1].peer}
  }

  lemma ByPeerTagged<T>(ops: seq<Item<T>>)
    ensures Tagged(ByPeer(ops)) && forall p: nat :: HeldFor(ByPeer(ops), p) == Filter(ops, ForPeer(p))
  {
    forall p, i | p in ByPeer(ops) && 0 <= i < |ByPeer(ops)[p]| ensures ByPeer(ops)[p][i].peer == p {
      FilterIn(ops, ForPeer(p), ByPeer(ops)[p][i]);
    }
    forall p: nat ensures HeldFor(ByPeer(ops), p) == Filter(ops, ForPeer(p)) {
      PeersHas(ops, p);
    }
  }

  function ByPeer<T>(ops: seq<Item<T>>): Buckets<T> { map p | p in PeersOf(ops) :: Filter(ops, ForPeer(p)) }

  lemma {:induction false} PeersHas<T>(ops: seq<Item<T>>, p: nat)
    ensures p in PeersOf(ops) <==> Filter(ops, ForPeer(p)) != []
  {
    if ops != [] {
      PeersHas(ops[..|ops| - 1], p);
    }
  }

  /** The list the round-robin builder makes is left as it is. */
  lemma InterleavedIsFixed<T>(b: Buckets<T>)
    requires Tagged(b)
    ensures RoundRobin(ByPeer(RoundRobin(b))) == RoundRobin(b)
  {
    var ops := RoundRobin(b);
    var c := ByPeer(ops);
    forall p: nat ensures HeldFor(c, p) == HeldFor(b, p) {
      KeepsPeers(b, p);
      PeersHas(ops, p);
    }
    SameBuckets(b, c);
  }

  /** Buckets that differ in empty entries only give the same rounds. */
  lemma SameBuckets<T>(b: Buckets<T>, c: Buckets<T>)
    requires forall p: nat :: HeldFor(c, p) == HeldFor(b, p)
    ensures RoundRobin(c) == RoundRobin(b)
  {
    var m := if Longest(b) <= Longest(c) then Longest(c) else Longest(b);
    SortedKeysProperties(b.Keys);
    SortedKeysProperties(c.Keys);
    forall p: nat ensures |HeldFor(b, p)| <= Longest(b) && |HeldFor(c, p)| <= Longest(c) {
      LongestOf(b, p);
      LongestOf(c, p);
    }
    RoundsBeyond(b, SortedKeys(b.Keys), Longest(b), m);
    RoundsBeyond(c, SortedKeys(c.Keys), Longest(c), m);
    SameRounds(b, SortedKeys(b.Keys), c, SortedKeys(c.Keys), m);
  }

  lemma SameRounds<T>(b: Buckets<T>, keys: seq<nat>, c: Buckets<T>, others: seq<nat>, n: nat)
    requires Rising(keys) && Rising(others) && forall p: nat :: HeldFor(c, p) == HeldFor(b, p)
    requires (forall p: nat :: p in keys <==> p in b) && (forall p: nat :: p in others <==> p in c)
    ensures RoundsTo(b, keys, n) == RoundsTo(c, others, n)
  {
    forall k | 0 <= k < n ensures RoundList(b, keys, n)[k] == RoundList(c, others, n)[k] {
      SameRound(b, keys, c, others, k);
    }
    assert RoundList(b, keys, n) == RoundList(c, others, n);
  }

  lemma EnoughRounds<T>(b: Buckets<T>, n: nat)
    requires forall p: nat :: |HeldFor(b, p)| <= n
    ensures RoundsTo(b, SortedKeys(b.Keys), n) == RoundRobin(b)
  {
    var m := if Longest(b) <= n then n else Longest(b);
    forall p: nat ensures |HeldFor(b, p)| <= Longest(b) {
      LongestOf(b, p);
    }
    RoundsBeyond(b, SortedKeys(b.Keys), n, m);
    RoundsBeyond(b, SortedKeys(b.Keys), Longest(b), m);
  }

  ghost predicate Grouped<T>(b: Buckets<T>, ops: seq<Item<T>>) {
    b.Keys == PeersOf(ops) && forall p: nat :: HeldFor(b, p) == Filter(ops, ForPeer(p))
  }

  lemma GroupStep<T>(b: Buckets<T>, ops: seq<Item<T>>, i: nat)
    requires i < |ops| && Grouped(b, ops[..i])
    ensures Grouped(b[ops[i].peer := HeldFor(b, ops[i].peer) + [ops[i]]], ops[..i + 1])
  {
    var after := b[ops[i].peer := HeldFor(b, ops[i].peer) + [ops[i]]];
    assert ops[..i + 1][..i] == ops[..i];
    forall p: nat ensures HeldFor(after, p) == Filter(ops[..i + 1], ForPeer(p)) {
      assert HeldFor(b, p) == Filter(ops[..i], ForPeer(p));
    }
  }

  method GroupByPeer<T>(ops: seq<Item<T>>) returns (b: Buckets<T>)
    ensures b == ByPeer(ops)
  {
    b := map[];
    for i := 0 to |ops|
      invariant Grouped(b, ops[..i])
    {
      GroupStep(b, ops, i);
      b := b[ops[i].peer := HeldFor(b, ops[i].peer) + [ops[i]]];
    }
    assert ops[..|ops|] == ops;
    forall p | p in b ensures b[p] == Filter(ops, ForPeer(p)) {
      assert HeldFor(b, p) == Filter(ops, ForPeer(p));
    }
  }

  /** How many operations the peers listed still have from round k on. */
  function LeftOver<T>(b: Buckets<T>, keys: seq<nat>, k: nat): nat {
    if keys == [] then 0 else
      var len := |HeldFor(b, keys[|keys| - 1])|;
      LeftOver(b, keys[..|keys| - 1], k) + (if k < len then len - k else 0)
  }

  lemma {:induction false} NothingLeft<T>(b: Buckets<T>, keys: seq<nat>, k: nat)
    requires LeftOver(b, keys, k) == 0
    ensures forall p: nat :: p in keys ==> |HeldFor(b, p)| <= k
  {
    if keys != [] {
      NothingLeft(b, keys[..|keys| - 1], k);
      assert keys == keys[..|keys| - 1] + [keys[|keys| - 1]];
    }
  }

  lemma {:induction false} RoundTakes<T>(b: Buckets<T>, keys: seq<nat>, k: nat)
    ensures LeftOver(b, keys, k) == LeftOver(b, keys, k + 1) + |RoundOf(b, keys, k)|
  {
    if keys != [] {
      RoundTakes(b, keys[..|keys| - 1], k);
    }
  }

  lemma RoundsStep<T>(b: Buckets<T>, keys: seq<nat>, k: nat)
    ensures RoundsTo(b, keys, k + 1) == RoundsTo(b, keys, k) + RoundOf(b, keys, k)
  {
    assert RoundList(b, keys, k + 1)[..k] == RoundList(b, keys, k);
  }

  function Done<T>(b: Buckets<T>, p: nat, k: nat): nat { if k < |HeldFor(b, p)| then k else |HeldFor(b, p)| }

  /** Every peer listed has given its operations of the first k rounds, the first i peers one round more. */
  predicate ProgressAt<T>(b: Buckets<T>, peers: seq<nat>, progress: map<nat, nat>, i: nat, k: nat) {
    forall j :: 0 <= j < |peers| ==>
        peers[j] in progress && progress[peers[j]] == Done(b, peers[j], if j < i then k + 1 else k)
  }

  lemma RoundPrefix<T>(b: Buckets<T>, peers: seq<nat>, i: nat, k: nat)
    requires i < |peers|
    ensures RoundOf(b, peers[..i + 1], k) == RoundOf(b, peers[..i], k) + Turn(b, peers[i], k)
  {
    assert peers[..i + 1] == peers[..i] + [peers[i]];
    RoundAppend(b, peers[..i], peers[i], k);
  }

  lemma ProgressStep<T>(b: Buckets<T>, peers: seq<nat>, progress: map<nat, nat>, i: nat, k: nat)
    requires Rising(peers) && ProgressAt(b, peers, progress, i, k) && i < |peers|
    ensures peers[i] in progress
    ensures progress[peers[i]] < |HeldFor(b, peers[i])| <==> k < |HeldFor(b, peers[i])|
    ensures k < |HeldFor(b, peers[i])| ==> progress[peers[i]] == k
    ensures ProgressAt(b, peers, if k < |HeldFor(b, peers[i])| then progress[peers[i] := k + 1] else progress, i + 1, k)
  {
  }

  /** One pass over the peers: each with an operation left gives its next. */
  method Pass<T>(b: Buckets<T>, peers: seq<nat>, before: map<nat, nat>, ghost k: nat)
    returns (out: seq<Item<T>>, progress: map<nat, nat>)
    requires Rising(peers) && ProgressAt(b, peers, before, 0, k)
    ensures out == RoundOf(b, peers, k) && ProgressAt(b, peers, progress, 0, k + 1)
  {
    out, progress := [], before;
    for i := 0 to |peers|
      invariant out == RoundOf(b, peers[..i], k)
      invariant ProgressAt(b, peers, progress, i, k)
    {
      var idx, bucket := progress[peers[i]], HeldFor(b, peers[i]);
      RoundPrefix(b, peers, i, k);
      ProgressStep(b, peers, progress, i, k);
      if idx < |bucket| {
        out := out + [bucket[idx]];
        progress := progress[peers[i] := idx + 1];
      }
    }
    assert peers[..|peers|] == peers;
  }

  method InterleaveP2pOpsByPeer<T>(ops: seq<Item<T>>) returns (interleaved: seq<Item<T>>)
    ensures interleaved == RoundRobin(ByPeer(ops)) && InRounds(interleaved)
    ensures forall p: nat :: Filter(interleaved, ForPeer(p)) == Filter(ops, ForPeer(p))
  {
    var byPeer := GroupByPeer(ops);
    var peers := SortedKeys(byPeer.Keys);
    SortedKeysProperties(byPeer.Keys);
    var progress: map<nat, nat> := map p | p in byPeer :: 0;
    var remaining := CountOps(byPeer, peers);
    interleaved := [];
    ghost var k := 0;
    while remaining > 0
      invariant interleaved == RoundsTo(byPeer, peers, k) && remaining == LeftOver(byPeer, peers, k)
      invariant ProgressAt(byPeer, peers, progress, 0, k)
      decreases remaining
    {
      var out;
      out, progress := Pass(byPeer, peers, progress, k);
      RoundTaken(byPeer, peers, k);
      interleaved := interleaved + out;
      remaining := remaining - |out|;
      k := k + 1;
    }
    AllTaken(byPeer, k);
    ByPeerTagged(ops);
    RobinInOrder(byPeer);
  }

  /** A round is added to those before it, and what it takes is no longer left over. */
  lemma RoundTaken<T>(b: Buckets<T>, keys: seq<nat>, k: nat)
    requires LeftOver(b, keys, k) > 0
    ensures RoundsTo(b, keys, k + 1) == RoundsTo(b, keys, k) + RoundOf(b, keys, k)
    ensures LeftOver(b, keys, k) == LeftOver(b, keys, k + 1) + |RoundOf(b, keys, k)| && RoundOf(b, keys, k) != []
  {
    RoundTakes(b, keys, k);
    RoundsStep(b, keys, k);
    SomeTurn(b, keys, k);
  }

  /** Once nothing is left over, the rounds so far are all rounds. */
  lemma AllTaken<T>(b: Buckets<T>, k: nat)
    requires LeftOver(b, SortedKeys(b.Keys), k) == 0
    ensures RoundsTo(b, SortedKeys(b.Keys), k) == RoundRobin(b)
  {
    SortedKeysProperties(b.Keys);
    NothingLeft(b, SortedKeys(b.Keys), k);
    EnoughRounds(b, k);
  }

  method CountOps<T>(b: Buckets<T>, peers: seq<nat>) returns (n: nat)
    ensures n == LeftOver(b, peers, 0)
  {
    n := 0;
    for i := 0 to |peers|
      invariant n == LeftOver(b, peers[..i], 0)
    {
      assert peers[..i + 1][..i] == peers[..i];
      n := n + |HeldFor(b, peers[i])|;
    }
    assert peers[..|peers|] == peers;
  }

  /** While operations are left, a pass gives at least one. */
  lemma {:induction false} SomeTurn<T>(b: Buckets<T>, keys: seq<nat>, k: nat)
    requires LeftOver(b, keys, k) > 0
    ensures RoundOf(b, keys, k) != []
  {
    if k >= |HeldFor(b, keys[|keys| - 1])| {
      SomeTurn(b, keys[..|keys| - 1], k);
    }
  }

  // ----- building the operations of a plan

  function Wrapped<T>(p: nat, ops: seq<T>): seq<Item<T>> { seq(|ops|, i requires 0 <= i < |ops| => Item(p, ops[i])) }

  /** The plan's operations but for those of the rank itself. */
  function Wrap<T>(plan: map<nat, seq<T>>, copyRank: Option<nat>): Buckets<T> {
    map p | p in plan && Some(p) != copyRank :: Wrapped(p, plan[p])
  }

  function CopiesOf<T>(plan: map<nat, seq<T>>, copyRank: Option<nat>): seq<T> {
    match copyRank case Some(p) => HeldFor(plan, p) case None => []
  }

  /** The peers that have come to pass k without being done. */
  function Open<T>(plan: map<nat, seq<T>>, k: nat): set<nat> { set p | p in plan && |plan[p]| >= k }

  /** The builder of the send and of the receive operations, one pass per round. */
  method BuildOps<T>(plan: map<nat, seq<T>>, copyRank: Option<nat>) returns (p2p: seq<Item<T>>, copies: seq<T>)
    ensures p2p == RoundRobin(Wrap(plan, copyRank)) && copies == CopiesOf(plan, copyRank) && InRounds(p2p)
    ensures forall p: nat :: Filter(p2p, ForPeer(p)) == Listed(plan, copyRank, p)
  {
    var unfinished, progress := plan.Keys, map p | p in plan :: 0;
    p2p, copies := [], [];
    ghost var k := 0;
    ghost var b := Wrap(plan, copyRank);
    assert unfinished == Open(plan, 0);
    while unfinished != {}
      invariant unfinished == Open(plan, k) && forall p :: p in unfinished ==> p in progress && progress[p] == k
      invariant p2p == RoundsTo(b, SortedKeys(b.Keys), k) && copies == Taken(CopiesOf(plan, copyRank), k)
      decreases Longest(plan) + 1 - k
    {
      ghost var some :| some in unfinished;
      LongestOf(plan, some);
      var out, copied, finished;
      out, copied, finished, progress := BuildPass(plan, copyRank, unfinished, progress, k);
      RoundsStep(b, SortedKeys(b.Keys), k);
      p2p, copies := p2p + out, copies + copied;
      unfinished := unfinished - finished;
      k := k + 1;
    }
    BuildEnds(plan, copyRank, k);
  }

  lemma BuildEnds<T>(plan: map<nat, seq<T>>, copyRank: Option<nat>, k: nat)
    requires Open(plan, k) == {}
    ensures var b := Wrap(plan, copyRank);
            RoundsTo(b, SortedKeys(b.Keys), k) == RoundRobin(b) && InRounds(RoundRobin(b))
    ensures Taken(CopiesOf(plan, copyRank), k) == CopiesOf(plan, copyRank)
    ensures forall p: nat :: Filter(RoundRobin(Wrap(plan, copyRank)), ForPeer(p)) == Listed(plan, copyRank, p)
  {
    var b := Wrap(plan, copyRank);
    AllDone(plan, copyRank, k);
    EnoughRounds(b, k);
    RobinInOrder(b);
  }

  /** What the plan lists for a peer, if it is not the rank itself. */
  function Listed<T>(plan: map<nat, seq<T>>, copyRank: Option<nat>, p: nat): seq<Item<T>> {
    if Some(p) == copyRank then [] else Wrapped(p, HeldFor(plan, p))
  }

  lemma AllDone<T>(plan: map<nat, seq<T>>, copyRank: Option<nat>, k: nat)
    requires Open(plan, k) == {}
    ensures forall p: nat :: |HeldFor(Wrap(plan, copyRank), p)| <= k
    ensures Taken(CopiesOf(plan, copyRank), k) == CopiesOf(plan, copyRank)
  {
    forall p: nat ensures |HeldFor(plan, p)| <= k && |HeldFor(Wrap(plan, copyRank), p)| <= |HeldFor(plan, p)| {
      assert p in plan ==> p !in Open(plan, k);
    }
  }

  /** One pass: every unfinished rank gives its k-th operation, or is found finished. */
  method BuildPass<T>(plan: map<nat, seq<T>>, copyRank: Option<nat>, unfinished: set<nat>, before: map<nat, nat>,
                      ghost k: nat)
    returns (out: seq<Item<T>>, copied: seq<T>, finished: set<nat>, progress: map<nat, nat>)
    requires unfinished == Open(plan, k) && forall p :: p in unfinished ==> p in before && before[p] == k
    ensures out == RoundOf(Wrap(plan, copyRank), SortedKeys(Wrap(plan, copyRank).Keys), k)
    ensures Taken(CopiesOf(plan, copyRank), k) + copied == Taken(CopiesOf(plan, copyRank), k + 1)
    ensures unfinished - finished == Open(plan, k + 1)
    ensures forall p :: p in unfinished - finished ==> p in progress && progress[p] == k + 1
  {
    var ranks := SortedKeys(unfinished);
    SortedKeysProperties(unfinished);
    forall j | 0 <= j < |ranks| ensures ranks[j] in unfinished {
      assert ranks[j] in ranks;
    }
    out, copied, finished, progress := BuildRanks(plan, copyRank, ranks, before, k);
    PassEnds(plan, ranks, unfinished, k, finished, progress);
    OpenRound(plan, copyRank, ranks, k);
    OpenOwn(plan, copyRank, ranks, k);
  }

  method BuildRanks<T>(plan: map<nat, seq<T>>, copyRank: Option<nat>, ranks: seq<nat>, before: map<nat, nat>,
                       ghost k: nat)
    returns (out: seq<Item<T>>, copied: seq<T>, finished: set<nat>, progress: map<nat, nat>)
    requires Rising(ranks) && forall j :: 0 <= j < |ranks| ==>
               ranks[j] in plan && ranks[j] in before && before[ranks[j]] == k
    ensures out == RoundOf(Wrap(plan, copyRank), ranks, k) && copied == OwnTurn(plan, copyRank, ranks, k)
    ensures Passed(plan, ranks, |ranks|, k, finished, progress)
  {
    ghost var b := Wrap(plan, copyRank);
    out, copied, finished, progress := [], [], {}, before;
    for i := 0 to |ranks|
      invariant out == RoundOf(b, ranks[..i], k) && copied == OwnTurn(plan, copyRank, ranks[..i], k)
      invariant Passed(plan, ranks, i, k, finished, progress)
    {
      OneMoreRank(plan, copyRank, ranks, i, k);
      var turn, own, more := BuildTurn(plan, copyRank, ranks[i], progress[ranks[i]]);
      PassedStep(plan, ranks, i, k, finished, progress);
      out, copied := out + turn, copied + own;
      if more {
        progress := progress[ranks[i] := progress[ranks[i]] + 1];
      } else {
        finished := finished + {ranks[i]};
      }
    }
    assert ranks[..|ranks|] == ranks;
  }

  /** The i first ranks of a pass have advanced or are found finished; the others are as they were. */
  ghost predicate Passed<T>(plan: map<nat, seq<T>>, ranks: seq<nat>, i: nat, k: nat, finished: set<nat>,
                            progress: map<nat, nat>)
  {
    && (forall j :: 0 <= j < |ranks| ==>
          ranks[j] in progress && (ranks[j] in finished <==> j < i && k >= |HeldFor(plan, ranks[j])|))
    && (forall j :: 0 <= j < |ranks| ==>
          progress[ranks[j]] == if j < i && k < |HeldFor(plan, ranks[j])| then k + 1 else k)
    && (forall p: nat :: p in finished ==> p in ranks)
  }

  lemma PassedStep<T>(plan: map<nat, seq<T>>, ranks: seq<nat>, i: nat, k: nat, finished: set<nat>,
                      progress: map<nat, nat>)
    requires i < |ranks| && Rising(ranks) && Passed(plan, ranks, i, k, finished, progress)
    ensures var more := k < |HeldFor(plan, ranks[i])|;
            Passed(plan, ranks, i + 1, k, if more then finished else finished + {ranks[i]},
                   if more then progress[ranks[i] := progress[ranks[i]] + 1] else progress)
  {
  }

  lemma PassEnds<T>(plan: map<nat, seq<T>>, ranks: seq<nat>, unfinished: set<nat>, k: nat, finished: set<nat>,
                    progress: map<nat, nat>)
    requires unfinished == Open(plan, k) && (forall p: nat :: p in ranks <==> p in unfinished)
    requires Passed(plan, ranks, |ranks|, k, finished, progress)
    ensures unfinished - finished == Open(plan, k + 1)
    ensures forall p :: p in unfinished - finished ==> p in progress && progress[p] == k + 1
  {
    forall p: nat | p in unfinished ensures p in progress && (p in finished <==> k >= |HeldFor(plan, p)|)
      && (p !in finished ==> progress[p] == k + 1)
    {
      var j :| 0 <= j < |ranks| && ranks[j] == p;
    }
  }

  lemma OneMoreRank<T>(plan: map<nat, seq<T>>, copyRank: Option<nat>, ranks: seq<nat>, i: nat, k: nat)
    requires i < |ranks| && Rising(ranks)
    ensures RoundOf(Wrap(plan, copyRank), ranks[..i + 1], k)
         == RoundOf(Wrap(plan, copyRank), ranks[..i], k) + Turn(Wrap(plan, copyRank), ranks[i], k)
    ensures OwnTurn(plan, copyRank, ranks[..i + 1], k)
         == OwnTurn(plan, copyRank, ranks[..i], k) + OwnTurn(plan, copyRank, [ranks[i]], k)
  {
    assert ranks[..i + 1] == ranks[..i] + [ranks[i]];
    RoundAppend(Wrap(plan, copyRank), ranks[..i], ranks[i], k);
    assert ranks[i] !in ranks[..i];
  }

  /** Every rank with a k-th operation is among the unfinished ones. */
  lemma OpenRound<T>(plan: map<nat, seq<T>>, copyRank: Option<nat>, ranks: seq<nat>, k: nat)
    requires Rising(ranks) && forall p: nat :: p in ranks <==> p in Open(plan, k)
    ensures RoundOf(Wrap(plan, copyRank), ranks, k)
         == RoundOf(Wrap(plan, copyRank), SortedKeys(Wrap(plan, copyRank).Keys), k)
  {
    var b := Wrap(plan, copyRank);
    SortedKeysProperties(b.Keys);
    forall p: nat
      ensures p in ranks && Active(b, k)(p) <==> p in SortedKeys(b.Keys) && Active(b, k)(p)
    {
      OpenHas(plan, copyRank, p, k);
    }
    SameRound(b, ranks, b, SortedKeys(b.Keys), k);
  }

  lemma OpenHas<T>(plan: map<nat, seq<T>>, copyRank: Option<nat>, p: nat, k: nat)
    ensures Active(Wrap(plan, copyRank), k)(p) ==> p in Wrap(plan, copyRank) && p in Open(plan, k)
  {
  }

  lemma OpenOwn<T>(plan: map<nat, seq<T>>, copyRank: Option<nat>, ranks: seq<nat>, k: nat)
    requires forall p: nat :: p in ranks <==> p in Open(plan, k)
    ensures Taken(CopiesOf(plan, copyRank), k) + OwnTurn(plan, copyRank, ranks, k)
            == Taken(CopiesOf(plan, copyRank), k + 1)
  {
  }

  method BuildTurn<T>(plan: map<nat, seq<T>>, copyRank: Option<nat>, rank: nat, at: nat)
    returns (out: seq<Item<T>>, copied: seq<T>, more: bool)
    requires rank in plan
    ensures out == Turn(Wrap(plan, copyRank), rank, at) && copied == OwnTurn(plan, copyRank, [rank], at)
    ensures more <==> at < |HeldFor(plan, rank)|
  {
    var operations := plan[rank];
    out, copied, more := [], [], at < |operations|;
    if more {
      if Some(rank) == copyRank {
        copied := [operations[at]];
      } else {
        out := [Item(rank, operations[at])];
      }
    }
  }

  function OwnTurn<T>(plan: map<nat, seq<T>>, copyRank: Option<nat>, ranks: seq<nat>, k: nat): seq<T> {
    if copyRank.Some? && copyRank.value in ranks && k < |HeldFor(plan, copyRank.value)|
    then [plan[copyRank.value][k]] else []
  }

  /** A plan's operations without the rank's own go out in an order that interleaving leaves alone. */
  lemma BuiltIsFixed<T>(plan: map<nat, seq<T>>, copyRank: Option<nat>)
    ensures RoundRobin(ByPeer(RoundRobin(Wrap(plan, copyRank)))) == RoundRobin(Wrap(plan, copyRank))
  {
    InterleavedIsFixed(Wrap(plan, copyRank));
  }

  // ----- the cache of contiguous training slices

  /** Slicing itself, and whether its result needs copying to become contiguous. */
  datatype Slicer<!X, !S> = Slicer(cut: (X, seq<TransferPlan.Slice>) -> S, contiguous: S -> bool)

  class SliceContext<X, S> {
    const slicer: Slicer<X, S>
    var cache: map<(nat, seq<TransferPlan.Slice>), S>

    /** Every cached slice is what slicing afresh would give. */
    ghost predicate Valid(params: map<nat, X>)
      reads this
    {
      forall key :: key in cache ==> key.0 in params && cache[key] == slicer.cut(params[key.0], key.1)
    }

    constructor (slicer: Slicer<X, S>)
      ensures this.slicer == slicer && cache == map[]
    {
      this.slicer, cache := slicer, map[];
    }

    /** The slice an operation needs on one side; only training slices are made contiguous and kept. */
    method SliceTensor(ghost params: map<nat, X>, tensor: X, op: TransferPlan.CommOp, isTrain: bool) returns (r: S)
      requires Valid(params)
      requires isTrain ==> op.sendShard.raw.name in params && params[op.sendShard.raw.name] == tensor
      modifies this`cache
      ensures r == slicer.cut(tensor, if isTrain then op.trainSlices else op.infSlices) && Valid(params)
      ensures cache == if !isTrain || slicer.contiguous(r) then old(cache)
                       else old(cache)[(op.sendShard.raw.name, op.trainSlices) := r]
    {
      var slices := if isTrain then op.trainSlices else op.infSlices;
      r := slicer.cut(tensor, slices);
      if !isTrain {
        return;
      }
      if !slicer.contiguous(r) {
        var key := (op.sendShard.raw.name, slices);
        if key in cache {
          assert cache == cache[key := r];
          return cache[key];
        }
        cache := cache[key := r];
      }
    }
  }
}
