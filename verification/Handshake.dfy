/**
 The colocated handshake (awex/writer/nccl_writer.py and awex/reader/nccl_reader.py): a
 writer shares its weights with the reader on its device, waits until the reader is done
 with them, frees them and says so; the readers meet at a barrier in between. The two
 sides speak through keys in a store, one set per pair and step.
 */
module Handshake {
  import opened Wrappers

  datatype Key = Serialized(pair: nat, step: nat) | Finished(pair: nat, step: nat) | Written(pair: nat, step: nat)

  /** How far a party is: its step, counted from 0, and its place in that step's program. */
  datatype Pos = At(k: nat, pc: nat)

  // The writer's places: 0 share and announce, 1 wait for the reader, 2 delete the answer,
  // 3 free the shared groups, 4 announce that they are free.
  // The reader's places: 0 wait and map, 1 exchange with its peers, 2 drop the mapping, 3 answer,
  // 4 come to the barrier, 5 wait at it, 6 wait for the writer, take its key and go on.

  /** The store's values name the writer's step a key was put in; what is shared and mapped is named likewise. */
  datatype State = State(writers: seq<Pos>, readers: seq<Pos>, store: map<Key, nat>,
                         shared: seq<Option<nat>>, mapped: seq<Option<nat>>)

  /** The step ids the callers pass, and which readers each reader exchanges weights with. */
  datatype World = World(pairs: nat, ids: nat -> nat, peers: nat -> set<nat>)

  datatype Move = Writer(pair: nat) | Reader(pair: nat)

  function Start(n: nat): State {
    State(seq(n, i => At(0, 0)), seq(n, i => At(0, 0)), map[], seq(n, i => None), seq(n, i => None))
  }

  predicate Sized(w: World, s: State) {
    |s.writers| == |s.readers| == |s.shared| == |s.mapped| == w.pairs
  }

  /** The party has come at least as far as this place of step j. */
  predicate Reached(pos: Pos, j: nat, pc: nat) { pos.k > j || (pos.k == j && pos.pc >= pc) }

  predicate WriterCan(w: World, s: State, p: nat) {
    && Sized(w, s) && p < w.pairs
    && (s.writers[p].pc == 1 ==> Finished(p, w.ids(s.writers[p].k)) in s.store)
  }

  function WriterMoves(w: World, s: State, p: nat): State
    requires Sized(w, s) && p < w.pairs
  {
    var k, pc := s.writers[p].k, s.writers[p].pc;
    var id := w.ids(k);
    if pc == 0 then s.(shared := s.shared[p := Some(k)], store := s.store[Serialized(p, id) := k],
                       writers := s.writers[p := At(k, 1)])
    else if pc == 1 then s.(writers := s.writers[p := At(k, 2)])
    else if pc == 2 then s.(store := s.store - {Finished(p, id)}, writers := s.writers[p := At(k, 3)])
    else if pc == 3 then s.(shared := s.shared[p := None], writers := s.writers[p := At(k, 4)])
    else s.(store := s.store[Written(p, id) := k], writers := s.writers[p := At(k + 1, 0)])
  }

  ghost predicate ReaderCan(w: World, s: State, p: nat) {
    Sized(w, s) && p < w.pairs &&
    var k, pc := s.readers[p].k, s.readers[p].pc;
    && (pc == 0 ==> Serialized(p, w.ids(k)) in s.store)
    && (pc == 1 ==> forall q: nat :: q < w.pairs && q in w.peers(p) ==> Reached(s.readers[q], k, 1))
    && (pc == 5 ==> forall q: nat :: q < w.pairs ==> Reached(s.readers[q], k, 5))
    && (pc == 6 ==> Written(p, w.ids(k)) in s.store)
  }

  function ReaderMoves(w: World, s: State, p: nat): State
    requires Sized(w, s) && p < w.pairs
  {
    var k, pc := s.readers[p].k, s.readers[p].pc;
    var id := w.ids(k);
    if pc == 0 then
      s.(mapped := s.mapped[p := if Serialized(p, id) in s.store then Some(s.store[Serialized(p, id)]) else None],
         readers := s.readers[p := At(k, 1)])
    else if pc == 2 then s.(mapped := s.mapped[p := None], readers := s.readers[p := At(k, 3)])
    else if pc == 3 then s.(store := s.store[Finished(p, id) := k], readers := s.readers[p := At(k, 4)])
    else if pc == 6 then s.(store := s.store - {Written(p, id)}, readers := s.readers[p := At(k + 1, 0)])
    else s.(readers := s.readers[p := At(k, pc + 1)])
  }

  ghost predicate Can(w: World, s: State, m: Move) {
    if m.Writer? then WriterCan(w, s, m.pair) else ReaderCan(w, s, m.pair)
  }

  function Moves(w: World, s: State, m: Move): State
    requires Sized(w, s) && m.pair < w.pairs
  {
    if m.Writer? then WriterMoves(w, s, m.pair) else ReaderMoves(w, s, m.pair)
  }

  /** The state after a run, any interleaving of the parties' moves. */
  ghost function After(w: World, run: seq<Move>): (s: State)
    ensures Sized(w, s)
  {
    if run == [] then Start(w.pairs)
    else
      var before, m := After(w, run[..|run| - 1]), run[|run| - 1];
      if m.pair < w.pairs then Moves(w, before, m) else before
  }

  ghost predicate IsRun(w: World, run: seq<Move>) {
    run == [] || (IsRun(w, run[..|run| - 1]) && Can(w, After(w, run[..|run| - 1]), run[|run| - 1]))
  }

  /** No step id is used for two steps. */
  ghost predicate Distinct(ids: nat -> nat) {
    forall i: nat, j: nat :: i < j ==> ids(i) != ids(j)
  }

  // ----- what every move keeps

  /** Writer and reader of a pair are in step: the writer waits for the answer, the reader for the next announcement. */
  predicate InStep(wr: Pos, rd: Pos) {
    && wr.pc <= 4 && rd.pc <= 6
    && if wr.k == rd.k then (wr.pc == 0 ==> rd.pc == 0) && (wr.pc >= 2 ==> rd.pc >= 4)
       else wr.k == rd.k + 1 && rd.pc >= 4 && wr.pc <= 1
  }

  ghost predicate KeysMatch(store: map<Key, nat>, ids: nat -> nat, p: nat, wr: Pos, rd: Pos) {
    && (forall j: nat :: Serialized(p, ids(j)) in store <==> Reached(wr, j, 1))
    && (forall j: nat :: Serialized(p, ids(j)) in store ==> store[Serialized(p, ids(j))] == j)
    && (forall j: nat :: Finished(p, ids(j)) in store <==> Reached(rd, j, 4) && !Reached(wr, j, 3))
    && (forall j: nat :: Written(p, ids(j)) in store <==> rd.k <= j < wr.k)
  }

  predicate Holdings(shared: Option<nat>, mapped: Option<nat>, wr: Pos, rd: Pos) {
    && shared == (if 1 <= wr.pc <= 3 then Some(wr.k) else None)
    && mapped == (if 1 <= rd.pc <= 2 then Some(rd.k) else None)
  }

  ghost predicate PairOk(w: World, s: State, p: nat) {
    && Sized(w, s) && p < w.pairs
    && InStep(s.writers[p], s.readers[p])
    && KeysMatch(s.store, w.ids, p, s.writers[p], s.readers[p])
    && Holdings(s.shared[p], s.mapped[p], s.writers[p], s.readers[p])
  }

  ghost predicate AllOk(w: World, s: State) {
    Sized(w, s) && forall p: nat :: p < w.pairs ==> PairOk(w, s, p)
  }

  lemma WriterKeeps(w: World, s: State, p: nat)
    requires Distinct(w.ids) && PairOk(w, s, p) && WriterCan(w, s, p)
    ensures PairOk(w, WriterMoves(w, s, p), p)
  {}

  lemma ReaderKeeps(w: World, s: State, p: nat)
    requires Distinct(w.ids) && PairOk(w, s, p) && ReaderCan(w, s, p)
    ensures PairOk(w, ReaderMoves(w, s, p), p)
  {}

  lemma OthersKeep(w: World, s: State, m: Move, q: nat)
    requires Sized(w, s) && m.pair < w.pairs && q != m.pair && PairOk(w, s, q)
    ensures PairOk(w, Moves(w, s, m), q)
  {
    var t := Moves(w, s, m);
    assert t.writers[q] == s.writers[q] && t.readers[q] == s.readers[q];
    assert forall key: Key :: key.pair == q ==> (key in t.store <==> key in s.store);
  }

  lemma {:induction false} RunKeepsStep(w: World, run: seq<Move>)
    requires Distinct(w.ids) && IsRun(w, run)
    ensures AllOk(w, After(w, run))
  {
    if run != [] {
      var before, m := After(w, run[..|run| - 1]), run[|run| - 1];
      RunKeepsStep(w, run[..|run| - 1]);
      if m.Writer? {
        WriterKeeps(w, before, m.pair);
      } else {
        ReaderKeeps(w, before, m.pair);
      }
      forall q: nat | q < w.pairs ensures PairOk(w, After(w, run), q) {
        if q != m.pair {
          OthersKeep(w, before, m, q);
        }
      }
    }
  }

  // ----- the main results

  /** What a reader has mapped is shared by its writer right now, and is of the step the reader is in. */
  predicate MapsShared(s: State, p: nat) {
    p < |s.mapped| && p < |s.shared| && p < |s.readers| &&
    (s.mapped[p].Some? ==> s.mapped[p] == s.shared[p] == Some(s.readers[p].k))
  }

  lemma MappedIsShared(w: World, run: seq<Move>, p: nat)
    requires Distinct(w.ids) && IsRun(w, run) && p < w.pairs
    ensures MapsShared(After(w, run), p)
  {
    RunKeepsStep(w, run);
    assert PairOk(w, After(w, run), p);
  }

  /** A writer frees its groups only after its reader has dropped its mapping of that step and said so. */
  lemma FreeAfterDrop(w: World, run: seq<Move>, p: nat)
    requires Distinct(w.ids) && p < w.pairs && IsRun(w, run + [Writer(p)])
    requires After(w, run).shared[p].Some? && After(w, run + [Writer(p)]).shared[p].None?
    ensures var s := After(w, run);
            s.mapped[p] == None && Reached(s.readers[p], s.shared[p].value, 4)
  {
    assert (run + [Writer(p)])[..|run|] == run;
    RunKeepsStep(w, run);
    assert PairOk(w, After(w, run), p);
  }

  /** A reader leaves a step only after its writer has freed that step's groups. */
  lemma LeaveAfterFree(w: World, run: seq<Move>, p: nat)
    requires Distinct(w.ids) && p < w.pairs && IsRun(w, run + [Reader(p)])
    requires After(w, run + [Reader(p)]).readers[p].k > After(w, run).readers[p].k
    ensures var s := After(w, run);
            s.writers[p].k > s.readers[p].k && s.shared[p] != Some(s.readers[p].k)
  {
    assert (run + [Reader(p)])[..|run|] == run;
    RunKeepsStep(w, run);
    assert PairOk(w, After(w, run), p);
  }

  /** Reader p is behind reader q, or level with it. */
  predicate NotAhead(a: Pos, b: Pos) { Reached(b, a.k, a.pc) }

  lemma Rearmost(s: State, n: nat) returns (p: nat)
    requires 0 < n <= |s.readers|
    ensures p < n && forall q: nat :: q < n ==> NotAhead(s.readers[p], s.readers[q])
  {
    p := 0;
    for i := 1 to n
      invariant p < i && forall q: nat :: q < i ==> NotAhead(s.readers[p], s.readers[q])
    {
      if !NotAhead(s.readers[p], s.readers[i]) {
        p := i;
      }
    }
  }

  /** In every reachable state some party can move: the pair of the rearmost reader is never stuck. */
  lemma SomeoneCanMove(w: World, run: seq<Move>) returns (m: Move)
    requires Distinct(w.ids) && IsRun(w, run) && w.pairs > 0
    ensures Can(w, After(w, run), m) && IsRun(w, run + [m])
  {
    var s := After(w, run);
    RunKeepsStep(w, run);
    var p := Rearmost(s, w.pairs);
    assert PairOk(w, s, p);
    m := if WriterCan(w, s, p) then Writer(p) else Reader(p);
    if !WriterCan(w, s, p) {
      ReaderIsReady(w, s, p);
    }
    assert (run + [m])[..|run|] == run;
  }

  lemma ReaderIsReady(w: World, s: State, p: nat)
    requires PairOk(w, s, p) && !WriterCan(w, s, p)
    requires forall q: nat :: q < w.pairs ==> NotAhead(s.readers[p], s.readers[q])
    ensures ReaderCan(w, s, p)
  {
    var k := s.readers[p].k;
    assert Serialized(p, w.ids(k)) in s.store <==> Reached(s.writers[p], k, 1);
    assert Written(p, w.ids(k)) in s.store <==> k <= k < s.writers[p].k;
    assert Finished(p, w.ids(s.writers[p].k)) !in s.store;
  }

  // ----- every step ends

  /** The party has not gone past the beginning of step n. */
  predicate UpTo(pos: Pos, n: nat) { pos.k < n || (pos.k == n && pos.pc == 0) }

  ghost predicate AllUpTo(s: State, n: nat) {
    && (forall p :: 0 <= p < |s.writers| ==> UpTo(s.writers[p], n))
    && (forall p :: 0 <= p < |s.readers| ==> UpTo(s.readers[p], n))
  }

  ghost predicate AllAt(s: State, n: nat) {
    && (forall p :: 0 <= p < |s.writers| ==> s.writers[p] == At(n, 0))
    && (forall p :: 0 <= p < |s.readers| ==> s.readers[p] == At(n, 0))
  }

  /** The moves a party with so many places per step has left before step n. */
  function MovesLeft(pos: Pos, places: nat, n: nat): nat {
    var left := (n - pos.k) * places - pos.pc; if left > 0 then left else 0
  }

  function AllLeft(list: seq<Pos>, places: nat, n: nat): nat {
    if list == [] then 0 else AllLeft(list[..|list| - 1], places, n) + MovesLeft(list[|list| - 1], places, n)
  }

  function Distance(s: State, n: nat): nat { AllLeft(s.writers, 5, n) + AllLeft(s.readers, 7, n) }

  lemma {:induction false} OneLess(list: seq<Pos>, p: nat, pos: Pos, places: nat, n: nat)
    requires p < |list| && MovesLeft(pos, places, n) < MovesLeft(list[p], places, n)
    ensures AllLeft(list[p := pos], places, n) < AllLeft(list, places, n)
  {
    var last := |list| - 1;
    if p < last {
      OneLess(list[..last], p, pos, places, n);
      assert list[p := pos][..last] == list[..last][p := pos];
    } else {
      assert list[p := pos][..last] == list[..last];
    }
  }

  /** Until all are at the beginning of step n, some party that is not there yet can move. */
  lemma SomeoneBehind(w: World, s: State, n: nat) returns (m: Move)
    requires AllOk(w, s) && AllUpTo(s, n) && !AllAt(s, n)
    ensures Can(w, s, m) && m.pair < w.pairs
    ensures (if m.Writer? then s.writers[m.pair] else s.readers[m.pair]).k < n
  {
    var p := Rearmost(s, w.pairs);
    assert PairOk(w, s, p);
    if s.readers[p].k == n {
      forall q: nat | q < w.pairs ensures s.readers[q] == At(n, 0) && s.writers[q] == At(n, 0) {
        assert PairOk(w, s, q) && NotAhead(s.readers[p], s.readers[q]);
      }
      assert false;
    } else {
      m := if ReaderCan(w, s, p) then Reader(p) else Writer(p);
      if !ReaderCan(w, s, p) {
        WriterIsReady(w, s, p);
      }
    }
  }

  lemma WriterIsReady(w: World, s: State, p: nat)
    requires PairOk(w, s, p) && !ReaderCan(w, s, p)
    requires forall q: nat :: q < w.pairs ==> NotAhead(s.readers[p], s.readers[q])
    ensures WriterCan(w, s, p) && s.writers[p].k == s.readers[p].k
  {
    var k := s.readers[p].k;
    assert Serialized(p, w.ids(k)) in s.store <==> Reached(s.writers[p], k, 1);
    assert Written(p, w.ids(k)) in s.store <==> k <= k < s.writers[p].k;
    assert Finished(p, w.ids(k)) in s.store <==> Reached(s.readers[p], k, 4) && !Reached(s.writers[p], k, 3);
  }

  lemma MoveIsProgress(w: World, s: State, m: Move, n: nat)
    requires Sized(w, s) && m.pair < w.pairs && PairOk(w, s, m.pair) && AllUpTo(s, n)
    requires (if m.Writer? then s.writers[m.pair] else s.readers[m.pair]).k < n
    ensures var t := Moves(w, s, m);
            AllUpTo(t, n) && Distance(t, n) < Distance(s, n)
  {
    var p, t := m.pair, Moves(w, s, m);
    if m.Writer? {
      OneLess(s.writers, p, t.writers[p], 5, n);
    } else {
      OneLess(s.readers, p, t.readers[p], 7, n);
    }
  }

  lemma OneMoreMove(w: World, run: seq<Move>, n: nat) returns (longer: seq<Move>)
    requires Distinct(w.ids) && IsRun(w, run) && AllUpTo(After(w, run), n) && !AllAt(After(w, run), n)
    ensures IsRun(w, longer) && run <= longer && AllUpTo(After(w, longer), n)
    ensures Distance(After(w, longer), n) < Distance(After(w, run), n)
  {
    RunKeepsStep(w, run);
    var m := SomeoneBehind(w, After(w, run), n);
    longer := run + [m];
    assert longer[..|run|] == run;
    MoveIsProgress(w, After(w, run), m, n);
  }

  /** Every run can be continued until all parties stand at the beginning of a later step. */
  lemma {:induction false} CanReach(w: World, run: seq<Move>, n: nat) returns (whole: seq<Move>)
    requires Distinct(w.ids) && IsRun(w, run) && AllUpTo(After(w, run), n)
    ensures IsRun(w, whole) && run <= whole && AllAt(After(w, whole), n)
    decreases Distance(After(w, run), n)
  {
    if AllAt(After(w, run), n) {
      whole := run;
    } else {
      var longer := OneMoreMove(w, run, n);
      whole := CanReach(w, longer, n);
    }
  }

  function Latest(list: seq<Pos>): (n: nat)
    ensures forall p :: 0 <= p < |list| ==> list[p].k < n
  {
    if list == [] then 0 else
      var n, k := Latest(list[..|list| - 1]), list[|list| - 1].k;
      if k < n then n else k + 1
  }

  /** No pair is left behind: from every reachable state all parties can leave the step they are in. */
  lemma EveryStepEnds(w: World, run: seq<Move>) returns (whole: seq<Move>)
    requires Distinct(w.ids) && IsRun(w, run)
    ensures IsRun(w, whole) && run <= whole
    ensures var s, t := After(w, run), After(w, whole);
            forall p: nat :: p < w.pairs ==> s.writers[p].k < t.writers[p].k && s.readers[p].k < t.readers[p].k
  {
    var s := After(w, run);
    var n := Latest(s.writers + s.readers);
    forall p: nat | p < w.pairs ensures s.writers[p].k < n && s.readers[p].k < n {
      assert (s.writers + s.readers)[p] == s.writers[p] && (s.writers + s.readers)[w.pairs + p] == s.readers[p];
    }
    whole := CanReach(w, run, n);
  }

  // ----- why the step ids must not repeat

  /** The two callers agree on the ids of the steps before n. */
  ghost predicate SameBefore(w: World, v: World, n: nat) {
    w.pairs == v.pairs && w.peers == v.peers && forall k: nat :: k < n ==> w.ids(k) == v.ids(k)
  }

  /** A run that does not go past the beginning of step n does not see the ids from there on. */
  lemma {:induction false} SameRun(w: World, v: World, run: seq<Move>, n: nat)
    requires SameBefore(w, v, n) && IsRun(v, run) && AllUpTo(After(v, run), n)
    ensures IsRun(w, run) && After(w, run) == After(v, run)
  {
    if run != [] {
      var before, m := After(v, run[..|run| - 1]), run[|run| - 1];
      MovesGoOn(v, before, m, n);
      SameRun(w, v, run[..|run| - 1], n);
      SameMove(w, v, before, m, n);
    }
  }

  lemma SameMove(w: World, v: World, s: State, m: Move, n: nat)
    requires SameBefore(w, v, n) && Can(v, s, m)
    requires (if m.Writer? then s.writers[m.pair] else s.readers[m.pair]).k < n
    ensures Can(w, s, m) && Moves(w, s, m) == Moves(v, s, m)
  {
    assert Sized(w, s) && m.pair < w.pairs;
  }

  /** A move from step n or later, or past its beginning, is seen in the places. */
  lemma MovesGoOn(v: World, s: State, m: Move, n: nat)
    requires Can(v, s, m) && AllUpTo(Moves(v, s, m), n)
    ensures AllUpTo(s, n) && (if m.Writer? then s.writers[m.pair] else s.readers[m.pair]).k < n
  {
    var t, p := Moves(v, s, m), m.pair;
    forall q | 0 <= q < v.pairs ensures UpTo(s.writers[q], n) && UpTo(s.readers[q], n) {
      assert UpTo(t.writers[q], n) && UpTo(t.readers[q], n);
    }
    assert UpTo(t.writers[p], n) && UpTo(t.readers[p], n);
  }

  /** The first step whose id was used before. */
  lemma FirstRepeat(ids: nat -> nat, i: nat, j: nat) returns (a: nat, b: nat)
    requires i < j && ids(i) == ids(j)
    ensures a < b && ids(a) == ids(b) && forall k: nat, l: nat :: k < l < b ==> ids(k) != ids(l)
    decreases j
  {
    if k: nat, l: nat :| k < l < j && ids(k) == ids(l) {
      a, b := FirstRepeat(ids, k, l);
    } else {
      a, b := i, j;
    }
  }

  function Above(ids: nat -> nat, n: nat): (m: nat)
    ensures forall k: nat :: k < n ==> ids(k) < m
  {
    if n == 0 then 0 else if ids(n - 1) < Above(ids, n - 1) then Above(ids, n - 1) else ids(n - 1) + 1
  }

  /** The same ids up to step n, and new ones from there on. */
  function Renumbered(ids: nat -> nat, n: nat): nat -> nat { (k: nat) => if k < n then ids(k) else Above(ids, n) + k }

  /** The announcement is never deleted: at the first repeated id a reader maps what is not shared. */
  lemma RepeatedIdMapsFreed(w: World, i: nat, j: nat) returns (run: seq<Move>)
    requires w.pairs > 0 && i < j && w.ids(i) == w.ids(j)
    ensures IsRun(w, run) && After(w, run).mapped[0].Some? && After(w, run).shared[0].None?
  {
    var a, b := FirstRepeat(w.ids, i, j);
    var v := w.(ids := Renumbered(w.ids, b));
    var before := CanReach(v, [], b);
    SameRun(w, v, before, b);
    RunKeepsStep(v, before);
    assert PairOk(v, After(v, before), 0);
    assert Serialized(0, v.ids(a)) in After(v, before).store;
    run := before + [Reader(0)];
    assert run[..|before|] == before;
  }

  /** A reader maps only what its writer shares, in every run, if and only if no step id is used twice. */
  lemma MapsSharedIffDistinct(w: World)
    requires w.pairs > 0
    ensures (forall run: seq<Move>, p: nat :: IsRun(w, run) && p < w.pairs ==> MapsShared(After(w, run), p))
            <==> Distinct(w.ids)
  {
    if Distinct(w.ids) {
      forall run: seq<Move>, p: nat | IsRun(w, run) && p < w.pairs ensures MapsShared(After(w, run), p) {
        MappedIsShared(w, run, p);
      }
    } else {
      var i: nat, j: nat :| i < j && w.ids(i) == w.ids(j);
      var run := RepeatedIdMapsFreed(w, i, j);
      assert !MapsShared(After(w, run), 0);
    }
  }
}
