/**
 Ranks that each run a fixed program of blocking exchanges. An exchange (a batch between
 two ranks, or a barrier of all of them) completes when every party has reached it. If one
 stamp grows along every program, no reachable state is stuck, every run ends, and a
 finished run has carried out every exchange exactly once.
 */
module Rendezvous {
  import opened Seqs

  datatype Net<!E(!new, ==)> = Net(progs: seq<seq<E>>, parties: E -> set<nat>, stamp: E -> nat)

  /** A rank's program only holds its own exchanges, and all parties have each in their programs. */
  ghost predicate Agreed<E(!new)>(net: Net<E>) {
    forall r, k | 0 <= r < |net.progs| && 0 <= k < |net.progs[r]| ::
      && r in net.parties(net.progs[r][k])
      && forall q: nat :: q in net.parties(net.progs[r][k]) ==> q < |net.progs| && net.progs[r][k] in net.progs[q]
  }

  predicate Climbs<E(!new)>(prog: seq<E>, stamp: E -> nat) {
    forall j, k :: 0 <= j < k < |prog| ==> stamp(prog[j]) < stamp(prog[k])
  }

  /** A stretch of a program whose stamps climb within [lo, hi). */
  predicate Band<E(!new)>(prog: seq<E>, stamp: E -> nat, lo: nat, hi: nat) {
    Climbs(prog, stamp) && forall k :: 0 <= k < |prog| ==> lo <= stamp(prog[k]) < hi
  }

  lemma BandConcat<E(!new)>(a: seq<E>, b: seq<E>, stamp: E -> nat, lo: nat, mid: nat, hi: nat)
    requires Band(a, stamp, lo, mid) && Band(b, stamp, mid, hi) && lo <= mid <= hi
    ensures Band(a + b, stamp, lo, hi)
  {
  }

  lemma {:induction false} FlattenBand<E(!new)>(parts: seq<seq<E>>, stamp: E -> nat, marks: seq<nat>)
    requires |marks| == |parts| + 1
    requires forall c :: 0 <= c < |parts| ==> marks[c] <= marks[c + 1] && Band(parts[c], stamp, marks[c], marks[c + 1])
    ensures marks[0] <= marks[|parts|] && Band(Flatten(parts), stamp, marks[0], marks[|parts|])
  {
    if parts != [] {
      var n := |parts| - 1;
      FlattenBand(parts[..n], stamp, marks[..n + 1]);
      BandConcat(Flatten(parts[..n]), parts[n], stamp, marks[0], marks[n], marks[n + 1]);
    }
  }

  ghost predicate WellFormed<E(!new)>(net: Net<E>) {
    Agreed(net) && forall r :: 0 <= r < |net.progs| ==> Climbs(net.progs[r], net.stamp)
  }

  // ----- states and steps

  /** How far every rank has come. */
  type State = seq<nat>

  predicate Fits<E(!new)>(net: Net<E>, s: State) {
    |s| == |net.progs| && forall r :: 0 <= r < |s| ==> s[r] <= |net.progs[r]|
  }

  predicate AtHead<E(!new)>(net: Net<E>, s: State, r: nat, e: E) {
    r < |s| && r < |net.progs| && s[r] < |net.progs[r]| && net.progs[r][s[r]] == e
  }

  /** Every party waits at the exchange. */
  ghost predicate Enabled<E(!new)>(net: Net<E>, s: State, e: E) {
    net.parties(e) != {} && forall r: nat :: r in net.parties(e) ==> AtHead(net, s, r, e)
  }

  function Step<E(!new)>(net: Net<E>, s: State, e: E): State {
    seq(|s|, r requires 0 <= r < |s| => if r in net.parties(e) then s[r] + 1 else s[r])
  }

  predicate Finished<E(!new)>(net: Net<E>, s: State) {
    Fits(net, s) && forall r :: 0 <= r < |s| ==> s[r] == |net.progs[r]|
  }

  function Start<E(!new)>(net: Net<E>): State { seq(|net.progs|, r => 0) }

  function After<E(!new)>(net: Net<E>, run: seq<E>): State {
    if run == [] then Start(net) else Step(net, After(net, run[..|run| - 1]), run[|run| - 1])
  }

  /** A run from the start in which every exchange completes when all its parties are at it. */
  ghost predicate IsRun<E(!new)>(net: Net<E>, run: seq<E>) {
    run == [] ||
    (var before := After(net, run[..|run| - 1]);
     IsRun(net, run[..|run| - 1]) && Fits(net, before) && Enabled(net, before, run[|run| - 1]))
  }

  // ----- what every step keeps

  /** Two occurrences of one exchange are both behind their ranks or both ahead of them. */
  ghost predicate Synced<E(!new)>(net: Net<E>, s: State) {
    Fits(net, s) && forall q: nat, k: nat, r: nat, l: nat :: SameExchange(net, q, k, r, l) ==> (k < s[q] <==> l < s[r])
  }

  predicate SameExchange<E(!new)>(net: Net<E>, q: nat, k: nat, r: nat, l: nat) {
    q < |net.progs| && r < |net.progs| && k < |net.progs[q]| && l < |net.progs[r]| && net.progs[q][k] == net.progs[r][l]
  }

  lemma OneOccurrence<E(!new)>(net: Net<E>, r: nat, j: nat, k: nat)
    requires WellFormed(net) && SameExchange(net, r, j, r, k)
    ensures j == k
  {
    assert Climbs(net.progs[r], net.stamp);
  }

  lemma StepKeepsSync<E(!new)>(net: Net<E>, s: State, e: E)
    requires WellFormed(net) && Fits(net, s) && Synced(net, s) && Enabled(net, s, e)
    ensures Fits(net, Step(net, s, e)) && Synced(net, Step(net, s, e))
  {
    var s' := Step(net, s, e);
    forall q: nat, k: nat, r: nat, l: nat | SameExchange(net, q, k, r, l) ensures k < s'[q] <==> l < s'[r] {
      StepPast(net, s, e, q, k);
      StepPast(net, s, e, r, l);
    }
  }

  /** A step moves a rank past exactly the exchange that completed. */
  lemma StepPast<E(!new)>(net: Net<E>, s: State, e: E, q: nat, k: nat)
    requires WellFormed(net) && Fits(net, s) && Enabled(net, s, e) && q < |net.progs| && k < |net.progs[q]|
    ensures k < Step(net, s, e)[q] <==> k < s[q] || net.progs[q][k] == e
  {
    if net.progs[q][k] == e {
      assert q in net.parties(e);
      assert AtHead(net, s, q, e);
      OneOccurrence(net, q, k, s[q]);
    } else if q in net.parties(e) {
      assert AtHead(net, s, q, e);
    }
  }

  lemma {:induction false} RunSynced<E(!new)>(net: Net<E>, run: seq<E>)
    requires WellFormed(net) && IsRun(net, run)
    ensures Fits(net, After(net, run)) && Synced(net, After(net, run))
  {
    if run != [] {
      RunSynced(net, run[..|run| - 1]);
      StepKeepsSync(net, After(net, run[..|run| - 1]), run[|run| - 1]);
    }
  }

  // ----- no deadlock

  /** Among the unfinished ranks, one whose next exchange has the least stamp. */
  lemma {:induction false} LeastHead<E(!new)>(net: Net<E>, s: State, n: nat, r: nat) returns (least: nat)
    requires Fits(net, s) && r < n <= |s| && s[r] < |net.progs[r]|
    ensures least < n && s[least] < |net.progs[least]|
    ensures forall q: nat :: q < n && s[q] < |net.progs[q]| ==>
              net.stamp(net.progs[least][s[least]]) <= net.stamp(net.progs[q][s[q]])
    decreases n
  {
    least := r;
    var i := 0;
    while i < n
      invariant i <= n && least < n && s[least] < |net.progs[least]|
      invariant forall q: nat :: q < i && s[q] < |net.progs[q]| ==>
                  net.stamp(net.progs[least][s[least]]) <= net.stamp(net.progs[q][s[q]])
    {
      if s[i] < |net.progs[i]| && net.stamp(net.progs[i][s[i]]) < net.stamp(net.progs[least][s[least]]) {
        least := i;
      }
      i := i + 1;
    }
  }

  /** In every reachable unfinished state some exchange can complete. */
  lemma Progress<E(!new)>(net: Net<E>, run: seq<E>) returns (e: E)
    requires WellFormed(net) && IsRun(net, run) && Fits(net, After(net, run)) && !Finished(net, After(net, run))
    ensures Enabled(net, After(net, run), e) && IsRun(net, run + [e])
  {
    var s := After(net, run);
    RunSynced(net, run);
    var r: nat :| r < |s| && s[r] != |net.progs[r]|;
    var least := LeastHead(net, s, |s|, r);
    e := net.progs[least][s[least]];
    forall q: nat | q in net.parties(e) ensures AtHead(net, s, q, e) {
      LeastIsReady(net, s, least, q);
    }
    assert (run + [e])[..|run|] == run;
  }

  lemma LeastIsReady<E(!new)>(net: Net<E>, s: State, least: nat, q: nat)
    requires WellFormed(net) && Fits(net, s) && Synced(net, s) && least < |s| && s[least] < |net.progs[least]|
    requires forall p: nat :: p < |s| && s[p] < |net.progs[p]| ==>
               net.stamp(net.progs[least][s[least]]) <= net.stamp(net.progs[p][s[p]])
    requires q in net.parties(net.progs[least][s[least]])
    ensures AtHead(net, s, q, net.progs[least][s[least]])
  {
    var e := net.progs[least][s[least]];
    var k :| 0 <= k < |net.progs[q]| && net.progs[q][k] == e;
    assert SameExchange(net, q, k, least, s[least]);
    assert s[q] <= k;
    assert Climbs(net.progs[q], net.stamp);
  }

  // ----- every run ends

  /** The exchanges the first n ranks still have ahead of them. */
  function Remaining<E(!new)>(net: Net<E>, s: State, n: nat): nat
    requires Fits(net, s) && n <= |s|
  {
    if n == 0 then 0 else Remaining(net, s, n - 1) + (|net.progs[n - 1]| - s[n - 1])
  }

  lemma {:induction false} StepsReduce<E(!new)>(net: Net<E>, s: State, e: E, n: nat)
    requires Fits(net, s) && Enabled(net, s, e) && Fits(net, Step(net, s, e)) && n <= |s|
    ensures Remaining(net, Step(net, s, e), n) <= Remaining(net, s, n)
    ensures (exists r: nat :: r < n && r in net.parties(e)) ==>
              Remaining(net, Step(net, s, e), n) < Remaining(net, s, n)
  {
    if n > 0 {
      StepsReduce(net, s, e, n - 1);
    }
  }

  /** Each completed exchange leaves fewer ahead, so a run is no longer than all programs together. */
  lemma {:induction false} RunsEnd<E(!new)>(net: Net<E>, run: seq<E>)
    requires WellFormed(net) && IsRun(net, run)
    ensures Fits(net, After(net, run)) && Fits(net, Start(net))
    ensures |run| + Remaining(net, After(net, run), |net.progs|) <= Remaining(net, Start(net), |net.progs|)
  {
    RunSynced(net, run);
    if run != [] {
      var fewer, e := run[..|run| - 1], run[|run| - 1];
      RunsEnd(net, fewer);
      var r: nat :| r in net.parties(e);
      assert AtHead(net, After(net, fewer), r, e);
      StepsReduce(net, After(net, fewer), e, |net.progs|);
    }
  }

  /** Every run can be continued until all ranks have finished. */
  lemma {:induction false} CanFinish<E(!new)>(net: Net<E>, run: seq<E>) returns (whole: seq<E>)
    requires WellFormed(net) && IsRun(net, run)
    ensures IsRun(net, whole) && |run| <= |whole| && whole[..|run|] == run
    ensures Fits(net, After(net, whole)) && Finished(net, After(net, whole))
    decreases Remaining(net, Start(net), |net.progs|) - |run|
  {
    RunsEnd(net, run);
    if Finished(net, After(net, run)) {
      whole := run;
    } else {
      var e := Progress(net, run);
      RunsEnd(net, run + [e]);
      whole := CanFinish(net, run + [e]);
      assert (run + [e])[..|run|] == run;
      assert whole[..|run|] == whole[..|run + [e]|][..|run|];
    }
  }

  // ----- what a finished run has done

  ghost predicate FinishedRun<E(!new)>(net: Net<E>, run: seq<E>) {
    IsRun(net, run) && Fits(net, After(net, run)) && Finished(net, After(net, run))
  }

  function Involves<E(!new)>(net: Net<E>, r: nat): E -> bool { e => r in net.parties(e) }

  /** A step takes each rank it moves past its own next exchange, so no rank runs off its program. */
  lemma {:induction false} RunFits<E(!new)>(net: Net<E>, run: seq<E>)
    requires IsRun(net, run)
    ensures Fits(net, After(net, run))
  {
    if run != [] {
      RunFits(net, run[..|run| - 1]);
      var s, e := After(net, run[..|run| - 1]), run[|run| - 1];
      forall r | 0 <= r < |s| ensures Step(net, s, e)[r] <= |net.progs[r]| {
        assert r in net.parties(e) ==> AtHead(net, s, r, e);
      }
    }
  }

  /** What a rank has seen of a run is the part of its program behind it. */
  lemma {:induction false} RunFollowsPrograms<E(!new)>(net: Net<E>, run: seq<E>, r: nat)
    requires IsRun(net, run) && r < |net.progs|
    ensures Fits(net, After(net, run)) && Filter(run, Involves(net, r)) == net.progs[r][..After(net, run)[r]]
  {
    RunFits(net, run);
    if run != [] {
      var fewer, e := run[..|run| - 1], run[|run| - 1];
      RunFollowsPrograms(net, fewer, r);
      assert Enabled(net, After(net, fewer), e);
      if r in net.parties(e) {
        assert AtHead(net, After(net, fewer), r, e);
      }
    }
  }

  /** Rank q needs exchange e before f, and rank r needs f before e. */
  ghost predicate Crossed<E(!new)>(net: Net<E>, q: nat, j: nat, r: nat, k: nat) {
    && q < |net.progs| && r < |net.progs| && j < |net.progs[q]| && k < |net.progs[r]|
    && r in net.parties(net.progs[q][j]) && q in net.parties(net.progs[r][k])
    && net.progs[q][j] !in net.progs[r][..k + 1] && net.progs[r][k] !in net.progs[q][..j + 1]
  }

  /** Two ranks that need two exchanges in opposite orders wait for each other for ever. */
  lemma {:induction false} CrossedStaysShort<E(!new)>(net: Net<E>, run: seq<E>, q: nat, j: nat, r: nat, k: nat)
    requires IsRun(net, run) && Crossed(net, q, j, r, k)
    ensures Fits(net, After(net, run)) && After(net, run)[q] <= j && After(net, run)[r] <= k
  {
    RunFits(net, run);
    if run != [] {
      var s, x := After(net, run[..|run| - 1]), run[|run| - 1];
      CrossedStaysShort(net, run[..|run| - 1], q, j, r, k);
      assert Enabled(net, s, x);
    }
  }

  /** A finished run carries out every exchange exactly once and nothing else. */
  lemma FinishedOnce<E(!new)>(net: Net<E>, run: seq<E>, e: E)
    requires WellFormed(net) && FinishedRun(net, run)
    ensures (exists r :: 0 <= r < |net.progs| && e in net.progs[r]) ==> multiset(run)[e] == 1
    ensures (forall r :: 0 <= r < |net.progs| ==> e !in net.progs[r]) ==> e !in run
  {
    if r: nat :| r < |net.progs| && e in net.progs[r] {
      RunFollowsPrograms(net, run, r);
      assert net.progs[r][..|net.progs[r]|] == net.progs[r];
      CountKept(run, Involves(net, r), e);
      ClimbingOnce(net.progs[r], net.stamp, e);
    } else {
      if e in run {
        RunOfPrograms(net, run, e);
        assert false;
      }
    }
  }

  lemma {:induction false} RunOfPrograms<E(!new)>(net: Net<E>, run: seq<E>, e: E)
    requires IsRun(net, run) && e in run
    ensures exists r :: 0 <= r < |net.progs| && e in net.progs[r]
  {
    var last := |run| - 1;
    if e == run[last] {
      var r: nat :| r in net.parties(e);
      assert AtHead(net, After(net, run[..last]), r, e);
    } else {
      RunOfPrograms(net, run[..last], e);
    }
  }

  lemma {:induction false} CountKept<T>(s: seq<T>, keep: T -> bool, x: T)
    requires keep(x)
    ensures multiset(Filter(s, keep))[x] == multiset(s)[x]
  {
    if s != [] {
      CountKept(s[..|s| - 1], keep, x);
      FilterLast(s, keep);
      assert s == s[..|s| - 1] + [s[|s| - 1]];
    }
  }

  lemma {:induction false} ClimbingOnce<E(!new)>(prog: seq<E>, stamp: E -> nat, e: E)
    requires Climbs(prog, stamp) && e in prog
    ensures multiset(prog)[e] == 1
  {
    var k :| 0 <= k < |prog| && prog[k] == e;
    assert prog == prog[..k] + [e] + prog[k + 1..];
    forall j | 0 <= j < |prog| && j != k ensures prog[j] != e {
      var lo, hi := if j < k then j else k, if j < k then k else j;
      assert stamp(prog[lo]) < stamp(prog[hi]);
    }
    assert multiset(prog) == multiset(prog[..k]) + multiset{e} + multiset(prog[k + 1..]);
  }
}
