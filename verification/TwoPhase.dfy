/**
 Which ranks send first in a stage of the circle shift (compute_two_phase_partition in
 awex/transfer/nccl_comm.py): the cycles formed by the edges r -> r + stage are numbered
 along their length, with a greatest common divisor and a modular inverse, and the parity
 of the number decides.
 */
module TwoPhase {
  import opened Arithmetic

  function Gcd(a: pos, b: nat): (g: nat)
    ensures g > 0
    decreases b
  {
    if b == 0 then a else Gcd(b, a % b)
  }

  function Bezout(a: pos, b: nat): (int, int)
    decreases b
  {
    if b == 0 then (1, 0)
    else
      var p := Bezout(b, a % b);
      (p.1, p.0 - (a / b) * p.1)
  }

  /** The inverse modulo n as the source's pow(a, -1, n) gives it: between 0 and n - 1. */
  function ModInverse(a: pos, n: pos): (inv: nat)
    ensures inv < n
  {
    Bezout(a, n).0 % n
  }

  function CycleLength(stage: nat, w: pos): nat { w / Gcd(w, stage) }

  /** A rank's place on its cycle. */
  function CyclePos(rank: nat, stage: nat, w: nat): (pos: nat)
    requires 0 < stage < w
  {
    var g := Gcd(w, stage);
    Reduced(w, stage);
    var reducedWorld, reducedStage := w / g, stage / g;
    var stageInv := ModInverse(reducedStage, reducedWorld);
    var cycleBase := rank % g;
    var cycleIndex := (rank - cycleBase) / g;
    DivModParts(cycleIndex * stageInv, reducedWorld);
    (cycleIndex * stageInv) % reducedWorld
  }

  function TwoPhasePartition(rank: nat, stage: nat, w: nat): nat
    requires stage < w
  {
    if stage == 0 then 0 else CyclePos(rank, stage, w) % 2
  }

  // ----- arithmetic

  lemma ModShift(x: int, k: int, n: nat)
    requires n > 0
    ensures (x + k * n) % n == x % n
  {
    assert x == (x / n) * n + x % n;
    Distribute(x / n, k, n);
    DivModUnique(x + k * n, x / n + k, x % n, n);
  }

  lemma {:induction false} GcdDivides(a: pos, b: nat) returns (x: nat, y: nat)
    ensures a == x * Gcd(a, b) && b == y * Gcd(a, b)
    decreases b
  {
    if b == 0 {
      x, y := 1, 0;
    } else {
      var g, q := Gcd(a, b), a / b;
      var u, v := GcdDivides(b, a % b);
      DivideStep(a, b, q, a % b, u, v, g);
      x, y := q * u + v, u;
    }
  }

  lemma DivideStep(a: nat, b: nat, q: nat, r: nat, u: nat, v: nat, g: nat)
    requires a == q * b + r && b == u * g && r == v * g
    ensures a == (q * u + v) * g && q * u + v >= 0
  {
    Associate(q, u, g);
    Distribute(q * u, v, g);
  }

  lemma {:induction false} BezoutGcd(a: pos, b: nat)
    ensures a * Bezout(a, b).0 + b * Bezout(a, b).1 == Gcd(a, b)
    decreases b
  {
    if b > 0 {
      var p, q := Bezout(b, a % b), a / b;
      BezoutGcd(b, a % b);
      DivModParts(a, b);
      BezoutStep(a, b, q, a % b, p.0, p.1, Gcd(a, b));
    }
  }

  lemma BezoutStep(a: int, b: int, q: int, r: int, x: int, y: int, g: int)
    requires b * x + r * y == g && a == q * b + r
    ensures a * y + b * (x - q * y) == g
  {
    assert r == a - b * q;
    Regroup(a, b, q, x, y);
  }

  lemma Regroup(a: int, b: int, q: int, x: int, y: int)
    ensures b * x + (a - b * q) * y == a * y + b * (x - q * y)
  {
    assert (a - b * q) * y == a * y - b * q * y;
    assert b * (x - q * y) == b * x - b * (q * y);
    Associate(b, q, y);
  }

  /** What is left after dividing by the greatest common divisor has no common divisor. */
  lemma Reduced(w: nat, stage: nat)
    requires 0 < stage < w
    ensures var g := Gcd(w, stage);
            && w / g > 0 && stage / g > 0 && w == (w / g) * g && stage == (stage / g) * g
            && Gcd(stage / g, w / g) == 1
  {
    var g := Gcd(w, stage);
    var x, y := GcdDivides(w, stage);
    DivModUnique(w, x, 0, g);
    DivModUnique(stage, y, 0, g);
    assert x > 0 && y > 0;
    BezoutGcd(w, stage);
    UnitCombination(w, stage, x, y, g, Bezout(w, stage).0, Bezout(w, stage).1);
    CoprimeParts(y, x, Bezout(w, stage).1, Bezout(w, stage).0);
  }

  lemma UnitCombination(w: nat, stage: nat, x: nat, y: nat, g: nat, u: int, v: int)
    requires g > 0 && w == x * g && stage == y * g && w * u + stage * v == g
    ensures x * u + y * v == 1
  {
    assert (x * g) * u == (x * u) * g;
    assert (y * g) * v == (y * v) * g;
    Distribute(x * u, y * v, g);
    CancelUnit(x * u + y * v, g);
  }

  lemma CancelUnit(k: int, g: nat)
    requires g > 0 && k * g == g
    ensures k == 1
  {
    MulOrder(k, 1, g);
    MulOrder(1, k, g);
  }

  lemma CoprimeParts(y: nat, x: nat, v: int, u: int)
    requires y > 0 && y * v + x * u == 1
    ensures Gcd(y, x) == 1
  {
    var g := Gcd(y, x);
    var p, q := GcdDivides(y, x);
    CommonFactor(y, x, p, q, g, v, u);
    DividesOne(p * v + q * u, g);
  }

  lemma CommonFactor(y: int, x: int, p: int, q: int, g: int, v: int, u: int)
    requires y == p * g && x == q * g
    ensures y * v + x * u == (p * v + q * u) * g
  {
    assert (p * g) * v == (p * v) * g;
    assert (q * g) * u == (q * u) * g;
    Distribute(p * v, q * u, g);
  }

  lemma DividesOne(k: int, g: nat)
    requires k * g == 1
    ensures g == 1
  {
    if g > 1 {
      MulOrder(k, 1, g);
      MulOrder(0, k, g);
    }
  }

  lemma InverseWorks(a: pos, n: pos) returns (m: int)
    requires Gcd(a, n) == 1
    ensures a * ModInverse(a, n) == 1 + m * n
  {
    var x, y := Bezout(a, n).0, Bezout(a, n).1;
    BezoutGcd(a, n);
    m := -y - a * (x / n);
    InverseArithmetic(a, n, x, y, x / n, x % n);
  }

  lemma InverseArithmetic(a: int, n: int, x: int, y: int, k: int, inv: int)
    requires a * x + n * y == 1 && x == k * n + inv
    ensures a * inv == 1 + (-y - a * k) * n
  {
    assert a * inv == a * x - a * (k * n);
    Associate(a, k, n);
    Distribute(-y, -(a * k), n);
  }

  // ----- one step along a cycle

  lemma CycleIndex(rank: nat, g: nat)
    requires g > 0
    ensures (rank - rank % g) / g == rank / g
  {
    assert rank == (rank / g) * g + rank % g;
    DivModUnique(rank - rank % g, rank / g, 0, g);
  }

  /** Where the next rank of the cycle stands: the index moves by the reduced stage, once round at most. */
  lemma NextIndex(rank: nat, stage: nat, w: nat, g: nat, q: nat, b: nat, s: nat, n: nat) returns (e: int)
    requires b < g && rank == q * g + b && stage == s * g && w == n * g && stage < w && rank < w
    ensures ((rank + stage) % w) / g == q + s + e * n
  {
    Distribute(q, s, g);
    if rank + stage < w {
      e := 0;
      DivModUnique(rank + stage, 0, rank + stage, w);
      DivModUnique(rank + stage, q + s, b, g);
    } else {
      e := -1;
      DivModUnique(rank + stage, 1, rank + stage - w, w);
      Distribute(q + s, 0 - n, g);
      DivModUnique(rank + stage - w, q + s - n, b, g);
    }
  }

  lemma CyclePosIs(rank: nat, stage: nat, w: nat, g: nat, n: nat, inv: nat)
    requires 0 < stage < w && g == Gcd(w, stage) && n == w / g
    requires n > 0 && stage / g > 0 && inv == ModInverse(stage / g, n)
    ensures CyclePos(rank, stage, w) == ((rank / g) * inv) % n
  {
    CycleIndex(rank, g);
  }

  lemma AdvancesPlain(rank: nat, stage: nat, w: nat, g: nat, n: nat, s: nat, inv: nat, m: int)
    requires g > 0 && n > 0 && w == n * g && stage == s * g && s * inv == 1 + m * n && 0 < stage < w && rank < w
    ensures (((rank + stage) % w / g) * inv) % n == (((rank / g) * inv) % n + 1) % n
  {
    var q, b := rank / g, rank % g;
    DivModParts(rank, g);
    var e := NextIndex(rank, stage, w, g, q, b, s, n);
    StepAlong(q, s, e, n, inv, m);
  }

  /** Along every edge of a stage the place on the cycle advances by exactly one. */
  lemma CyclePosAdvances(rank: nat, stage: nat, w: nat)
    requires 0 < stage < w && rank < w
    ensures CycleLength(stage, w) > 0
    ensures CyclePos((rank + stage) % w, stage, w) == (CyclePos(rank, stage, w) + 1) % CycleLength(stage, w)
  {
    var g := Gcd(w, stage);
    Reduced(w, stage);
    var n, s := w / g, stage / g;
    var inv := ModInverse(s, n);
    var m := InverseWorks(s, n);
    AdvancesPlain(rank, stage, w, g, n, s, inv, m);
    CyclePosIs(rank, stage, w, g, n, inv);
    CyclePosIs((rank + stage) % w, stage, w, g, n, inv);
  }

  lemma StepAlong(q: int, s: int, e: int, n: nat, inv: int, m: int)
    requires n > 0 && s * inv == 1 + m * n
    ensures ((q + s + e * n) * inv) % n == ((q * inv) % n + 1) % n
  {
    var x := q * inv;
    Distribute(q + s, e * n, inv);
    Distribute(q, s, inv);
    assert (e * n) * inv == (e * inv) * n;
    Distribute(m, e * inv, n);
    assert (q + s + e * n) * inv == (x + 1) + (m + e * inv) * n;
    ModShift(x + 1, m + e * inv, n);
    assert x == (x / n) * n + x % n;
    ModShift(x % n + 1, x / n, n);
  }

  // ----- when the two ends of every edge are on opposite sides

  lemma ParityAlong(pos: nat, n: nat)
    requires n > 0 && pos < n
    ensures n % 2 == 0 ==> ((pos + 1) % n) % 2 != pos % 2
    ensures pos == n - 1 ==> (pos + 1) % n == 0
  {
    if pos + 1 < n {
      DivModUnique(pos + 1, 0, pos + 1, n);
    } else {
      DivModUnique(pos + 1, 1, 0, n);
    }
  }

  lemma PosInRange(rank: nat, stage: nat, w: nat)
    requires 0 < stage < w
    ensures CycleLength(stage, w) > 0 && CyclePos(rank, stage, w) < CycleLength(stage, w)
  {
    Reduced(w, stage);
  }

  lemma LastBeforeZero(pos: nat, n: nat)
    requires n > 0 && pos < n && (pos + 1) % n == 0
    ensures pos == n - 1
  {
    if pos + 1 < n {
      DivModUnique(pos + 1, 0, pos + 1, n);
    }
  }

  /** Every cycle is numbered from its lowest rank, and that rank sends first. */
  lemma CycleStarts(rank: nat, stage: nat, w: nat)
    requires 0 < stage < w && rank < Gcd(w, stage)
    ensures CyclePos(rank, stage, w) == 0 && TwoPhasePartition(rank, stage, w) == 0
  {
    Reduced(w, stage);
    var g := Gcd(w, stage);
    DivModUnique(rank, 0, rank, g);
    DivModUnique(0, 0, 0, g);
    DivModUnique(0, 0, 0, w / g);
  }

  /** The rank and its receiver are in opposite partitions. */
  predicate Opposite(rank: nat, stage: nat, w: nat)
    requires stage < w
  {
    TwoPhasePartition((rank + stage) % w, stage, w) != TwoPhasePartition(rank, stage, w)
  }

  lemma EvenOpposite(rank: nat, stage: nat, w: nat)
    requires 0 < stage < w && rank < w && CycleLength(stage, w) % 2 == 0
    ensures Opposite(rank, stage, w)
  {
    CyclePosAdvances(rank, stage, w);
    PosInRange(rank, stage, w);
    ParityAlong(CyclePos(rank, stage, w), CycleLength(stage, w));
  }

  /** On an odd cycle the rank before rank 0 is in rank 0's partition. */
  lemma OddCloses(stage: nat, w: nat)
    requires 0 < stage < w && CycleLength(stage, w) % 2 == 1
    ensures (w - stage + stage) % w == 0
    ensures TwoPhasePartition(w - stage, stage, w) == 0 && TwoPhasePartition(0, stage, w) == 0
  {
    var rank := w - stage;
    DivModUnique(rank + stage, 1, 0, w);
    CyclePosAdvances(rank, stage, w);
    PosInRange(rank, stage, w);
    CycleStarts(0, stage, w);
    LastBeforeZero(CyclePos(rank, stage, w), CycleLength(stage, w));
  }

  /** Sender and receiver are in opposite partitions at every rank iff the cycles are of even length. */
  lemma OppositeIffEven(stage: nat, w: nat)
    requires 0 < stage < w
    ensures (forall rank: nat :: rank < w ==> Opposite(rank, stage, w)) <==> CycleLength(stage, w) % 2 == 0
  {
    if CycleLength(stage, w) % 2 == 0 {
      forall rank: nat | rank < w ensures Opposite(rank, stage, w) {
        EvenOpposite(rank, stage, w);
      }
    } else {
      OddCloses(stage, w);
      assert !Opposite(w - stage, stage, w);
    }
  }
}
