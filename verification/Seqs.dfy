/**
 Sequence functions shared by the models. They recurse on the last element, so that a
 loop that walks a list front to back extends the specification by one step per turn.
 */
module Seqs {

  function Filter<T>(s: seq<T>, keep: T -> bool): seq<T> {
    if s == [] then []
    else Filter(s[..|s| - 1], keep) + (if keep(s[|s| - 1]) then [s[|s| - 1]] else [])
  }

  function Flatten<T>(s: seq<seq<T>>): seq<T> {
    if s == [] then [] else Flatten(s[..|s| - 1]) + s[|s| - 1]
  }

  function Sum(s: seq<nat>): nat {
    if s == [] then 0 else Sum(s[..|s| - 1]) + s[|s| - 1]
  }

  function Product(s: seq<nat>): nat {
    if s == [] then 1 else Product(s[..|s| - 1]) * s[|s| - 1]
  }

  function Indices(n: nat): seq<nat> { seq(n, i => i) }

  lemma {:induction false} FilterIn<T>(s: seq<T>, keep: T -> bool, x: T)
    ensures x in Filter(s, keep) <==> x in s && keep(x)
  {
    if s != [] {
      FilterIn(s[..|s| - 1], keep, x);
      assert s == s[..|s| - 1] + [s[|s| - 1]];
    }
  }

  lemma {:induction false} FilterAscends(n: nat, keep: nat -> bool)
    ensures forall k :: 0 <= k < |Filter<nat>(Indices(n), keep)| ==> Filter<nat>(Indices(n), keep)[k] < n
    ensures forall k, l :: 0 <= k < l < |Filter<nat>(Indices(n), keep)| ==>
              Filter<nat>(Indices(n), keep)[k] < Filter<nat>(Indices(n), keep)[l]
  {
    if n > 0 {
      assert Indices(n)[..n - 1] == Indices(n - 1);
      FilterAscends(n - 1, keep);
    }
  }

  lemma {:induction false} FilterConcat<T>(a: seq<T>, b: seq<T>, keep: T -> bool)
    ensures Filter(a + b, keep) == Filter(a, keep) + Filter(b, keep)
  {
    if b == [] {
      assert a + b == a;
    } else {
      FilterConcat(a, b[..|b| - 1], keep);
      assert (a + b)[..|a + b| - 1] == a + b[..|b| - 1];
    }
  }

  lemma {:induction false} FilterAll<T>(s: seq<T>, keep: T -> bool)
    requires forall x :: x in s ==> keep(x)
    ensures Filter(s, keep) == s
  {
    if s != [] {
      assert forall x :: x in s[..|s| - 1] ==> x in s;
      FilterAll(s[..|s| - 1], keep);
      assert keep(s[|s| - 1]);
      assert Filter(s, keep) == s[..|s| - 1] + [s[|s| - 1]];
    }
  }

  lemma {:induction false} FilterNone<T>(s: seq<T>, keep: T -> bool)
    requires forall x :: x in s ==> !keep(x)
    ensures Filter(s, keep) == []
  {
    if s != [] {
      assert forall x :: x in s[..|s| - 1] ==> x in s;
      FilterNone(s[..|s| - 1], keep);
    }
  }

  /** Filtering twice is filtering by the conjunction. */
  lemma {:induction false} FilterTwice<T>(s: seq<T>, f: T -> bool, g: T -> bool, both: T -> bool)
    requires forall x :: x in s ==> (both(x) <==> f(x) && g(x))
    ensures Filter(Filter(s, f), g) == Filter(s, both)
  {
    if s != [] {
      var last := s[|s| - 1];
      assert forall x :: x in s[..|s| - 1] ==> x in s;
      FilterTwice(s[..|s| - 1], f, g, both);
      FilterConcat(Filter(s[..|s| - 1], f), if f(last) then [last] else [], g);
      assert Filter([last], g) == if g(last) then [last] else [];
    }
  }

  lemma MultisetAppend<T>(s: seq<T>, x: T)
    ensures multiset(s + [x]) == multiset(s) + multiset{x}
  {}

  /** What passes a test and what fails it make up the list. */
  lemma {:induction false} FilterSplit<T>(s: seq<T>, f: T -> bool, g: T -> bool, either: T -> bool)
    requires forall x :: x in s ==> !(f(x) && g(x)) && (either(x) <==> f(x) || g(x))
    ensures multiset(Filter(s, f)) + multiset(Filter(s, g)) == multiset(Filter(s, either))
  {
    if s != [] {
      var n, last := |s| - 1, s[|s| - 1];
      assert last in s;
      assert forall x :: x in s[..n] ==> x in s;
      FilterSplit(s[..n], f, g, either);
      FilterLast(s, f);
      FilterLast(s, g);
      FilterLast(s, either);
    }
  }

  lemma FilterLast<T>(s: seq<T>, keep: T -> bool)
    requires s != []
    ensures multiset(Filter(s, keep))
         == multiset(Filter(s[..|s| - 1], keep)) + (if keep(s[|s| - 1]) then multiset{s[|s| - 1]} else multiset{})
  {}

  lemma FlattenLast<T>(s: seq<seq<T>>)
    requires s != []
    ensures multiset(Flatten(s)) == multiset(Flatten(s[..|s| - 1])) + multiset(s[|s| - 1])
  {}

  lemma {:induction false} FlattenConcat<T>(a: seq<seq<T>>, b: seq<seq<T>>)
    ensures Flatten(a + b) == Flatten(a) + Flatten(b)
  {
    if b == [] {
      assert a + b == a;
    } else {
      FlattenConcat(a, b[..|b| - 1]);
      assert (a + b)[..|a + b| - 1] == a + b[..|b| - 1];
    }
  }

  lemma FlattenPrefix<T>(parts: seq<seq<T>>, j: nat)
    requires j < |parts|
    ensures Flatten(parts[..j + 1]) == Flatten(parts[..j]) + parts[j]
  {
    assert parts[..j + 1][..j] == parts[..j];
  }

  lemma Middle<T>(s: seq<T>, x: seq<T>, y: seq<T>, z: seq<T>)
    requires s == x + y + z
    ensures |x| + |y| <= |s| && s[|x|..|x| + |y|] == y
  {
  }

  lemma FlattenSplit<T>(parts: seq<seq<T>>, c: nat)
    requires c < |parts|
    ensures Flatten(parts) == Flatten(parts[..c]) + parts[c] + Flatten(parts[c + 1..])
  {
    var a, b := parts[..c + 1], parts[c + 1..];
    assert parts == a + b;
    FlattenPrefix(parts, c);
    FlattenConcat(a, b);
  }

  lemma {:induction false} FlattenIn<T>(s: seq<seq<T>>, x: T)
    ensures x in Flatten(s) <==> exists i :: 0 <= i < |s| && x in s[i]
  {
    if s != [] {
      var n := |s| - 1;
      FlattenIn(s[..n], x);
      assert forall i :: 0 <= i < n ==> s[..n][i] == s[i];
    }
  }

  lemma {:induction false} FilterFlatten<T>(parts: seq<seq<T>>, keep: T -> bool, kept: seq<seq<T>>)
    requires |kept| == |parts| && forall c :: 0 <= c < |parts| ==> kept[c] == Filter(parts[c], keep)
    ensures Filter(Flatten(parts), keep) == Flatten(kept)
  {
    if parts != [] {
      var n := |parts| - 1;
      FilterFlatten(parts[..n], keep, kept[..n]);
      FilterConcat(Flatten(parts[..n]), parts[n], keep);
    }
  }

  /** If a flattened list repeats nothing, every item has one place in one of its parts. */
  lemma {:induction false} FlattenInjective<T>(s: seq<seq<T>>, a: nat, i: nat, b: nat, j: nat)
    requires forall x :: multiset(Flatten(s))[x] <= 1
    requires a < |s| && i < |s[a]| && b < |s| && j < |s[b]| && s[a][i] == s[b][j]
    ensures a == b && i == j
  {
    var n := |s| - 1;
    var x := s[a][i];
    assert multiset(Flatten(s)) == multiset(Flatten(s[..n])) + multiset(s[n]);
    assert multiset(Flatten(s))[x] <= 1;
    if a < n && b < n {
      forall y ensures multiset(Flatten(s[..n]))[y] <= 1 {
        assert multiset(Flatten(s))[y] <= 1;
      }
      FlattenInjective(s[..n], a, i, b, j);
    } else if a == n && b == n {
      if i != j {
        TwicePresent(s[n], i, j);
        assert false;
      }
    } else {
      var c := if a < n then a else b;
      assert s[..n][c] == s[c];
      FlattenIn(s[..n], x);
      assert false;
    }
  }

  lemma TwicePresent<T>(s: seq<T>, i: nat, j: nat)
    requires i < |s| && j < |s| && i != j && s[i] == s[j]
    ensures multiset(s)[s[i]] >= 2
  {
    var lo, hi := if i < j then i else j, if i < j then j else i;
    assert s == s[..hi] + [s[hi]] + s[hi + 1..];
    assert s[..hi][lo] == s[i];
    assert s[i] in multiset(s[..hi]);
  }

  predicate IsLeast(m: nat, s: set<nat>) {
    m in s && forall k :: k in s ==> m <= k
  }

  /** The members of a set of naturals in ascending order. */
  function SortedKeys(s: set<nat>): seq<nat> {
    if s == {} then [] else
      HasLeast(s);
      var m :| IsLeast(m, s);
      [m] + SortedKeys(s - {m})
  }

  lemma HasLeast(s: set<nat>)
    requires s != {}
    ensures exists m :: IsLeast(m, s)
  {
    var m := FindLeast(s);
  }

  lemma {:induction false} FindLeast(s: set<nat>) returns (m: nat)
    requires s != {}
    ensures IsLeast(m, s)
  {
    m :| m in s;
    var rest := s - {m};
    if rest != {} {
      var y := FindLeast(rest);
      var x := m;
      m := if x <= y then x else y;
      forall k | k in s ensures m <= k {
        assert k == x || k in rest;
      }
    } else {
      forall k | k in s ensures m <= k {
        assert k !in rest;
      }
    }
  }

  lemma {:induction false} SortedKeysProperties(s: set<nat>)
    ensures forall k :: k in SortedKeys(s) <==> k in s
    ensures forall i, j :: 0 <= i < j < |SortedKeys(s)| ==> SortedKeys(s)[i] < SortedKeys(s)[j]
    decreases s
  {
    if s != {} {
      HasLeast(s);
      var m :| IsLeast(m, s);
      var rest := SortedKeys(s - {m});
      SortedKeysProperties(s - {m});
      assert SortedKeys(s) == [m] + rest;
      forall j | 0 <= j < |rest| ensures m < rest[j] {
        assert rest[j] in s - {m};
      }
    }
  }

  /** The list sorted by a key, equal keys keeping their order (Python's list.sort). */
  function StableSort<T>(s: seq<T>, before: (T, T) -> bool): (r: seq<T>)
    ensures |r| == |s|
  {
    if s == [] then [] else InsertLast(StableSort(s[..|s| - 1], before), s[|s| - 1], before)
  }

  /** Puts x after every member it does not precede strictly; x came last in the list. */
  function InsertLast<T>(s: seq<T>, x: T, before: (T, T) -> bool): (r: seq<T>)
    ensures |r| == |s| + 1
  {
    if s == [] || !before(x, s[|s| - 1]) then s + [x]
    else InsertLast(s[..|s| - 1], x, before) + [s[|s| - 1]]
  }

  lemma {:induction false} StableSortPermutes<T>(s: seq<T>, before: (T, T) -> bool)
    ensures multiset(StableSort(s, before)) == multiset(s)
  {
    if s != [] {
      StableSortPermutes(s[..|s| - 1], before);
      InsertPermutes(StableSort(s[..|s| - 1], before), s[|s| - 1], before);
      assert s == s[..|s| - 1] + [s[|s| - 1]];
    }
  }

  lemma {:induction false} InsertPermutes<T>(s: seq<T>, x: T, before: (T, T) -> bool)
    ensures multiset(InsertLast(s, x, before)) == multiset(s) + multiset{x}
  {
    if !(s == [] || !before(x, s[|s| - 1])) {
      InsertPermutes(s[..|s| - 1], x, before);
      assert s == s[..|s| - 1] + [s[|s| - 1]];
    }
  }

  /** `before` is the strict part of a total preorder. */
  ghost predicate StrictWeakOrder<T(!new)>(before: (T, T) -> bool) {
    && (forall x, y :: before(x, y) ==> !before(y, x))
    && (forall x, y, z :: before(x, z) ==> before(x, y) || before(y, z))
  }

  ghost predicate Ascending<T>(s: seq<T>, before: (T, T) -> bool) {
    forall i, j :: 0 <= i < j < |s| ==> !before(s[j], s[i])
  }

  lemma {:induction false} StableSortAscends<T(!new)>(s: seq<T>, before: (T, T) -> bool)
    requires StrictWeakOrder(before)
    ensures Ascending(StableSort(s, before), before)
  {
    if s != [] {
      StableSortAscends(s[..|s| - 1], before);
      InsertAscends(StableSort(s[..|s| - 1], before), s[|s| - 1], before);
    }
  }

  lemma {:induction false} InsertAscends<T(!new)>(s: seq<T>, x: T, before: (T, T) -> bool)
    requires StrictWeakOrder(before) && Ascending(s, before)
    ensures Ascending(InsertLast(s, x, before), before)
  {
    if !(s == [] || !before(x, s[|s| - 1])) {
      var last := s[|s| - 1];
      var r := InsertLast(s[..|s| - 1], x, before);
      InsertAscends(s[..|s| - 1], x, before);
      InsertPermutes(s[..|s| - 1], x, before);
      forall i | 0 <= i < |r| ensures !before(last, r[i]) {
        assert r[i] in multiset(r);
        if r[i] != x {
          assert r[i] in s[..|s| - 1];
        }
      }
    } else if s != [] {
      forall i | 0 <= i < |s| ensures !before(x, s[i]) {
        assert i < |s| - 1 ==> !before(s[|s| - 1], s[i]);
      }
    }
  }

  /** No comparison separates a member from the pivot. */
  function Tied<T>(before: (T, T) -> bool, pivot: T): T -> bool {
    x => !before(x, pivot) && !before(pivot, x)
  }

  /** Tied members keep their relative order. */
  lemma {:induction false} StableSortStable<T(!new)>(s: seq<T>, before: (T, T) -> bool, pivot: T)
    requires StrictWeakOrder(before)
    ensures Filter(StableSort(s, before), Tied(before, pivot)) == Filter(s, Tied(before, pivot))
  {
    if s != [] {
      StableSortStable(s[..|s| - 1], before, pivot);
      InsertStable(StableSort(s[..|s| - 1], before), s[|s| - 1], before, pivot);
    }
  }

  lemma {:induction false} InsertStable<T(!new)>(s: seq<T>, x: T, before: (T, T) -> bool, pivot: T)
    requires StrictWeakOrder(before)
    ensures var same := Tied(before, pivot);
            Filter(InsertLast(s, x, before), same) == Filter(s, same) + (if same(x) then [x] else [])
  {
    if !(s == [] || !before(x, s[|s| - 1])) {
      InsertStable(s[..|s| - 1], x, before, pivot);
      assert Tied(before, pivot)(x) ==> !Tied(before, pivot)(s[|s| - 1]);
    }
  }
}
