/** List slices as Python takes them, and cutting a list into chunks and putting it back together. */
module Slices {
  import opened Seqs
  import opened Arithmetic

  function Min(a: nat, b: nat): nat { if a <= b then a else b }
  function Max(a: nat, b: nat): nat { if a >= b then a else b }

  /** Bounds past the end are cut back. */
  function SliceOf<T>(s: seq<T>, start: nat, end: nat): seq<T>
    requires start <= end
  {
    s[Min(start, |s|)..Min(end, |s|)]
  }

  /** Where chunk c begins. */
  function ChunkStart(c: nat, step: nat): nat { c * step }

  function Chunk<T>(ops: seq<T>, c: nat, step: nat): seq<T> {
    SliceOf(ops, ChunkStart(c, step), ChunkStart(c, step) + step)
  }

  function Chunks<T>(ops: seq<T>, n: nat, step: nat): seq<seq<T>> {
    seq(n, c requires 0 <= c < n => Chunk(ops, c, step))
  }

  lemma {:induction false} ChunksPrefix<T>(ops: seq<T>, n: nat, step: nat)
    ensures Flatten(Chunks(ops, n, step)) == ops[..Min(n * step, |ops|)]
  {
    if n > 0 {
      ChunksPrefix(ops, n - 1, step);
      assert Chunks(ops, n, step)[..n - 1] == Chunks(ops, n - 1, step);
      SliceExtends(ops, (n - 1) * step, step);
      Distribute(n - 1, 1, step);
    }
  }

  lemma SliceExtends<T>(s: seq<T>, start: nat, step: nat)
    ensures s[..Min(start, |s|)] + SliceOf(s, start, start + step) == s[..Min(start + step, |s|)]
  {}

  /** Enough chunks put together are the whole list. */
  lemma ChunksJoin<T>(ops: seq<T>, n: nat, step: nat)
    requires n * step >= |ops|
    ensures Flatten(Chunks(ops, n, step)) == ops
  {
    ChunksPrefix(ops, n, step);
  }

  function CeilDiv(x: nat, d: pos): nat { (x + d - 1) / d }

  lemma CeilingCovers(x: nat, step: nat, n: nat)
    requires step > 0 && n >= CeilDiv(x, step)
    ensures x <= n * step
  {
    DivModParts(x + step - 1, step);
    MulOrder(CeilDiv(x, step), n, step);
  }

  lemma CeilingTight(x: nat, step: nat, n: nat)
    requires step > 0 && n > 0 && n == CeilDiv(x, step)
    ensures (n - 1) * step < x
  {
    DivModParts(x + step - 1, step);
    Distribute(n - 1, 1, step);
  }

  // ----- torch.chunk

  /** Chunks of the length divided by n, rounded up; the last may be shorter, and there may be fewer than n. */
  function TorchChunk<T>(x: seq<T>, n: pos): seq<seq<T>> {
    var size := CeilDiv(|x|, n);
    if size == 0 then seq(n, i => []) else Chunks(x, CeilDiv(|x|, size), size)
  }

  /** The chunks put together are the whole tensor, whether or not they come out even. */
  lemma TorchChunkJoins<T>(x: seq<T>, n: pos)
    ensures Flatten(TorchChunk(x, n)) == x
  {
    var size := CeilDiv(|x|, n);
    CeilingCovers(|x|, n, size);
    if size == 0 {
      FlattenEmpties<T>(n);
    } else {
      CeilingCovers(|x|, size, CeilDiv(|x|, size));
      ChunksJoin(x, CeilDiv(|x|, size), size);
    }
  }

  lemma {:induction false} FlattenEmpties<T>(n: nat)
    ensures Flatten(seq<seq<T>>(n, i => [])) == []
  {
    if n > 0 {
      FlattenEmpties<T>(n - 1);
      assert seq<seq<T>>(n, i => [])[..n - 1] == seq<seq<T>>(n - 1, i => []);
    }
  }

  lemma EvenCeilings(n: pos, m: nat)
    ensures CeilDiv(n * m, n) == m && (m > 0 ==> CeilDiv(n * m, m) == n)
  {
    DivModUnique(n * m + n - 1, m, n - 1, n);
    if m > 0 {
      DivModUnique(n * m + m - 1, n, m - 1, m);
    }
  }

  /** An even split: n chunks, each of length m. */
  lemma TorchChunkEven<T>(x: seq<T>, n: pos, m: nat)
    requires |x| == n * m
    ensures |TorchChunk(x, n)| == n
    ensures forall i :: 0 <= i < n ==> 0 <= i * m <= i * m + m <= |x| && TorchChunk(x, n)[i] == x[i * m..i * m + m]
  {
    EvenCeilings(n, m);
    forall i | 0 <= i < n ensures 0 <= i * m <= i * m + m <= |x| && TorchChunk(x, n)[i] == x[i * m..i * m + m] {
      MulOrder(i, n, m);
    }
  }

  // ----- parts of one length

  predicate Uniform<T>(parts: seq<seq<T>>, m: nat) {
    forall i :: 0 <= i < |parts| ==> |parts[i]| == m
  }

  lemma {:induction false} UniformLength<T>(parts: seq<seq<T>>, m: nat)
    requires Uniform(parts, m)
    ensures |Flatten(parts)| == |parts| * m
  {
    if parts != [] {
      UniformLength(parts[..|parts| - 1], m);
      Distribute(|parts| - 1, 1, m);
    }
  }

  /** Consecutive parts are a slice of the whole. */
  lemma UniformSlice<T>(parts: seq<seq<T>>, m: nat, a: nat, b: nat)
    requires Uniform(parts, m) && a <= b <= |parts|
    ensures 0 <= a * m <= b * m <= |Flatten(parts)|
    ensures Flatten(parts)[a * m..b * m] == Flatten(parts[a..b])
  {
    var x, y, z := parts[..a], parts[a..b], parts[b..];
    assert parts == x + y + z;
    FlattenThree(x, y, z);
    UniformLength(x, m);
    UniformLength(y, m);
    Distribute(a, b - a, m);
    Middle(Flatten(parts), Flatten(x), Flatten(y), Flatten(z));
  }

  lemma FlattenThree<T>(x: seq<seq<T>>, y: seq<seq<T>>, z: seq<seq<T>>)
    ensures Flatten(x + y + z) == Flatten(x) + Flatten(y) + Flatten(z)
  {
    FlattenConcat(x + y, z);
    FlattenConcat(x, y);
  }

}
