/**
 Fusing the two low-rank attention projections of a layer (awex/converter/mcore_converter.py):
 whichever arrives first waits in a cache, and the second makes one fused tensor, laid out
 so that the inference ranks' chunks of it are their own query rows followed by their own KV rows.
 */
module MlaFusion {
  import opened Wrappers
  import opened Seqs
  import opened Slices
  import Arithmetic

  /** A tensor by its rows; the number of dimensions and of columns are kept for the shape checks. */
  datatype Tensor<V> = Tensor(dim: nat, cols: nat, rows: seq<V>)

  datatype FuseError = BadTpSize | NotMatrices | ColumnMismatch | QueryRowsIndivisible | KvRowsIndivisible

  // ----- the packed layout

  /** Rank i's query rows and then its KV rows, rank after rank. */
  function PackedRows<V>(q: seq<seq<V>>, kv: seq<seq<V>>, n: nat): seq<seq<V>>
    requires n <= |q| && n <= |kv|
  {
    seq(n, i requires 0 <= i < n => q[i] + kv[i])
  }

  function PackError<V>(q: Tensor<V>, kv: Tensor<V>, tp: int): Option<FuseError> {
    if tp <= 0 then Some(BadTpSize)
    else if q.dim != 2 || kv.dim != 2 then Some(NotMatrices)
    else if q.cols != kv.cols then Some(ColumnMismatch)
    else if |q.rows| % tp != 0 then Some(QueryRowsIndivisible)
    else if |kv.rows| % tp != 0 then Some(KvRowsIndivisible)
    else None
  }

  lemma EvenChunks<V>(x: seq<V>, tp: int)
    requires tp > 0 && |x| % tp == 0
    ensures |TorchChunk(x, tp)| == tp
    ensures Uniform(TorchChunk(x, tp), |x| / tp)
    ensures forall i :: 0 <= i < tp ==>
              var m := |x| / tp; 0 <= i * m <= i * m + m <= |x| && TorchChunk(x, tp)[i] == x[i * m..i * m + m]
  {
    Arithmetic.DivModParts(|x|, tp);
    TorchChunkEven(x, tp, |x| / tp);
  }

  function Pack<V>(q: Tensor<V>, kv: Tensor<V>, tp: int): Result<Tensor<V>, FuseError> {
    match PackError(q, kv, tp)
    case Some(e) => Err(e)
    case None =>
      EvenChunks(q.rows, tp);
      EvenChunks(kv.rows, tp);
      Ok(Tensor(2, q.cols, Flatten(PackedRows(TorchChunk(q.rows, tp), TorchChunk(kv.rows, tp), tp))))
  }

  /** The i-th of tp chunks is the i-th part of the query rows and then the i-th part of the KV rows. */
  ghost predicate HasOwnRows<V>(q: Tensor<V>, kv: Tensor<V>, tp: int, packed: Tensor<V>, i: nat) {
    tp > 0 &&
    var a, b := |q.rows| / tp, |kv.rows| / tp;
    && i < |TorchChunk(packed.rows, tp)| == tp
    && 0 <= i * a <= i * a + a <= |q.rows| && 0 <= i * b <= i * b + b <= |kv.rows|
    && TorchChunk(packed.rows, tp)[i] == q.rows[i * a..i * a + a] + kv.rows[i * b..i * b + b]
  }

  /** Cutting the packed tensor for the inference ranks gives rank i its own rows of both projections. */
  lemma PackedChunk<V>(q: Tensor<V>, kv: Tensor<V>, tp: int, i: nat)
    requires PackError(q, kv, tp).None? && i < tp
    ensures HasOwnRows(q, kv, tp, Pack(q, kv, tp).value, i)
  {
    EvenChunks(q.rows, tp);
    EvenChunks(kv.rows, tp);
    var parts, m := PackedRows(TorchChunk(q.rows, tp), TorchChunk(kv.rows, tp), tp), |q.rows| / tp + |kv.rows| / tp;
    ChunkIsPart(parts, m, i);
  }

  lemma ChunkIsPart<V>(parts: seq<seq<V>>, m: nat, i: nat)
    requires Uniform(parts, m) && i < |parts|
    ensures |TorchChunk(Flatten(parts), |parts|)| == |parts| && TorchChunk(Flatten(parts), |parts|)[i] == parts[i]
  {
    UniformLength(parts, m);
    TorchChunkEven(Flatten(parts), |parts|, m);
    PartSlice(parts, m, i);
  }

  lemma PartSlice<V>(parts: seq<seq<V>>, m: nat, i: nat)
    requires Uniform(parts, m) && i < |parts|
    ensures 0 <= i * m <= i * m + m <= |Flatten(parts)| && Flatten(parts)[i * m..i * m + m] == parts[i]
  {
    UniformSlice(parts, m, i, i + 1);
    Arithmetic.Distribute(i, 1, m);
    assert parts[i..i + 1] == [parts[i]];
    assert [parts[i]][..0] == [];
  }

  /** Uncut attention takes the plain concatenation; otherwise the rows are packed. */
  function Fuse<V>(q: Tensor<V>, kv: Tensor<V>, attnTp: nat, inferTp: int): Result<Tensor<V>, FuseError> {
    if attnTp != 1 then Pack(q, kv, inferTp)
    else if q.dim != kv.dim || q.cols != kv.cols then Err(ColumnMismatch)
    else Ok(Tensor(q.dim, q.cols, q.rows + kv.rows))
  }

  /** The shapes that can be fused: matching ones if attention is uncut, else ones the inference ranks can share. */
  predicate Fits<V>(q: Tensor<V>, kv: Tensor<V>, attnTp: nat, inferTp: int) {
    && q.dim == kv.dim && q.cols == kv.cols
    && (attnTp != 1 ==> inferTp > 0 && q.dim == 2 && |q.rows| % inferTp == 0 && |kv.rows| % inferTp == 0)
  }

  /**
   Uncut attention gets all query rows and then all KV rows; cut attention gets a tensor
   whose i-th chunk is rank i's query rows and then its KV rows.
   */
  ghost predicate LaidOut<V>(q: Tensor<V>, kv: Tensor<V>, attnTp: nat, inferTp: int, fused: Tensor<V>) {
    && fused.dim == q.dim && fused.cols == q.cols
    && (attnTp == 1 ==>
          && |fused.rows| == |q.rows| + |kv.rows|
          && fused.rows[..|q.rows|] == q.rows && fused.rows[|q.rows|..] == kv.rows)
    && (attnTp != 1 ==> forall i :: 0 <= i < inferTp ==> HasOwnRows(q, kv, inferTp, fused, i))
  }

  lemma FuseLaysOut<V>(q: Tensor<V>, kv: Tensor<V>, attnTp: nat, inferTp: int)
    ensures Fuse(q, kv, attnTp, inferTp).Ok? <==> Fits(q, kv, attnTp, inferTp)
    ensures Fits(q, kv, attnTp, inferTp) ==> LaidOut(q, kv, attnTp, inferTp, Fuse(q, kv, attnTp, inferTp).value)
  {
    if Fits(q, kv, attnTp, inferTp) && attnTp != 1 {
      forall i | 0 <= i < inferTp ensures HasOwnRows(q, kv, inferTp, Pack(q, kv, inferTp).value, i) {
        PackedChunk(q, kv, inferTp, i);
      }
    }
  }

  // ----- the cache

  datatype Kind = QueryA | KvA | Other

  /** What a layer has waiting. */
  datatype Slots<V> = Slots(q: Option<Tensor<V>>, kv: Option<Tensor<V>>)

  datatype Arrival<V> = Arrival(kind: Kind, layer: nat, tensor: Tensor<V>)

  /** A converted parameter: a layer's fused tensor, or a parameter passed through. */
  datatype Emitted<V> = Fused(layer: nat, tensor: Tensor<V>) | Passed(layer: nat, tensor: Tensor<V>)

  type Cache<V> = map<nat, Slots<V>>

  function SlotsOf<V>(cache: Cache<V>, layer: nat): Slots<V> {
    if layer in cache then cache[layer] else Slots(None, None)
  }

  function Put<V>(slots: Slots<V>, a: Arrival<V>): Slots<V> {
    match a.kind
    case QueryA => slots.(q := Some(a.tensor))
    case KvA => slots.(kv := Some(a.tensor))
    case Other => slots
  }

  /** The cache and the output after one parameter; a refused fusion leaves both halves waiting. */
  function Step<V>(cache: Cache<V>, a: Arrival<V>, attnTp: nat, inferTp: int)
    : (Cache<V>, Result<seq<Emitted<V>>, FuseError>)
  {
    var slots := Put(SlotsOf(cache, a.layer), a);
    if a.kind.Other? then (cache[a.layer := slots], Ok([Passed(a.layer, a.tensor)]))
    else if slots.q.None? || slots.kv.None? then (cache[a.layer := slots], Ok([]))
    else
      match Fuse(slots.q.value, slots.kv.value, attnTp, inferTp)
      case Err(e) => (cache[a.layer := slots], Err(e))
      case Ok(t) => (cache - {a.layer}, Ok([Fused(a.layer, t)]))
  }

  class Converter<V> {
    const attnTp: nat
    const inferTp: int
    var cache: Cache<V>

    constructor (attnTp: nat, inferTp: int)
      ensures this.attnTp == attnTp && this.inferTp == inferTp && cache == map[]
    {
      this.attnTp, this.inferTp, cache := attnTp, inferTp, map[];
    }

    /** Rank by rank, query rows and then KV rows; every rank's chunk of the result is its own rows. */
    method PackFused(q: Tensor<V>, kv: Tensor<V>) returns (r: Result<Tensor<V>, FuseError>)
      ensures r == Pack(q, kv, inferTp)
      ensures r.Err? <==> PackError(q, kv, inferTp).Some?
      ensures r.Ok? ==> forall i :: 0 <= i < inferTp ==> HasOwnRows(q, kv, inferTp, r.value, i)
    {
      var error := PackError(q, kv, inferTp);
      if error.Some? {
        return Err(error.value);
      }
      EvenChunks(q.rows, inferTp);
      EvenChunks(kv.rows, inferTp);
      var queries, keys := TorchChunk(q.rows, inferTp), TorchChunk(kv.rows, inferTp);
      var rows: seq<V> := [];
      for i := 0 to inferTp
        invariant rows == Flatten(PackedRows(queries, keys, i))
      {
        assert PackedRows(queries, keys, i + 1)[..i] == PackedRows(queries, keys, i);
        rows := rows + (queries[i] + keys[i]);
      }
      r := Ok(Tensor(2, q.cols, rows));
      forall i | 0 <= i < inferTp ensures HasOwnRows(q, kv, inferTp, r.value, i) {
        PackedChunk(q, kv, inferTp, i);
      }
    }

    method FuseHalves(q: Tensor<V>, kv: Tensor<V>) returns (r: Result<Tensor<V>, FuseError>)
      ensures r == Fuse(q, kv, attnTp, inferTp)
      ensures r.Ok? <==> Fits(q, kv, attnTp, inferTp)
      ensures r.Ok? ==> LaidOut(q, kv, attnTp, inferTp, r.value)
    {
      FuseLaysOut(q, kv, attnTp, inferTp);
      if attnTp == 1 {
        if q.dim != kv.dim || q.cols != kv.cols {
          return Err(ColumnMismatch);
        }
        r := Ok(Tensor(q.dim, q.cols, q.rows + kv.rows));
      } else {
        r := PackFused(q, kv);
      }
    }

    method TryFuseQkvAProj(a: Arrival<V>) returns (r: Result<seq<Emitted<V>>, FuseError>)
      modifies this`cache
      ensures (cache, r) == Step(old(cache), a, attnTp, inferTp)
      ensures a.kind.Other? ==> r == Ok([Passed(a.layer, a.tensor)])
      ensures a.kind.Other? ==> forall layer: nat :: SlotsOf(cache, layer) == SlotsOf(old(cache), layer)
      ensures forall layer: nat :: layer != a.layer ==> SlotsOf(cache, layer) == SlotsOf(old(cache), layer)
      ensures !a.kind.Other? && (r.Err? || r.value == []) ==>
                SlotsOf(cache, a.layer) == Put(SlotsOf(old(cache), a.layer), a)
      ensures !a.kind.Other? && r.Ok? && r.value != [] ==> a.layer !in cache
      ensures !a.kind.Other? && r.Ok? && r.value != [] ==>
                var slots := Put(SlotsOf(old(cache), a.layer), a);
                && slots.q.Some? && slots.kv.Some? && |r.value| == 1 && r.value[0].Fused? && r.value[0].layer == a.layer
                && LaidOut(slots.q.value, slots.kv.value, attnTp, inferTp, r.value[0].tensor)
    {
      ghost var before := SlotsOf(cache, a.layer);
      if a.layer !in cache {
        cache := cache[a.layer := Slots(None, None)];
      }
      assert cache == old(cache)[a.layer := before];
      if a.kind.Other? {
        return Ok([Passed(a.layer, a.tensor)]);
      }
      cache := cache[a.layer := Put(cache[a.layer], a)];
      assert cache == old(cache)[a.layer := Put(before, a)];
      var slots := cache[a.layer];
      if (a.kind.QueryA? && slots.kv.None?) || (a.kind.KvA? && slots.q.None?) {
        return Ok([]);
      }
      var fused := FuseHalves(slots.q.value, slots.kv.value);
      if fused.Err? {
        return Err(fused.error);
      }
      cache := cache - {a.layer};
      assert cache == old(cache) - {a.layer};
      r := Ok([Fused(a.layer, fused.value)]);
    }
  }

  // ----- any arrival order

  datatype State<V> = State(cache: Cache<V>, emitted: seq<Emitted<V>>)

  /** One parameter after another, until one is refused. */
  function RunOf<V>(arrivals: seq<Arrival<V>>, attnTp: nat, inferTp: int): Result<State<V>, FuseError> {
    if arrivals == [] then Ok(State(map[], [])) else
      match RunOf(arrivals[..|arrivals| - 1], attnTp, inferTp)
      case Err(e) => Err(e)
      case Ok(s) =>
        var (cache, out) := Step(s.cache, arrivals[|arrivals| - 1], attnTp, inferTp);
        match out
        case Err(e) => Err(e)
        case Ok(more) => Ok(State(cache, s.emitted + more))
  }

  /** Only the two projections arrive, each of a layer at most once. */
  predicate EachOnce<V>(arrivals: seq<Arrival<V>>) {
    && (forall i :: 0 <= i < |arrivals| ==> !arrivals[i].kind.Other?)
    && (forall i, j :: 0 <= i < j < |arrivals| && arrivals[i].layer == arrivals[j].layer ==>
          arrivals[i].kind != arrivals[j].kind)
  }

  /** The tensor of one kind and layer among the arrivals. */
  function Arrived<V>(arrivals: seq<Arrival<V>>, kind: Kind, layer: nat): Option<Tensor<V>> {
    if arrivals == [] then None
    else
      var last := arrivals[|arrivals| - 1];
      if last.kind == kind && last.layer == layer then Some(last.tensor)
      else Arrived(arrivals[..|arrivals| - 1], kind, layer)
  }

  lemma {:induction false} ArrivedIn<V>(arrivals: seq<Arrival<V>>, kind: Kind, layer: nat)
    ensures Arrived(arrivals, kind, layer).Some? ==>
              Arrival(kind, layer, Arrived(arrivals, kind, layer).value) in arrivals
    ensures Arrived(arrivals, kind, layer).None? ==> forall i :: 0 <= i < |arrivals| ==>
              arrivals[i].kind != kind || arrivals[i].layer != layer
  {
    if arrivals != [] {
      ArrivedIn(arrivals[..|arrivals| - 1], kind, layer);
    }
  }

  /** Every layer both of whose projections arrive can be fused. */
  ghost predicate Fusable<V>(arrivals: seq<Arrival<V>>, attnTp: nat, inferTp: int) {
    forall i, j :: 0 <= i < |arrivals| && 0 <= j < |arrivals| && Partners(arrivals[i], arrivals[j]) ==>
      Fits(arrivals[i].tensor, arrivals[j].tensor, attnTp, inferTp)
  }

  predicate Partners<V>(a: Arrival<V>, b: Arrival<V>) { a.layer == b.layer && a.kind.QueryA? && b.kind.KvA? }

  function OfLayer<V(!new)>(layer: nat): Emitted<V> -> bool { (e: Emitted<V>) => e.layer == layer }

  /** What has been emitted for a layer, and what waits. */
  ghost predicate Sorted<V(!new)>(s: State<V>, q: Option<Tensor<V>>, kv: Option<Tensor<V>>, layer: nat, attnTp: nat,
                                  inferTp: int)
  {
    if q.Some? && kv.Some? then
      && layer !in s.cache && Fuse(q.value, kv.value, attnTp, inferTp).Ok?
      && Filter(s.emitted, OfLayer<V>(layer)) == [Fused(layer, Fuse(q.value, kv.value, attnTp, inferTp).value)]
    else
      && (layer in s.cache <==> q.Some? || kv.Some?) && SlotsOf(s.cache, layer) == Slots(q, kv)
      && Filter(s.emitted, OfLayer<V>(layer)) == []
  }

  /** A parameter of another layer changes nothing for this one. */
  lemma OtherLayerKeeps<V(!new)>(s: State<V>, a: Arrival<V>, q: Option<Tensor<V>>, kv: Option<Tensor<V>>, layer: nat,
                                 attnTp: nat, inferTp: int)
    requires Sorted(s, q, kv, layer, attnTp, inferTp) && a.layer != layer && Step(s.cache, a, attnTp, inferTp).1.Ok?
    ensures var (cache, out) := Step(s.cache, a, attnTp, inferTp);
            Sorted(State(cache, s.emitted + out.value), q, kv, layer, attnTp, inferTp)
  {
    var (cache, out) := Step(s.cache, a, attnTp, inferTp);
    FilterConcat(s.emitted, out.value, OfLayer<V>(layer));
    FilterNone(out.value, OfLayer<V>(layer));
  }

  /** The first projection of a layer waits; the second completes it. */
  lemma OwnLayerKeeps<V(!new)>(s: State<V>, a: Arrival<V>, q: Option<Tensor<V>>, kv: Option<Tensor<V>>, attnTp: nat,
                               inferTp: int)
    requires Sorted(s, q, kv, a.layer, attnTp, inferTp) && !a.kind.Other?
    requires (a.kind.QueryA? ==> q.None?) && (a.kind.KvA? ==> kv.None?)
    requires var slots := Put(Slots(q, kv), a);
             slots.q.Some? && slots.kv.Some? ==> Fits(slots.q.value, slots.kv.value, attnTp, inferTp)
    ensures var (cache, out) := Step(s.cache, a, attnTp, inferTp);
            var slots := Put(Slots(q, kv), a);
            out.Ok? && Sorted(State(cache, s.emitted + out.value), slots.q, slots.kv, a.layer, attnTp, inferTp)
  {
    var (cache, out) := Step(s.cache, a, attnTp, inferTp);
    var slots := Put(Slots(q, kv), a);
    if slots.q.Some? && slots.kv.Some? {
      FuseLaysOut(slots.q.value, slots.kv.value, attnTp, inferTp);
    }
    FilterConcat(s.emitted, out.value, OfLayer<V>(a.layer));
    FilterAll(out.value, OfLayer<V>(a.layer));
  }

  /** The layer's own two projections among the arrivals. */
  function ArrivedSlots<V>(arrivals: seq<Arrival<V>>, layer: nat): Slots<V> {
    Slots(Arrived(arrivals, QueryA, layer), Arrived(arrivals, KvA, layer))
  }

  ghost predicate AllSorted<V(!new)>(s: State<V>, arrivals: seq<Arrival<V>>, attnTp: nat, inferTp: int) {
    forall layer: nat :: Sorted(s, Arrived(arrivals, QueryA, layer), Arrived(arrivals, KvA, layer), layer, attnTp,
                                inferTp)
  }

  /** Before the last parameter, its own kind has not arrived for its layer, and it fuses with what has. */
  lemma LastIsNew<V>(arrivals: seq<Arrival<V>>, attnTp: nat, inferTp: int)
    requires arrivals != [] && EachOnce(arrivals) && Fusable(arrivals, attnTp, inferTp)
    ensures var fewer, a := arrivals[..|arrivals| - 1], arrivals[|arrivals| - 1];
            var before := ArrivedSlots(fewer, a.layer);
            var slots := Put(before, a);
            && EachOnce(fewer) && Fusable(fewer, attnTp, inferTp) && !a.kind.Other?
            && (a.kind.QueryA? ==> before.q.None?) && (a.kind.KvA? ==> before.kv.None?)
            && (slots.q.Some? && slots.kv.Some? ==> Fits(slots.q.value, slots.kv.value, attnTp, inferTp))
            && ArrivedSlots(arrivals, a.layer) == slots
  {
    var fewer, a := arrivals[..|arrivals| - 1], arrivals[|arrivals| - 1];
    ArrivedIn(fewer, QueryA, a.layer);
    ArrivedIn(fewer, KvA, a.layer);
    if a.kind.QueryA? {
      if kv :| Arrived(fewer, KvA, a.layer) == Some(kv) {
        var j :| 0 <= j < |fewer| && fewer[j] == Arrival(KvA, a.layer, kv);
        assert Partners(arrivals[|arrivals| - 1], arrivals[j]);
      }
    } else {
      if q :| Arrived(fewer, QueryA, a.layer) == Some(q) {
        var j :| 0 <= j < |fewer| && fewer[j] == Arrival(QueryA, a.layer, q);
        assert Partners(arrivals[j], arrivals[|arrivals| - 1]);
      }
    }
  }

  lemma {:induction false} RunKeeps<V(!new)>(arrivals: seq<Arrival<V>>, attnTp: nat, inferTp: int)
    requires EachOnce(arrivals) && Fusable(arrivals, attnTp, inferTp)
    ensures RunOf(arrivals, attnTp, inferTp).Ok?
    ensures AllSorted(RunOf(arrivals, attnTp, inferTp).value, arrivals, attnTp, inferTp)
  {
    if arrivals != [] {
      var fewer, a := arrivals[..|arrivals| - 1], arrivals[|arrivals| - 1];
      LastIsNew(arrivals, attnTp, inferTp);
      RunKeeps(fewer, attnTp, inferTp);
      var s := RunOf(fewer, attnTp, inferTp).value;
      var before := ArrivedSlots(fewer, a.layer);
      OwnLayerKeeps(s, a, before.q, before.kv, attnTp, inferTp);
      var (cache, out) := Step(s.cache, a, attnTp, inferTp);
      forall layer: nat
        ensures Sorted(State(cache, s.emitted + out.value),
                       Arrived(arrivals, QueryA, layer), Arrived(arrivals, KvA, layer), layer, attnTp, inferTp)
      {
        if layer != a.layer {
          OtherLayerKeeps(s, a, Arrived(fewer, QueryA, layer), Arrived(fewer, KvA, layer), layer, attnTp, inferTp);
        }
      }
    }
  }

  /** Both projections of a layer arrive whenever one does. */
  ghost predicate Paired<V>(arrivals: seq<Arrival<V>>) {
    forall i :: 0 <= i < |arrivals| ==>
      Arrived(arrivals, QueryA, arrivals[i].layer).Some? && Arrived(arrivals, KvA, arrivals[i].layer).Some?
  }

  /** In any order, every layer gets exactly one fused tensor, laid out for its readers, and the cache ends empty. */
  lemma EveryLayerFusedOnce<V(!new)>(arrivals: seq<Arrival<V>>, attnTp: nat, inferTp: int)
    requires EachOnce(arrivals) && Paired(arrivals) && Fusable(arrivals, attnTp, inferTp)
    ensures RunOf(arrivals, attnTp, inferTp).Ok? && RunOf(arrivals, attnTp, inferTp).value.cache == map[]
    ensures forall i :: 0 <= i < |arrivals| ==>
              FusedOnce(RunOf(arrivals, attnTp, inferTp).value.emitted, arrivals, arrivals[i].layer, attnTp, inferTp)
  {
    RunKeeps(arrivals, attnTp, inferTp);
    var s := RunOf(arrivals, attnTp, inferTp).value;
    forall layer: nat ensures layer !in s.cache {
      var q, kv := Arrived(arrivals, QueryA, layer), Arrived(arrivals, KvA, layer);
      assert Sorted(s, q, kv, layer, attnTp, inferTp);
      ArrivedIn(arrivals, QueryA, layer);
      ArrivedIn(arrivals, KvA, layer);
    }
    forall i | 0 <= i < |arrivals|
      ensures FusedOnce(s.emitted, arrivals, arrivals[i].layer, attnTp, inferTp)
    {
      var q, kv := Arrived(arrivals, QueryA, arrivals[i].layer), Arrived(arrivals, KvA, arrivals[i].layer);
      assert Sorted(s, q, kv, arrivals[i].layer, attnTp, inferTp);
      FuseLaysOut(q.value, kv.value, attnTp, inferTp);
      ArrivedIn(arrivals, QueryA, arrivals[i].layer);
      ArrivedIn(arrivals, KvA, arrivals[i].layer);
    }
  }

  /** One tensor was emitted for the layer: its own two projections in their layout. */
  ghost predicate FusedOnce<V(!new)>(emitted: seq<Emitted<V>>, arrivals: seq<Arrival<V>>, layer: nat, attnTp: nat,
                                     inferTp: int)
  {
    var out := Filter(emitted, OfLayer<V>(layer));
    && |out| == 1 && out[0].Fused? && out[0].layer == layer
    && exists i, j :: 0 <= i < |arrivals| && 0 <= j < |arrivals| && Partners(arrivals[i], arrivals[j])
                      && arrivals[i].layer == layer
                      && LaidOut(arrivals[i].tensor, arrivals[j].tensor, attnTp, inferTp, out[0].tensor)
  }

  /** What a layer gets does not depend on the order of arrival. */
  lemma OrderIrrelevant<V(!new)>(a: seq<Arrival<V>>, b: seq<Arrival<V>>, attnTp: nat, inferTp: int, layer: nat)
    requires EachOnce(a) && EachOnce(b) && Fusable(a, attnTp, inferTp) && Fusable(b, attnTp, inferTp)
    requires forall x :: x in a <==> x in b
    ensures RunOf(a, attnTp, inferTp).Ok? && RunOf(b, attnTp, inferTp).Ok?
    ensures Filter(RunOf(a, attnTp, inferTp).value.emitted, OfLayer<V>(layer))
         == Filter(RunOf(b, attnTp, inferTp).value.emitted, OfLayer<V>(layer))
    ensures SlotsOf(RunOf(a, attnTp, inferTp).value.cache, layer)
            == SlotsOf(RunOf(b, attnTp, inferTp).value.cache, layer)
  {
    RunKeeps(a, attnTp, inferTp);
    RunKeeps(b, attnTp, inferTp);
    SameArrived(a, b, QueryA, layer);
    SameArrived(a, b, KvA, layer);
    var q, kv := Arrived(a, QueryA, layer), Arrived(a, KvA, layer);
    assert Sorted(RunOf(a, attnTp, inferTp).value, q, kv, layer, attnTp, inferTp);
    assert Sorted(RunOf(b, attnTp, inferTp).value, q, kv, layer, attnTp, inferTp);
  }

  lemma SameArrived<V>(a: seq<Arrival<V>>, b: seq<Arrival<V>>, kind: Kind, layer: nat)
    requires EachOnce(a) && EachOnce(b) && forall x :: x in a <==> x in b
    ensures Arrived(a, kind, layer) == Arrived(b, kind, layer)
  {
    ArrivedIn(a, kind, layer);
    ArrivedIn(b, kind, layer);
  }
}
