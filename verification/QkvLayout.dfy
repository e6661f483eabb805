/**
 Regrouping the fused QKV tensor (awex/converter/mcore_converter.py): training keeps, per
 KV group, the group's query heads, its key head and its value head; inference wants, per
 tensor-parallel rank, that rank's query heads and exactly the KV heads they attend to.
 A tensor is the list of its rows; for a bias a row is a single element.
 */
module QkvLayout {
  import opened Wrappers
  import opened Seqs
  import opened Slices
  import opened Arithmetic

  datatype Config = Config(hidden: nat, heads: nat, groups: nat, kvChannels: Option<nat>)

  datatype LayoutError = NotDivisible | OtherFormat | NoRanks | TrainRankMissing | TrainRankOutOfRange

  /** The source's divide: refuses a remainder, and a zero divisor. */
  function Divide(x: nat, d: nat): Result<nat, LayoutError> {
    if d == 0 || x % d != 0 then Err(NotDivisible) else Ok(x / d)
  }

  function HeadSize(cfg: Config): Result<nat, LayoutError> {
    match cfg.kvChannels case Some(k) => Ok(k) case None => Divide(cfg.hidden, cfg.heads)
  }

  /** The query, key and value rows, each gathered from all groups. */
  datatype Parts<V> = Parts(query: seq<V>, key: seq<V>, value: seq<V>)

  /** From every group, the rows from position `at` on, `len` of them. */
  function Pieces<V>(chunks: seq<seq<V>>, at: nat, len: nat): seq<seq<V>> {
    seq(|chunks|, g requires 0 <= g < |chunks| => SliceOf(chunks[g], at, at + len))
  }

  function Stride(d: nat, k: nat): nat { d * k + 2 * d }

  /** Not the compact format; a bias is first tried as the replicated one. */
  predicate IsOther(rows: nat, cfg: Config, d: nat, k: nat, isBias: bool) {
    (isBias && rows == 3 * cfg.hidden) || rows != cfg.groups * Stride(d, k)
  }

  function SplitOf<V>(chunks: seq<seq<V>>, eachQuery: nat, d: nat): Parts<V> {
    Parts(Flatten(Pieces(chunks, 0, eachQuery)), Flatten(Pieces(chunks, eachQuery, d)),
          Flatten(Pieces(chunks, eachQuery + d, d)))
  }

  /** The compact format; a bias is first tried as the replicated format, which is not modelled. */
  function TransformOf<V>(x: seq<V>, cfg: Config, isBias: bool): Result<Parts<V>, LayoutError> {
    match HeadSize(cfg)
    case Err(e) => Err(e)
    case Ok(d) =>
      match Divide(cfg.heads, cfg.groups)
      case Err(e) => Err(e)
      case Ok(k) =>
        if IsOther(|x|, cfg, d, k, isBias) then Err(OtherFormat)
        else Ok(SplitOf(TorchChunk(x, cfg.groups), d * k, d))
  }

  method TransformMcoreQkv<V>(x: seq<V>, cfg: Config, isBias: bool) returns (r: Result<Parts<V>, LayoutError>)
    ensures r == TransformOf(x, cfg, isBias)
  {
    var headSize := HeadSize(cfg);
    if headSize.Err? {
      return Err(headSize.error);
    }
    var perGroup := Divide(cfg.heads, cfg.groups);
    if perGroup.Err? {
      return Err(perGroup.error);
    }
    var d, k := headSize.value, perGroup.value;
    if IsOther(|x|, cfg, d, k, isBias) {
      return Err(OtherFormat);
    }
    TorchChunkEven(x, cfg.groups, Stride(d, k));
    var parts := SplitGroups(TorchChunk(x, cfg.groups), d * k, d);
    r := Ok(parts);
  }

  method SplitGroups<V>(chunks: seq<seq<V>>, eachQuery: nat, d: nat) returns (parts: Parts<V>)
    requires Uniform(chunks, eachQuery + 2 * d)
    ensures parts == SplitOf(chunks, eachQuery, d)
  {
    var query, key, value: seq<V> := [], [], [];
    for g := 0 to |chunks|
      invariant query == Flatten(Pieces(chunks[..g], 0, eachQuery))
      invariant key == Flatten(Pieces(chunks[..g], eachQuery, d))
      invariant value == Flatten(Pieces(chunks[..g], eachQuery + d, d))
    {
      PieceStep(chunks, g, 0, eachQuery);
      PieceStep(chunks, g, eachQuery, d);
      PieceStep(chunks, g, eachQuery + d, d);
      query := query + chunks[g][..eachQuery];
      key := key + chunks[g][eachQuery..eachQuery + d];
      value := value + chunks[g][eachQuery + d..];
    }
    assert chunks[..|chunks|] == chunks;
    parts := Parts(query, key, value);
  }

  lemma PieceStep<V>(chunks: seq<seq<V>>, g: nat, at: nat, len: nat)
    requires g < |chunks|
    ensures Flatten(Pieces(chunks[..g + 1], at, len))
            == Flatten(Pieces(chunks[..g], at, len)) + SliceOf(chunks[g], at, at + len)
  {
    assert Pieces(chunks[..g + 1], at, len)[..g] == Pieces(chunks[..g], at, len);
  }

  // ----- regrouping for the inference ranks

  /** Every chunk n times in a row. */
  function Repeated<V>(chunks: seq<seq<V>>, n: pos): seq<seq<V>> {
    seq(|chunks| * n, i requires 0 <= i < |chunks| * n => (Nth(i, |chunks|, n); chunks[i / n]))
  }

  lemma Nth(i: nat, m: nat, n: pos)
    requires i < m * n
    ensures 0 <= i / n < m
  {
    Arithmetic.DivModParts(i, n);
    Arithmetic.MulOrder(i / n, 0, n);
    Arithmetic.MulOrder(m - 1, i / n, n);
  }

  /** The key or value shards: heads repeated when there are more ranks than groups. */
  function KvShards<V>(x: seq<V>, groups: pos, ranks: pos): seq<seq<V>> {
    if ranks >= groups then Repeated(TorchChunk(x, groups), Replicas(groups, ranks)) else TorchChunk(x, ranks)
  }

  function Replicas(groups: pos, ranks: nat): pos {
    if ranks >= groups && ranks / groups > 0 then ranks / groups else 1
  }

  /** Shard after shard of the three, as far as all three reach. */
  function Merged<V>(q: seq<seq<V>>, k: seq<seq<V>>, v: seq<seq<V>>, n: nat): seq<V>
    requires n <= |q| && n <= |k| && n <= |v|
  {
    if n == 0 then [] else Merged(q, k, v, n - 1) + q[n - 1] + k[n - 1] + v[n - 1]
  }

  function Shortest<V>(q: seq<seq<V>>, k: seq<seq<V>>, v: seq<seq<V>>): nat { Min(|q|, Min(|k|, |v|)) }

  function MergedOf<V>(x: seq<V>, ranks: nat, cfg: Config, isBias: bool): Result<seq<V>, LayoutError> {
    if ranks >= cfg.groups && Divide(ranks, cfg.groups).Err? then Err(NotDivisible) else
      match TransformOf(x, cfg, isBias)
      case Err(e) => Err(e)
      case Ok(p) =>
        if ranks == 0 then Err(NoRanks) else
          var q := TorchChunk(p.query, ranks);
          var k, v := KvShards(p.key, cfg.groups, ranks), KvShards(p.value, cfg.groups, ranks);
          Ok(Merged(q, k, v, Shortest(q, k, v)))
  }

  /** A training rank keeps its own chunk of the merged tensor. */
  function TrainChunk<V>(merged: seq<V>, trainRank: Option<nat>, trainSize: Option<nat>): Result<seq<V>, LayoutError> {
    if trainSize.None? || trainSize.value <= 1 then Ok(merged)
    else if trainRank.None? then Err(TrainRankMissing)
    else if trainRank.value >= |TorchChunk(merged, trainSize.value)| then Err(TrainRankOutOfRange)
    else Ok(TorchChunk(merged, trainSize.value)[trainRank.value])
  }

  function ConvertOf<V>(x: seq<V>, ranks: nat, cfg: Config, isBias: bool, trainRank: Option<nat>,
                        trainSize: Option<nat>)
    : Result<seq<V>, LayoutError>
  {
    match MergedOf(x, ranks, cfg, isBias)
    case Err(e) => Err(e)
    case Ok(merged) => TrainChunk(merged, trainRank, trainSize)
  }

  method BuildKvShards<V>(x: seq<V>, groups: pos, ranks: pos) returns (shards: seq<seq<V>>)
    ensures shards == KvShards(x, groups, ranks)
  {
    if ranks >= groups {
      var chunks, n := TorchChunk(x, groups), Replicas(groups, ranks);
      shards := [];
      for c := 0 to |chunks|
        invariant shards == Repeated(chunks[..c], n)
      {
        for copy := 0 to n
          invariant shards == Repeated(chunks[..c], n) + seq(copy, i => chunks[c])
        {
          shards := shards + [chunks[c]];
        }
        RepeatStep(chunks, c, n);
      }
      assert chunks[..|chunks|] == chunks;
    } else {
      shards := TorchChunk(x, ranks);
    }
  }

  lemma RepeatStep<V>(chunks: seq<seq<V>>, c: nat, n: pos)
    requires c < |chunks|
    ensures Repeated(chunks[..c + 1], n) == Repeated(chunks[..c], n) + seq(n, i => chunks[c])
  {
    Arithmetic.Distribute(c, 1, n);
    var longer, shorter := Repeated(chunks[..c + 1], n), Repeated(chunks[..c], n) + seq(n, i => chunks[c]);
    forall i | 0 <= i < |longer| ensures longer[i] == shorter[i] {
      Nth(i, c + 1, n);
      if i < c * n {
        Nth(i, c, n);
      } else {
        Arithmetic.DivModUnique(i, c, i - c * n, n);
      }
    }
  }

  method ConvertQkvAlongTpAttention<V>(x: seq<V>, ranks: nat, cfg: Config, isBias: bool, trainRank: Option<nat>,
                                       trainSize: Option<nat>)
    returns (r: Result<seq<V>, LayoutError>)
    ensures r == ConvertOf(x, ranks, cfg, isBias, trainRank, trainSize)
  {
    if ranks >= cfg.groups && Divide(ranks, cfg.groups).Err? {
      return Err(NotDivisible);
    }
    var parts := TransformMcoreQkv(x, cfg, isBias);
    if parts.Err? {
      return Err(parts.error);
    }
    if ranks == 0 {
      return Err(NoRanks);
    }
    var q := TorchChunk(parts.value.query, ranks);
    var k := BuildKvShards(parts.value.key, cfg.groups, ranks);
    var v := BuildKvShards(parts.value.value, cfg.groups, ranks);
    var merged := MergeShards(q, k, v);
    r := TrainChunk(merged, trainRank, trainSize);
  }

  method MergeShards<V>(q: seq<seq<V>>, k: seq<seq<V>>, v: seq<seq<V>>) returns (merged: seq<V>)
    ensures merged == Merged(q, k, v, Shortest(q, k, v))
  {
    merged := [];
    for i := 0 to Shortest(q, k, v)
      invariant merged == Merged(q, k, v, i)
    {
      merged := merged + q[i] + k[i] + v[i];
    }
  }

  // ----- the heads of a compact tensor

  function QueryHead<V>(x: seq<V>, d: nat, k: pos, h: nat): seq<V> {
    SliceOf(x, (h / k) * Stride(d, k) + (h % k) * d, (h / k) * Stride(d, k) + (h % k) * d + d)
  }

  function KeyHead<V>(x: seq<V>, d: nat, k: nat, g: nat): seq<V> {
    SliceOf(x, g * Stride(d, k) + d * k, g * Stride(d, k) + d * k + d)
  }

  function ValueHead<V>(x: seq<V>, d: nat, k: nat, g: nat): seq<V> {
    SliceOf(x, g * Stride(d, k) + d * k + d, g * Stride(d, k) + d * k + 2 * d)
  }

  function QueryHeads<V>(x: seq<V>, d: nat, k: pos, n: nat): seq<seq<V>> {
    seq(n, h requires 0 <= h < n => QueryHead(x, d, k, h))
  }

  function KeyHeads<V>(x: seq<V>, d: nat, k: nat, n: nat): seq<seq<V>> {
    seq(n, g requires 0 <= g < n => KeyHead(x, d, k, g))
  }

  function ValueHeads<V>(x: seq<V>, d: nat, k: nat, n: nat): seq<seq<V>> {
    seq(n, g requires 0 <= g < n => ValueHead(x, d, k, g))
  }

  lemma SliceOfSlice<V>(x: seq<V>, a: nat, len: nat, b: nat, c: nat)
    requires b <= c <= len && a + len <= |x|
    ensures SliceOf(SliceOf(x, a, a + len), b, c) == SliceOf(x, a + b, a + c)
    ensures |SliceOf(x, a + b, a + c)| == c - b
  {
    assert SliceOf(x, a, a + len) == x[a..a + len];
    assert x[a..a + len][b..c] == x[a + b..a + c];
  }

  lemma HeadOffset(d: nat, k: nat, g: nat, j: nat)
    requires j < k
    ensures 0 <= j * d <= j * d + d <= d * k
    ensures (g * k + j) / k == g && (g * k + j) % k == j
  {
    Arithmetic.MulOrder(j, k, d);
    Arithmetic.DivModUnique(g * k + j, g, j, k);
  }

  /** The rows of group g. */
  predicate ChunkAt<V(==)>(x: seq<V>, stride: nat, g: nat, chunk: seq<V>) {
    0 <= g * stride && g * stride + stride <= |x| && chunk == SliceOf(x, g * stride, g * stride + stride)
  }

  /** The j-th query head of a group, from the group's rows. */
  lemma GroupQuery<V>(x: seq<V>, d: nat, k: nat, g: nat, j: nat, chunk: seq<V>)
    requires j < k && ChunkAt(x, Stride(d, k), g, chunk)
    ensures Chunk(SliceOf(chunk, 0, d * k), j, d) == QueryHead(x, d, k, g * k + j)
    ensures |QueryHead(x, d, k, g * k + j)| == d
  {
    HeadOffset(d, k, g, j);
    SliceTwice(x, g * Stride(d, k), Stride(d, k), d * k, j * d, d, chunk);
  }

  /** The key and the value head of a group, from the group's rows. */
  lemma GroupKv<V>(x: seq<V>, d: nat, k: nat, g: nat, chunk: seq<V>)
    requires ChunkAt(x, Stride(d, k), g, chunk)
    ensures SliceOf(chunk, d * k, d * k + d) == KeyHead(x, d, k, g) && |KeyHead(x, d, k, g)| == d
    ensures SliceOf(chunk, d * k + d, d * k + 2 * d) == ValueHead(x, d, k, g) && |ValueHead(x, d, k, g)| == d
  {
    var stride := Stride(d, k);
    SliceOfSlice(x, g * stride, stride, d * k, d * k + d);
    SliceOfSlice(x, g * stride, stride, d * k + d, d * k + 2 * d);
  }

  lemma SliceTwice<V>(x: seq<V>, a: nat, len: nat, cut: nat, b: nat, d: nat, chunk: seq<V>)
    requires a + len <= |x| && cut <= len && b + d <= cut && chunk == SliceOf(x, a, a + len)
    ensures SliceOf(SliceOf(chunk, 0, cut), b, b + d) == SliceOf(x, a + b, a + b + d)
    ensures |SliceOf(x, a + b, a + b + d)| == d
  {
    SliceOfSlice(x, a, len, 0, cut);
    SliceOfSlice(x, a, cut, b, b + d);
  }

  function GroupHeadsOf<V>(x: seq<V>, d: nat, k: pos, g: nat): seq<seq<V>> {
    seq(k, j requires 0 <= j < k => QueryHead(x, d, k, g * k + j))
  }

  /** The query rows of one group are its query heads in order. */
  lemma GroupQueries<V>(x: seq<V>, d: nat, k: pos, g: nat, chunk: seq<V>)
    requires ChunkAt(x, Stride(d, k), g, chunk)
    ensures Flatten(GroupHeadsOf(x, d, k, g)) == SliceOf(chunk, 0, d * k)
  {
    var rows := SliceOf(chunk, 0, d * k);
    forall j | 0 <= j < k ensures GroupHeadsOf(x, d, k, g)[j] == Chunks(rows, k, d)[j] {
      GroupQuery(x, d, k, g, j, chunk);
    }
    assert GroupHeadsOf(x, d, k, g) == Chunks(rows, k, d);
    ChunksJoin(rows, k, d);
  }

  predicate ChunksOf<V(==)>(x: seq<V>, stride: nat, chunks: seq<seq<V>>) {
    forall g :: 0 <= g < |chunks| ==> ChunkAt(x, stride, g, chunks[g])
  }

  lemma {:induction false} QueriesUpTo<V>(x: seq<V>, d: nat, k: pos, stride: nat, eachQuery: nat, chunks: seq<seq<V>>)
    requires stride == Stride(d, k) && eachQuery == d * k && ChunksOf(x, stride, chunks)
    ensures Flatten(Pieces(chunks, 0, eachQuery)) == Flatten(QueryHeads(x, d, k, |chunks| * k))
  {
    if chunks != [] {
      var g := |chunks| - 1;
      QueriesUpTo(x, d, k, stride, eachQuery, chunks[..g]);
      assert chunks[..g + 1] == chunks;
      PieceStep(chunks, g, 0, eachQuery);
      GroupQueries(x, d, k, g, chunks[g]);
      HeadsExtend(x, d, k, g);
    }
  }

  lemma HeadsExtend<V>(x: seq<V>, d: nat, k: pos, g: nat)
    ensures (g + 1) * k >= 0 && g * k >= 0
    ensures Flatten(QueryHeads(x, d, k, (g + 1) * k))
            == Flatten(QueryHeads(x, d, k, g * k)) + Flatten(GroupHeadsOf(x, d, k, g))
  {
    Arithmetic.Distribute(g, 1, k);
    assert QueryHeads(x, d, k, (g + 1) * k) == QueryHeads(x, d, k, g * k) + GroupHeadsOf(x, d, k, g);
    FlattenConcat(QueryHeads(x, d, k, g * k), GroupHeadsOf(x, d, k, g));
  }

  lemma ChunksOfTensor<V>(x: seq<V>, stride: nat, groups: pos)
    requires |x| == groups * stride
    ensures |TorchChunk(x, groups)| == groups && ChunksOf(x, stride, TorchChunk(x, groups))
  {
    TorchChunkEven(x, groups, stride);
  }

  /** Splitting a compact tensor gives all query heads, all key heads and all value heads in order. */
  lemma SplitIsHeads<V>(x: seq<V>, d: nat, k: pos, groups: pos)
    requires |x| == groups * Stride(d, k)
    ensures SplitOf(TorchChunk(x, groups), d * k, d)
         == Parts(Flatten(QueryHeads(x, d, k, groups * k)), Flatten(KeyHeads(x, d, k, groups)),
                  Flatten(ValueHeads(x, d, k, groups)))
  {
    ChunksOfTensor(x, Stride(d, k), groups);
    ChunksAreHeads(x, d, k, Stride(d, k), d * k, TorchChunk(x, groups));
  }

  lemma ChunksAreHeads<V>(x: seq<V>, d: nat, k: pos, stride: nat, eachQuery: nat, chunks: seq<seq<V>>)
    requires stride == Stride(d, k) && eachQuery == d * k && ChunksOf(x, stride, chunks)
    ensures SplitOf(chunks, eachQuery, d)
         == Parts(Flatten(QueryHeads(x, d, k, |chunks| * k)), Flatten(KeyHeads(x, d, k, |chunks|)),
                  Flatten(ValueHeads(x, d, k, |chunks|)))
  {
    QueriesUpTo(x, d, k, stride, eachQuery, chunks);
    KvPieces(x, d, k, stride, eachQuery, chunks);
    SplitJoined(chunks, eachQuery, d, QueryHeads(x, d, k, |chunks| * k), KeyHeads(x, d, k, |chunks|),
                ValueHeads(x, d, k, |chunks|));
  }

  lemma SplitJoined<V>(chunks: seq<seq<V>>, eachQuery: nat, d: nat, q: seq<seq<V>>, key: seq<seq<V>>,
                       value: seq<seq<V>>)
    requires Flatten(Pieces(chunks, 0, eachQuery)) == Flatten(q)
    requires Pieces(chunks, eachQuery, d) == key && Pieces(chunks, eachQuery + d, d) == value
    ensures SplitOf(chunks, eachQuery, d) == Parts(Flatten(q), Flatten(key), Flatten(value))
  {
  }

  lemma KvPieces<V>(x: seq<V>, d: nat, k: nat, stride: nat, eachQuery: nat, chunks: seq<seq<V>>)
    requires stride == Stride(d, k) && eachQuery == d * k && ChunksOf(x, stride, chunks)
    ensures Pieces(chunks, eachQuery, d) == KeyHeads(x, d, k, |chunks|)
    ensures Pieces(chunks, eachQuery + d, d) == ValueHeads(x, d, k, |chunks|)
    ensures Uniform(KeyHeads(x, d, k, |chunks|), d) && Uniform(ValueHeads(x, d, k, |chunks|), d)
  {
    forall g | 0 <= g < |chunks|
      ensures SliceOf(chunks[g], eachQuery, eachQuery + d) == KeyHead(x, d, k, g) && |KeyHead(x, d, k, g)| == d
      ensures SliceOf(chunks[g], eachQuery + d, eachQuery + d + d) == ValueHead(x, d, k, g) &&
              |ValueHead(x, d, k, g)| == d
    {
      GroupKv(x, d, k, g, chunks[g]);
    }
  }

  lemma QueryHeadLength<V>(x: seq<V>, d: nat, k: pos, groups: nat, h: nat)
    requires h < groups * k && |x| == groups * Stride(d, k)
    ensures |QueryHead(x, d, k, h)| == d
  {
    var g, j, stride := h / k, h % k, Stride(d, k);
    Nth(h, groups, k);
    Arithmetic.DivModParts(h, k);
    Arithmetic.MulOrder(g, groups, stride);
    GroupQuery(x, d, k, g, j, SliceOf(x, g * stride, g * stride + stride));
  }

  lemma HeadsUniform<V>(x: seq<V>, d: nat, k: pos, groups: pos)
    requires |x| == groups * Stride(d, k)
    ensures Uniform(QueryHeads(x, d, k, groups * k), d)
    ensures Uniform(KeyHeads(x, d, k, groups), d) && Uniform(ValueHeads(x, d, k, groups), d)
  {
    forall h | 0 <= h < groups * k ensures |QueryHeads(x, d, k, groups * k)[h]| == d {
      QueryHeadLength(x, d, k, groups, h);
    }
    ChunksOfTensor(x, Stride(d, k), groups);
    KvPieces(x, d, k, Stride(d, k), d * k, TorchChunk(x, groups));
  }

  // ----- cutting heads evenly

  lemma ChunkIsHeads<V>(heads: seq<seq<V>>, d: nat, parts: nat, m: nat, i: nat, chunk: seq<V>)
    requires Uniform(heads, d) && |heads| == parts * m && i < parts
    requires 0 <= i * (m * d) <= i * (m * d) + m * d <= |Flatten(heads)|
    requires chunk == Flatten(heads)[i * (m * d)..i * (m * d) + m * d]
    ensures i * m >= 0 && chunk == Flatten(SliceOf(heads, i * m, i * m + m))
  {
    Arithmetic.MulOrder(i, parts, m);
    UniformSlice(heads, d, i * m, i * m + m);
    Arithmetic.Associate(i, m, d);
    Arithmetic.Distribute(i * m, m, d);
  }

  /** An even cut of heads falls between heads. */
  lemma ChunkOfHeads<V>(heads: seq<seq<V>>, d: nat, parts: nat, m: nat)
    requires Uniform(heads, d) && parts > 0 && |heads| == parts * m
    ensures |TorchChunk(Flatten(heads), parts)| == parts
    ensures forall i :: 0 <= i < parts ==>
              i * m >= 0 && TorchChunk(Flatten(heads), parts)[i] == Flatten(SliceOf(heads, i * m, i * m + m))
  {
    UniformLength(heads, d);
    Arithmetic.Associate(parts, m, d);
    TorchChunkEven(Flatten(heads), parts, m * d);
    forall i | 0 <= i < parts
      ensures i * m >= 0 && TorchChunk(Flatten(heads), parts)[i] == Flatten(SliceOf(heads, i * m, i * m + m))
    {
      ChunkIsHeads(heads, d, parts, m, i, TorchChunk(Flatten(heads), parts)[i]);
    }
  }

  /** The KV heads of inference rank i; n is how many ranks share a group, or how many groups a rank has. */
  function KvLo(groups: nat, ranks: nat, n: pos, i: nat): nat { if ranks >= groups then i / n else i * n }

  function KvHi(groups: nat, ranks: nat, n: pos, i: nat): nat { if ranks >= groups then i / n + 1 else i * n + n }

  /** Groups and ranks divide one another. */
  predicate Shares(groups: nat, ranks: nat, n: nat) {
    groups > 0 && ranks > 0 && n > 0 && if ranks >= groups then ranks == groups * n else groups == ranks * n
  }

  lemma KvInRange(groups: nat, ranks: nat, n: nat, i: nat)
    requires Shares(groups, ranks, n) && i < ranks
    ensures KvLo(groups, ranks, n, i) < KvHi(groups, ranks, n, i) <= groups
  {
    if ranks >= groups {
      Nth(i, groups, n);
    } else {
      Arithmetic.MulOrder(i, ranks, n);
    }
  }

  /** The shards are the KV heads of each rank. */
  lemma KvShardsAre<V>(heads: seq<seq<V>>, d: nat, groups: nat, ranks: nat, n: nat)
    requires Uniform(heads, d) && Shares(groups, ranks, n) && |heads| == groups
    ensures |KvShards(Flatten(heads), groups, ranks)| == ranks
    ensures forall i :: 0 <= i < ranks ==>
              KvShards(Flatten(heads), groups, ranks)[i]
                == Flatten(SliceOf(heads, KvLo(groups, ranks, n, i), KvHi(groups, ranks, n, i)))
  {
    if ranks >= groups {
      ChunkOfHeads(heads, d, groups, 1);
      Arithmetic.DivModUnique(ranks, n, 0, groups);
      assert Replicas(groups, ranks) == n;
    } else {
      ChunkOfHeads(heads, d, ranks, n);
    }
    forall i | 0 <= i < ranks
      ensures KvShards(Flatten(heads), groups, ranks)[i]
              == Flatten(SliceOf(heads, KvLo(groups, ranks, n, i), KvHi(groups, ranks, n, i)))
    {
      KvInRange(groups, ranks, n, i);
    }
  }

  // ----- what the inference ranks get

  /** The heads of a tensor, of each kind in order. */
  datatype Heads<V> = Heads(query: seq<seq<V>>, key: seq<seq<V>>, value: seq<seq<V>>)

  function HeadsOf<V>(x: seq<V>, d: nat, k: pos, groups: nat): Heads<V> {
    Heads(QueryHeads(x, d, k, groups * k), KeyHeads(x, d, k, groups), ValueHeads(x, d, k, groups))
  }

  /** The block of inference rank i: its m query heads, then its key heads, then its value heads. */
  function Block<V>(heads: Heads<V>, ranks: nat, m: nat, n: pos, i: nat): seq<V> {
    var groups := |heads.key|;
    var lo, hi := KvLo(groups, ranks, n, i), KvHi(groups, ranks, n, i);
    Flatten(SliceOf(heads.query, i * m, i * m + m))
    + Flatten(SliceOf(heads.key, lo, hi)) + Flatten(SliceOf(heads.value, lo, hi))
  }

  function Blocks<V>(heads: Heads<V>, ranks: nat, m: nat, n: pos): seq<seq<V>> {
    seq(ranks, i requires 0 <= i < ranks => Block(heads, ranks, m, n, i))
  }

  lemma {:induction false} MergedBlocks<V>(q: seq<seq<V>>, k: seq<seq<V>>, v: seq<seq<V>>, blocks: seq<seq<V>>, n: nat)
    requires n <= |q| && n <= |k| && n <= |v| && n <= |blocks|
    requires forall i :: 0 <= i < n ==> blocks[i] == q[i] + k[i] + v[i]
    ensures Merged(q, k, v, n) == Flatten(blocks[..n])
  {
    if n > 0 {
      MergedBlocks(q, k, v, blocks, n - 1);
      assert blocks[..n][..n - 1] == blocks[..n - 1];
    }
  }

  lemma ShardsAreBlocks<V>(heads: Heads<V>, d: nat, ranks: nat, m: nat, n: nat)
    requires Uniform(heads.query, d) && Uniform(heads.key, d) && Uniform(heads.value, d)
    requires |heads.query| == ranks * m && |heads.key| == |heads.value| && Shares(|heads.key|, ranks, n)
    ensures var q := TorchChunk(Flatten(heads.query), ranks);
            var k := KvShards(Flatten(heads.key), |heads.key|, ranks);
            var v := KvShards(Flatten(heads.value), |heads.key|, ranks);
            |q| == |k| == |v| == ranks && Merged(q, k, v, ranks) == Flatten(Blocks(heads, ranks, m, n))
  {
    ChunkOfHeads(heads.query, d, ranks, m);
    KvShardsAre(heads.key, d, |heads.key|, ranks, n);
    KvShardsAre(heads.value, d, |heads.key|, ranks, n);
    var blocks := Blocks(heads, ranks, m, n);
    MergedBlocks(TorchChunk(Flatten(heads.query), ranks), KvShards(Flatten(heads.key), |heads.key|, ranks),
                 KvShards(Flatten(heads.value), |heads.key|, ranks), blocks, ranks);
    assert blocks[..ranks] == blocks;
  }

  /** Heads of d rows each: as many as are configured, or the hidden size shared out among the heads. */
  predicate HeadsOfSize(cfg: Config, d: nat) {
    match cfg.kvChannels case Some(rows) => rows == d case None => cfg.heads > 0 && cfg.hidden == d * cfg.heads
  }

  lemma HeadSizeIff(cfg: Config, d: nat)
    ensures HeadSize(cfg) == Ok(d) <==> HeadsOfSize(cfg, d)
  {
    if cfg.kvChannels.None? && cfg.heads > 0 {
      DivModParts(cfg.hidden, cfg.heads);
      if cfg.hidden == d * cfg.heads {
        DivModUnique(cfg.hidden, d, 0, cfg.heads);
      }
    }
  }

  /** The merged tensor is block after block, for every compact tensor whose heads divide evenly. */
  lemma RegroupingKeepsHeads<V>(x: seq<V>, cfg: Config, isBias: bool, d: nat, k: pos, ranks: nat, m: nat, n: nat)
    requires HeadsOfSize(cfg, d) && cfg.heads == cfg.groups * k && Shares(cfg.groups, ranks, n)
    requires cfg.heads == ranks * m && |x| == cfg.groups * ((k + 2) * d) && !(isBias && |x| == 3 * cfg.hidden)
    ensures MergedOf(x, ranks, cfg, isBias) == Ok(Flatten(Blocks(HeadsOf(x, d, k, cfg.groups), ranks, m, n)))
    ensures forall trainRank, size: Option<nat> :: size == None || size.value <= 1 ==>
              ConvertOf(x, ranks, cfg, isBias, trainRank, size)
              == Ok(Flatten(Blocks(HeadsOf(x, d, k, cfg.groups), ranks, m, n)))
  {
    var groups := cfg.groups;
    HeadSizeIff(cfg, d);
    assert (k + 2) * d == Stride(d, k);
    SplitIsHeads(x, d, k, groups);
    HeadsUniform(x, d, k, groups);
    ShardsAreBlocks(HeadsOf(x, d, k, groups), d, ranks, m, n);
    Arithmetic.DivModUnique(cfg.heads, k, 0, groups);
    if ranks >= groups {
      Arithmetic.DivModUnique(ranks, n, 0, groups);
    }
  }

  /** A block's KV heads are exactly those its query heads attend to: query head h attends to head h / k. */
  lemma BlockAttends(groups: nat, k: pos, ranks: nat, m: nat, n: nat, i: nat, g: nat)
    requires Shares(groups, ranks, n) && groups * k == ranks * m && i < ranks && g < groups
    ensures KvLo(groups, ranks, n, i) <= g < KvHi(groups, ranks, n, i)
            <==> exists h: nat :: i * m <= h < i * m + m && h / k == g
  {
    if ranks >= groups {
      Arithmetic.Associate(groups, n, m);
      CancelLeft(groups, k, n * m);
      ManyRanks(k, n, i, m, g);
    } else {
      Arithmetic.Associate(ranks, n, k);
      CancelLeft(ranks, n * k, m);
      ManyGroups(k, n, i, m, g);
    }
  }

  lemma ManyRanks(k: pos, n: pos, i: nat, m: nat, g: nat)
    requires k == n * m
    ensures i / n == g <==> exists h: nat :: i * m <= h < i * m + m && h / k == g
  {
    assert m > 0;
    forall h: nat | i * m <= h < i * m + m ensures h / k == i / n {
      Arithmetic.DivModUnique(h, i, h - i * m, m);
      Nested(h, m, n);
    }
    assert i * m <= i * m < i * m + m;
    assert (i * m) / k == i / n;
  }

  lemma CancelLeft(a: nat, x: nat, y: nat)
    requires a > 0 && a * x == a * y
    ensures x == y
  {
    Arithmetic.MulOrder(x, y, a);
    Arithmetic.MulOrder(y, x, a);
  }

  /** Dividing by a product is dividing twice. */
  lemma Nested(h: nat, m: pos, n: pos)
    ensures n * m > 0 && h / (n * m) == (h / m) / n
  {
    var q := h / m;
    Arithmetic.DivModParts(h, m);
    Arithmetic.DivModParts(q, n);
    Arithmetic.MulOrder(0, n, m);
    Arithmetic.Distribute((q / n) * n, q % n, m);
    Arithmetic.Associate(q / n, n, m);
    Arithmetic.MulOrder(q % n, n, m);
    assert (q % n) * m >= 0;
    Arithmetic.DivModUnique(h, q / n, (q % n) * m + h % m, n * m);
  }

  lemma ManyGroups(k: pos, n: pos, i: nat, m: nat, g: nat)
    requires m == n * k
    ensures i * n <= g < i * n + n <==> exists h: nat :: i * m <= h < i * m + m && h / k == g
  {
    Arithmetic.Associate(i, n, k);
    Arithmetic.Distribute(i * n, n, k);
    if i * n <= g < i * n + n {
      Arithmetic.MulOrder(g, i * n + n, k);
      Arithmetic.MulOrder(i * n - 1, g, k);
      Arithmetic.Distribute(i * n - 1, 1, k);
      Arithmetic.DivModUnique(g * k, g, 0, k);
    }
    forall h: nat | i * m <= h < i * m + m && h / k == g ensures i * n <= g < i * n + n {
      Arithmetic.DivModParts(h, k);
      Arithmetic.MulOrder(g, i * n, k);
      Arithmetic.MulOrder(i * n + n - 1, g, k);
      Arithmetic.Distribute(i * n + n - 1, 1, k);
    }
  }

  /** How many of the first `upto` blocks hold KV head g. */
  function BlocksWith(groups: nat, ranks: nat, n: pos, g: nat, upto: nat): nat {
    if upto == 0 then 0 else
      BlocksWith(groups, ranks, n, g, upto - 1)
      + (if KvLo(groups, ranks, n, upto - 1) <= g < KvHi(groups, ranks, n, upto - 1) then 1 else 0)
  }

  lemma {:induction false} BlocksBetween(groups: nat, ranks: nat, n: pos, g: nat, lo: nat, hi: nat, upto: nat)
    requires lo <= hi
    requires forall i: nat :: (KvLo(groups, ranks, n, i) <= g < KvHi(groups, ranks, n, i)) <==> lo <= i < hi
    ensures BlocksWith(groups, ranks, n, g, upto) == if upto <= lo then 0 else if upto <= hi then upto - lo else hi - lo
  {
    if upto > 0 {
      BlocksBetween(groups, ranks, n, g, lo, hi, upto - 1);
    }
  }

  /** Every KV head is in as many blocks as ranks share a group, and in one if they do not. */
  lemma KvHeadCopies(groups: nat, ranks: nat, n: nat, g: nat)
    requires Shares(groups, ranks, n) && g < groups
    ensures BlocksWith(groups, ranks, n, g, ranks) == if ranks >= groups then ranks / groups else 1
  {
    if ranks >= groups {
      CopiesOfShared(groups, ranks, n, g);
    } else {
      CopiesOfSpread(groups, ranks, n, g);
    }
  }

  lemma CopiesOfShared(groups: nat, ranks: nat, n: nat, g: nat)
    requires Shares(groups, ranks, n) && g < groups && ranks >= groups
    ensures BlocksWith(groups, ranks, n, g, ranks) == ranks / groups
  {
    forall i: nat ensures i / n == g <==> g * n <= i < g * n + n {
      Interval(i, g, n);
    }
    Arithmetic.MulOrder(g, groups, n);
    BlocksBetween(groups, ranks, n, g, g * n, g * n + n, ranks);
    Arithmetic.DivModUnique(ranks, n, 0, groups);
  }

  lemma CopiesOfSpread(groups: nat, ranks: nat, n: nat, g: nat)
    requires Shares(groups, ranks, n) && g < groups && ranks < groups
    ensures BlocksWith(groups, ranks, n, g, ranks) == 1
  {
    forall i: nat ensures i * n <= g < i * n + n <==> i == g / n {
      Interval(g, i, n);
    }
    Nth(g, ranks, n);
    BlocksBetween(groups, ranks, n, g, g / n, g / n + 1, ranks);
  }

  /** Every query head is in exactly one block. */
  lemma QueryHeadOnce(groups: nat, k: nat, ranks: nat, m: nat, h: nat, i: nat)
    requires groups * k == ranks * m && h < groups * k
    ensures m > 0 && h / m < ranks && (i * m <= h < i * m + m <==> i == h / m)
  {
    assert m > 0;
    Nth(h, ranks, m);
    Interval(h, i, m);
  }

  function GroupOf<V>(x: seq<V>, d: nat, k: pos, g: nat): seq<V> {
    Flatten(GroupHeadsOf(x, d, k, g)) + KeyHead(x, d, k, g) + ValueHead(x, d, k, g)
  }

  /** A compact tensor is nothing but its heads, group by group. */
  lemma CompactIsHeads<V>(x: seq<V>, d: nat, k: pos, groups: pos)
    requires |x| == groups * Stride(d, k)
    ensures x == Flatten(seq(groups, g requires 0 <= g < groups => GroupOf(x, d, k, g)))
  {
    var chunks := TorchChunk(x, groups);
    ChunksOfTensor(x, Stride(d, k), groups);
    TorchChunkJoins(x, groups);
    forall g | 0 <= g < groups ensures chunks[g] == GroupOf(x, d, k, g) {
      ChunkIsGroup(x, d, k, g, chunks[g]);
    }
    assert chunks == seq(groups, g requires 0 <= g < groups => GroupOf(x, d, k, g));
  }

  lemma ChunkIsGroup<V>(x: seq<V>, d: nat, k: pos, g: nat, chunk: seq<V>)
    requires ChunkAt(x, Stride(d, k), g, chunk)
    ensures chunk == GroupOf(x, d, k, g)
  {
    GroupQueries(x, d, k, g, chunk);
    GroupKv(x, d, k, g, chunk);
    ThreeSlices(chunk, d * k, d);
  }

  lemma ThreeSlices<V>(chunk: seq<V>, q: nat, d: nat)
    requires |chunk| == q + 2 * d
    ensures chunk == SliceOf(chunk, 0, q) + SliceOf(chunk, q, q + d) + SliceOf(chunk, q + d, q + 2 * d)
  {
  }

  lemma Interval(x: nat, q: nat, n: pos)
    ensures x / n == q <==> q * n <= x < q * n + n
  {
    Arithmetic.DivModParts(x, n);
    if q * n <= x < q * n + n {
      Arithmetic.DivModUnique(x, q, x - q * n, n);
    }
  }

  /** The chunks the training ranks keep make up the merged tensor. */
  lemma TrainChunksJoin<V>(x: seq<V>, ranks: nat, cfg: Config, isBias: bool, trainSize: nat, parts: seq<seq<V>>)
    requires MergedOf(x, ranks, cfg, isBias).Ok? && trainSize > 1
    requires |parts| <= trainSize
    requires forall r :: 0 <= r < |parts| ==> ConvertOf(x, ranks, cfg, isBias, Some(r), Some(trainSize)) == Ok(parts[r])
    requires ConvertOf(x, ranks, cfg, isBias, Some(|parts|), Some(trainSize)) == Err(TrainRankOutOfRange)
    ensures Flatten(parts) == MergedOf(x, ranks, cfg, isBias).value
  {
    var merged := MergedOf(x, ranks, cfg, isBias).value;
    TorchChunkJoins(merged, trainSize);
    assert parts == TorchChunk(merged, trainSize);
  }
}
