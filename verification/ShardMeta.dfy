/**
 Metadata of one parameter, rebuilt from what every rank reports about its own part:
 reported shards are grouped into replicas and given offsets in the global tensor
 (awex/meta/meta_resolver.py). A reported shard is named by its position in the list of
 reports, which is what the source's shared object references amount to.
 */
module ShardMeta {
  import opened Wrappers
  import opened Seqs
  import Arithmetic

  datatype ShardingType = NoSharding | TpSharding | DpTpSharding | EpSharding | EpTpSharding

  /** One rank's report on one parameter, with the sharding strategy's answer for it. */
  datatype RawShard = RawShard(
    name: nat, globalRank: nat,
    tpRank: nat, attnTpRank: nat, epRank: nat, epTpRank: nat,
    shape: seq<nat>, numel: nat,
    shardingType: ShardingType, shardingDim: nat, numShards: nat)

  /** All reports on one parameter; there is at least one. */
  type RawShards = raws: seq<RawShard> | raws != [] witness [RawShard(0, 0, 0, 0, 0, 0, [], 0, NoSharding, 0, 1)]

  /** A reported shard with its offset in the global tensor. */
  datatype Shard = Shard(raw: RawShard, offset: seq<nat>)

  datatype ParamMeta = ParamMeta(name: nat, globalNumel: nat, globalShape: seq<nat>, replicas: seq<seq<Shard>>)

  datatype MetaError = UnevenReplicas

  /** The mutable record the source keeps per reported shard. */
  class ShardRecord {
    const raw: RawShard
    var globalOffset: seq<nat>

    constructor (raw: RawShard)
      ensures this.raw == raw && globalOffset == []
    {
      this.raw := raw;
      globalOffset := [];
    }
  }

  // ----- grouping reported shards into replicas

  function RankKey(s: RawShard, t: ShardingType): nat {
    match t
    case TpSharding => s.tpRank
    case DpTpSharding => s.attnTpRank
    case EpTpSharding => s.epTpRank
    case EpSharding => s.epRank
    case NoSharding => 0
  }

  function Singletons(n: nat): seq<seq<nat>> { seq(n, i requires 0 <= i < n => [i]) }

  function Keys(raws: seq<RawShard>, t: ShardingType): set<nat> {
    if raws == [] then {} else Keys(raws[..|raws| - 1], t) + {RankKey(raws[|raws| - 1], t)}
  }

  lemma {:induction false} KeysHas(raws: seq<RawShard>, t: ShardingType, i: nat)
    requires i < |raws|
    ensures RankKey(raws[i], t) in Keys(raws, t)
  {
    if i < |raws| - 1 {
      KeysHas(raws[..|raws| - 1], t, i);
    }
  }

  function HasKey(raws: seq<RawShard>, t: ShardingType, k: nat): nat -> bool {
    (i: nat) => i < |raws| && RankKey(raws[i], t) == k
  }

  function HasKeyIn(raws: seq<RawShard>, t: ShardingType, ks: seq<nat>): nat -> bool {
    (i: nat) => i < |raws| && RankKey(raws[i], t) in ks
  }

  /** The reports with rank key k, in the order they came. */
  function Bucket(raws: seq<RawShard>, t: ShardingType, k: nat): seq<nat> {
    Filter(Indices(|raws|), HasKey(raws, t, k))
  }

  function Buckets(raws: seq<RawShard>, t: ShardingType, ks: seq<nat>): seq<seq<nat>> {
    seq(|ks|, j requires 0 <= j < |ks| => Bucket(raws, t, ks[j]))
  }

  predicate EvenBuckets(buckets: seq<seq<nat>>, m: nat) {
    forall j :: 0 <= j < |buckets| ==> |buckets[j]| == m
  }

  function Column(buckets: seq<seq<nat>>, m: nat, i: nat): seq<nat>
    requires EvenBuckets(buckets, m) && i < m
  {
    seq(|buckets|, j requires 0 <= j < |buckets| => buckets[j][i])
  }

  function TpOf(raws: seq<RawShard>, i: nat): nat {
    if i < |raws| then raws[i].tpRank + 1 else 0
  }

  function TpBefore(raws: seq<RawShard>): (nat, nat) -> bool {
    (a: nat, b: nat) => TpOf(raws, a) < TpOf(raws, b)
  }

  function SortByTp(raws: seq<RawShard>, group: seq<nat>): seq<nat> {
    StableSort(group, TpBefore(raws))
  }

  function SortedColumns(raws: seq<RawShard>, buckets: seq<seq<nat>>, m: nat): seq<seq<nat>>
    requires EvenBuckets(buckets, m)
  {
    seq(m, i requires 0 <= i < m => SortByTp(raws, Column(buckets, m, i)))
  }

  /** The replicas, each a list of positions in the list of reports. */
  function ReplicaGroups(raws: RawShards): Result<seq<seq<nat>>, MetaError> {
    var t := raws[|raws| - 1].shardingType;
    if t.NoSharding? then
      Ok(Singletons(|raws|))
    else if raws[|raws| - 1].numShards == 1 then
      Ok([Indices(|raws|)])
    else
      var buckets := Buckets(raws, t, SortedKeys(Keys(raws, t)));
      var m := |Bucket(raws, t, RankKey(raws[0], t))|;
      if EvenBuckets(buckets, m) then Ok(SortedColumns(raws, buckets, m)) else Err(UnevenReplicas)
  }

  /** Grouping as the source does it: a dictionary from rank key to the reports with it. */
  method GroupReplicas(raws: RawShards) returns (r: Result<seq<seq<nat>>, MetaError>)
    ensures r == ReplicaGroups(raws)
  {
    var t := raws[|raws| - 1].shardingType;
    if t.NoSharding? {
      return Ok(Singletons(|raws|));
    }
    if raws[|raws| - 1].numShards == 1 {
      return Ok([Indices(|raws|)]);
    }
    var rankToShards := GroupByRankKey(raws, t);
    var keys := SortedKeys(rankToShards.Keys);
    SortedKeysProperties(rankToShards.Keys);
    KeysHas(raws, t, 0);
    var numReplicas := |rankToShards[RankKey(raws[0], t)]|;
    ghost var buckets := Buckets(raws, t, keys);
    var even := CheckCounts(rankToShards, keys, buckets, numReplicas);
    if !even {
      return Err(UnevenReplicas);
    }
    var groups := TakeColumns(raws, rankToShards, keys, buckets, numReplicas);
    r := Ok(groups);
  }

  method CheckCounts(rankToShards: map<nat, seq<nat>>, keys: seq<nat>, ghost buckets: seq<seq<nat>>, numReplicas: nat)
    returns (even: bool)
    requires |keys| == |buckets|
    requires forall j :: 0 <= j < |keys| ==> keys[j] in rankToShards && rankToShards[keys[j]] == buckets[j]
    ensures even == EvenBuckets(buckets, numReplicas)
  {
    for j := 0 to |keys|
      invariant forall i :: 0 <= i < j ==> |buckets[i]| == numReplicas
    {
      if |rankToShards[keys[j]]| != numReplicas {
        assert |buckets[j]| != numReplicas;
        return false;
      }
    }
    even := true;
  }

  method GroupByRankKey(raws: seq<RawShard>, t: ShardingType) returns (rankToShards: map<nat, seq<nat>>)
    ensures rankToShards.Keys == Keys(raws, t)
    ensures forall k :: k in rankToShards ==> rankToShards[k] == Bucket(raws, t, k)
  {
    rankToShards := map[];
    for i := 0 to |raws|
      invariant Grouped(rankToShards, raws, t, i)
    {
      var k := RankKey(raws[i], t);
      GroupedStep(rankToShards, raws, t, i);
      rankToShards := rankToShards[k := Entry(rankToShards, k) + [i]];
    }
    assert raws[..|raws|] == raws;
    forall k | k in rankToShards ensures rankToShards[k] == Bucket(raws, t, k) {
      assert Entry(rankToShards, k) == Filter(Indices(|raws|), HasKey(raws, t, k));
    }
  }

  /** The dictionary after the first i reports. */
  ghost predicate Grouped(m: map<nat, seq<nat>>, raws: seq<RawShard>, t: ShardingType, i: nat) {
    && i <= |raws|
    && m.Keys == Keys(raws[..i], t)
    && forall k: nat :: Entry(m, k) == Filter(Indices(i), HasKey(raws, t, k))
  }

  lemma GroupedStep(m: map<nat, seq<nat>>, raws: seq<RawShard>, t: ShardingType, i: nat)
    requires i < |raws| && Grouped(m, raws, t, i)
    ensures var k := RankKey(raws[i], t); Grouped(m[k := Entry(m, k) + [i]], raws, t, i + 1)
  {
    var k := RankKey(raws[i], t);
    var after := m[k := Entry(m, k) + [i]];
    assert raws[..i + 1][..i] == raws[..i];
    forall key: nat ensures Entry(after, key) == Filter(Indices(i + 1), HasKey(raws, t, key)) {
      BucketStep(raws, t, i, key);
    }
  }

  lemma BucketStep(raws: seq<RawShard>, t: ShardingType, i: nat, key: nat)
    requires i < |raws|
    ensures Filter(Indices(i + 1), HasKey(raws, t, key))
         == Filter(Indices(i), HasKey(raws, t, key)) + (if RankKey(raws[i], t) == key then [i] else [])
  {
    assert Indices(i + 1)[..i] == Indices(i) && Indices(i + 1)[i] == i;
  }

  function Entry(m: map<nat, seq<nat>>, k: nat): seq<nat> { if k in m then m[k] else [] }

  method TakeColumns(raws: seq<RawShard>, rankToShards: map<nat, seq<nat>>, keys: seq<nat>,
                     ghost buckets: seq<seq<nat>>, numReplicas: nat) returns (groups: seq<seq<nat>>)
    requires |keys| == |buckets| && EvenBuckets(buckets, numReplicas)
    requires forall j :: 0 <= j < |keys| ==> keys[j] in rankToShards && rankToShards[keys[j]] == buckets[j]
    ensures groups == SortedColumns(raws, buckets, numReplicas)
  {
    groups := [];
    for i := 0 to numReplicas
      invariant groups == SortedColumns(raws, buckets, numReplicas)[..i]
    {
      var replica: seq<nat> := [];
      for j := 0 to |keys|
        invariant replica == Column(buckets, numReplicas, i)[..j]
      {
        replica := replica + [rankToShards[keys[j]][i]];
      }
      assert replica == Column(buckets, numReplicas, i);
      groups := groups + [SortByTp(raws, replica)];
    }
  }

  /** Every report lands in exactly one place of exactly one replica. */
  lemma EveryReportOnce(raws: RawShards)
    requires ReplicaGroups(raws).Ok?
    ensures multiset(Flatten(ReplicaGroups(raws).value)) == multiset(Indices(|raws|))
  {
    var t := raws[|raws| - 1].shardingType;
    if t.NoSharding? {
      FlattenSingletons(|raws|);
    } else if raws[|raws| - 1].numShards == 1 {
      assert Flatten([Indices(|raws|)]) == Flatten([]) + Indices(|raws|);
    } else {
      var m := |Bucket(raws, t, RankKey(raws[0], t))|;
      ColumnsOnce(raws, t, SortedKeys(Keys(raws, t)), m);
    }
  }

  lemma ColumnsOnce(raws: seq<RawShard>, t: ShardingType, keys: seq<nat>, m: nat)
    requires keys == SortedKeys(Keys(raws, t)) && EvenBuckets(Buckets(raws, t, keys), m)
    ensures multiset(Flatten(SortedColumns(raws, Buckets(raws, t, keys), m))) == multiset(Indices(|raws|))
  {
    SortedKeysProperties(Keys(raws, t));
    ColumnsPermuteRows(raws, Buckets(raws, t, keys), m);
    BucketsCover(raws, t, keys);
    forall i | i in Indices(|raws|) ensures HasKeyIn(raws, t, keys)(i) {
      KeysHas(raws, t, i);
    }
    FilterAll(Indices(|raws|), HasKeyIn(raws, t, keys));
  }

  lemma {:induction false} FlattenSingletons(n: nat)
    ensures Flatten(Singletons(n)) == Indices(n)
  {
    if n > 0 {
      FlattenSingletons(n - 1);
      assert Singletons(n)[..n - 1] == Singletons(n - 1);
    }
  }

  lemma {:induction false} BucketsCover(raws: seq<RawShard>, t: ShardingType, ks: seq<nat>)
    requires forall i, j :: 0 <= i < j < |ks| ==> ks[i] < ks[j]
    ensures multiset(Flatten(Buckets(raws, t, ks))) == multiset(Filter(Indices(|raws|), HasKeyIn(raws, t, ks)))
  {
    if ks == [] {
      FilterNone(Indices(|raws|), HasKeyIn(raws, t, ks));
    } else {
      var n := |ks| - 1;
      BucketsCover(raws, t, ks[..n]);
      LastKeySplit(raws, t, ks);
      LastBucket(raws, t, ks);
    }
  }

  lemma LastKeySplit(raws: seq<RawShard>, t: ShardingType, ks: seq<nat>)
    requires ks != [] && forall i, j :: 0 <= i < j < |ks| ==> ks[i] < ks[j]
    ensures var n := |ks| - 1;
            multiset(Filter(Indices(|raws|), HasKeyIn(raws, t, ks)))
            == multiset(Filter(Indices(|raws|), HasKeyIn(raws, t, ks[..n]))) + multiset(Bucket(raws, t, ks[n]))
  {
    var n := |ks| - 1;
    assert ks == ks[..n] + [ks[n]];
    FilterSplit(Indices(|raws|), HasKeyIn(raws, t, ks[..n]), HasKey(raws, t, ks[n]), HasKeyIn(raws, t, ks));
  }

  lemma LastBucket(raws: seq<RawShard>, t: ShardingType, ks: seq<nat>)
    requires ks != []
    ensures var n := |ks| - 1;
            multiset(Flatten(Buckets(raws, t, ks)))
            == multiset(Flatten(Buckets(raws, t, ks[..n]))) + multiset(Bucket(raws, t, ks[n]))
  {
    assert Buckets(raws, t, ks)[..|ks| - 1] == Buckets(raws, t, ks[..|ks| - 1]);
  }

  /** Reading the buckets column by column, each column sorted, loses and repeats nothing. */
  lemma ColumnsPermuteRows(raws: seq<RawShard>, buckets: seq<seq<nat>>, m: nat)
    requires EvenBuckets(buckets, m)
    ensures multiset(Flatten(SortedColumns(raws, buckets, m))) == multiset(Flatten(buckets))
  {
    var plain := seq(m, i requires 0 <= i < m => Column(buckets, m, i));
    forall i | 0 <= i < m ensures multiset(SortedColumns(raws, buckets, m)[i]) == multiset(plain[i]) {
      StableSortPermutes(plain[i], TpBefore(raws));
    }
    FlattenSameParts(SortedColumns(raws, buckets, m), plain);
    TransposePermutes(buckets, m);
  }

  lemma {:induction false} FlattenSameParts(a: seq<seq<nat>>, b: seq<seq<nat>>)
    requires |a| == |b| && forall i :: 0 <= i < |a| ==> multiset(a[i]) == multiset(b[i])
    ensures multiset(Flatten(a)) == multiset(Flatten(b))
  {
    if a != [] {
      FlattenSameParts(a[..|a| - 1], b[..|b| - 1]);
    }
  }

  lemma {:induction false} TransposePermutes(buckets: seq<seq<nat>>, m: nat)
    requires EvenBuckets(buckets, m)
    ensures multiset(Flatten(seq(m, i requires 0 <= i < m => Column(buckets, m, i)))) == multiset(Flatten(buckets))
  {
    var columns := seq(m, i requires 0 <= i < m => Column(buckets, m, i));
    if buckets == [] {
      AllEmpty(columns);
    } else {
      var n := |buckets| - 1;
      var shorter := seq(m, i requires 0 <= i < m => Column(buckets[..n], m, i));
      TransposePermutes(buckets[..n], m);
      ExtendEach(shorter, buckets[n], columns);
      FlattenLast(buckets);
    }
  }

  lemma {:induction false} AllEmpty(s: seq<seq<nat>>)
    requires forall i :: 0 <= i < |s| ==> s[i] == []
    ensures Flatten(s) == []
  {
    if s != [] {
      AllEmpty(s[..|s| - 1]);
    }
  }

  lemma {:induction false} ExtendEach(columns: seq<seq<nat>>, row: seq<nat>, longer: seq<seq<nat>>)
    requires |columns| == |row| == |longer|
    requires forall i :: 0 <= i < |row| ==> longer[i] == columns[i] + [row[i]]
    ensures multiset(Flatten(longer)) == multiset(Flatten(columns)) + multiset(row)
  {
    if row != [] {
      var n := |row| - 1;
      ExtendEach(columns[..n], row[..n], longer[..n]);
      FlattenLast(longer);
      FlattenLast(columns);
      MultisetAppend(columns[n], row[n]);
      MultisetAppend(row[..n], row[n]);
      assert row == row[..n] + [row[n]];
    }
  }

  // ----- rank-key order

  /** The reports are grouped by rank key into replicas of more than one shard. */
  predicate KeyGrouped(raws: RawShards) {
    !raws[|raws| - 1].shardingType.NoSharding? && raws[|raws| - 1].numShards != 1 && ReplicaGroups(raws).Ok?
  }

  /** The rank keys that were reported, ascending. */
  function KeyList(raws: RawShards): seq<nat> { SortedKeys(Keys(raws, raws[|raws| - 1].shardingType)) }

  /** The i-th report of each of the keys. */
  function IthReports(raws: RawShards, keys: seq<nat>, i: nat): seq<nat> {
    seq(|keys|, j requires 0 <= j < |keys| => IthReport(raws, keys[j], i))
  }

  function IthReport(raws: RawShards, key: nat, i: nat): nat {
    var bucket := Bucket(raws, raws[|raws| - 1].shardingType, key);
    if i < |bucket| then bucket[i] else 0
  }

  predicate TpAscends(raws: seq<RawShard>, list: seq<nat>) {
    && (forall j :: 0 <= j < |list| ==> list[j] < |raws|)
    && (forall j, k :: 0 <= j < k < |list| ==> raws[list[j]].tpRank <= raws[list[k]].tpRank)
  }

  /** Replica i is the i-th reports of all keys, sorted by tp rank. */
  lemma ReplicaIsSorted(raws: RawShards, i: nat)
    requires KeyGrouped(raws) && i < |ReplicaGroups(raws).value|
    ensures ReplicaGroups(raws).value[i] == SortByTp(raws, IthReports(raws, KeyList(raws), i))
    ensures forall j :: 0 <= j < |KeyList(raws)| ==> IthReport(raws, KeyList(raws)[j], i) < |raws|
    ensures forall j :: 0 <= j < |KeyList(raws)| ==>
              RankKey(raws[IthReport(raws, KeyList(raws)[j], i)], raws[|raws| - 1].shardingType) == KeyList(raws)[j]
    ensures multiset(ReplicaGroups(raws).value[i]) == multiset(IthReports(raws, KeyList(raws), i))
    ensures TpAscends(raws, ReplicaGroups(raws).value[i])
  {
    var t, keys := raws[|raws| - 1].shardingType, KeyList(raws);
    var buckets, m := Buckets(raws, t, keys), |Bucket(raws, t, RankKey(raws[0], t))|;
    assert IthReports(raws, keys, i) == Column(buckets, m, i);
    forall j | 0 <= j < |keys| ensures HasKey(raws, t, keys[j])(IthReport(raws, keys[j], i)) {
      FilterIn<nat>(Indices(|raws|), HasKey(raws, t, keys[j]), buckets[j][i]);
    }
    SortedByTp(raws, IthReports(raws, keys, i));
  }

  lemma SortedByTp(raws: seq<RawShard>, group: seq<nat>)
    requires forall j :: 0 <= j < |group| ==> group[j] < |raws|
    ensures multiset(SortByTp(raws, group)) == multiset(group)
    ensures TpAscends(raws, SortByTp(raws, group))
  {
    var sorted := SortByTp(raws, group);
    StableSortPermutes(group, TpBefore(raws));
    StableSortAscends(group, TpBefore(raws));
    forall j | 0 <= j < |sorted| ensures sorted[j] < |raws| {
      assert sorted[j] in multiset(sorted);
    }
    forall j, k | 0 <= j < k < |sorted| ensures raws[sorted[j]].tpRank <= raws[sorted[k]].tpRank {
      assert !TpBefore(raws)(sorted[k], sorted[j]);
    }
  }

  /** A key's reports go to the replicas in the order in which they came, each to one. */
  lemma ReportsInOrder(raws: RawShards, key: nat, r: nat)
    requires r < |raws| && RankKey(raws[r], raws[|raws| - 1].shardingType) == key
    ensures var bucket := Bucket(raws, raws[|raws| - 1].shardingType, key);
            && (exists i :: 0 <= i < |bucket| && IthReport(raws, key, i) == r)
            && forall i, l :: 0 <= i < l < |bucket| ==> IthReport(raws, key, i) < IthReport(raws, key, l)
  {
    var t := raws[|raws| - 1].shardingType;
    FilterAscends(|raws|, HasKey(raws, t, key));
    assert Indices(|raws|)[r] == r;
    FilterIn<nat>(Indices(|raws|), HasKey(raws, t, key), r);
    var bucket := Bucket(raws, t, key);
    var i :| 0 <= i < |bucket| && bucket[i] == r;
    assert IthReport(raws, key, i) == r;
  }

  // ----- which reports share a replica

  /** The replica has one shard of every rank number that was reported. */
  predicate OnePerRank(replica: seq<Shard>, raws: seq<RawShard>, rank: RawShard -> nat) {
    && (forall j, k :: 0 <= j < k < |replica| ==> rank(replica[j].raw) != rank(replica[k].raw))
    && (forall i :: 0 <= i < |raws| ==> HasRank(replica, rank, rank(raws[i])))
  }

  predicate HasRank(replica: seq<Shard>, rank: RawShard -> nat, x: nat) {
    exists j :: 0 <= j < |replica| && rank(replica[j].raw) == x
  }

  /** The rank number that reports of one sharding type are told apart by. */
  ghost predicate TellsApart(t: ShardingType, rank: RawShard -> nat) {
    && (t.TpSharding? ==> forall s :: rank(s) == s.tpRank)
    && (t.DpTpSharding? ==> forall s :: rank(s) == s.attnTpRank)
    && (t.EpTpSharding? ==> forall s :: rank(s) == s.epTpRank)
    && (t.EpSharding? ==> forall s :: rank(s) == s.epRank)
  }

  /** Every replica of a sharded parameter has one shard of every reported rank of its type. */
  lemma ReplicaRanks(raws: RawShards, i: nat, rank: RawShard -> nat)
    requires KeyGrouped(raws) && i < |MetaOf(raws).value.replicas|
    requires TellsApart(raws[|raws| - 1].shardingType, rank)
    ensures OnePerRank(MetaOf(raws).value.replicas[i], raws, rank)
  {
    forall l | 0 <= l < |raws| ensures rank(raws[l]) in KeyList(raws) {
      KeysHas(raws, raws[|raws| - 1].shardingType, l);
      SortedKeysProperties(Keys(raws, raws[|raws| - 1].shardingType));
    }
    GroupReordered(raws, i, rank);
    ReplicaOf(raws, i);
    OneOfEach(raws, MetaOf(raws).value.replicas[i], ReplicaGroups(raws).value[i], IthReports(raws, KeyList(raws), i),
              KeyList(raws), rank);
  }

  lemma GroupReordered(raws: RawShards, i: nat, key: RawShard -> nat)
    requires KeyGrouped(raws) && i < |ReplicaGroups(raws).value|
    requires forall s :: key(s) == RankKey(s, raws[|raws| - 1].shardingType)
    ensures Reordered(raws, ReplicaGroups(raws).value[i], IthReports(raws, KeyList(raws), i), KeyList(raws), key)
    ensures var group := ReplicaGroups(raws).value[i]; forall j, k :: 0 <= j < k < |group| ==> group[j] != group[k]
    ensures var keys := KeyList(raws); forall a, b :: 0 <= a < b < |keys| ==> keys[a] < keys[b]
  {
    ReplicaIsSorted(raws, i);
    GroupsDistinct(raws, ReplicaGroups(raws).value);
    SortedKeysProperties(Keys(raws, raws[|raws| - 1].shardingType));
  }

  lemma OneOfEach(raws: seq<RawShard>, replica: seq<Shard>, group: seq<nat>, column: seq<nat>, keys: seq<nat>,
                  key: RawShard -> nat)
    requires Reordered(raws, group, column, keys, key) && |replica| == |group|
    requires forall a, b :: 0 <= a < b < |keys| ==> keys[a] < keys[b]
    requires forall j, k :: 0 <= j < k < |group| ==> group[j] != group[k]
    requires forall j :: 0 <= j < |group| ==> replica[j].raw == raws[group[j]]
    requires forall l :: 0 <= l < |raws| ==> key(raws[l]) in keys
    ensures OnePerRank(replica, raws, key)
  {
    KeysDiffer(raws, group, column, keys, key);
    forall l | 0 <= l < |raws| ensures HasRank(replica, key, key(raws[l])) {
      var j := KeyFound(raws, group, column, keys, key, key(raws[l]));
      assert replica[j].raw == raws[group[j]];
    }
  }

  /** Column j holds a report with the j-th key, and the group is the column in another order. */
  ghost predicate Reordered(raws: seq<RawShard>, group: seq<nat>, column: seq<nat>, keys: seq<nat>,
                            key: RawShard -> nat) {
    && multiset(group) == multiset(column) && |column| == |keys|
    && (forall j :: 0 <= j < |group| ==> group[j] < |raws|)
    && (forall j :: 0 <= j < |column| ==> column[j] < |raws| && key(raws[column[j]]) == keys[j])
  }

  lemma KeysDiffer(raws: seq<RawShard>, group: seq<nat>, column: seq<nat>, keys: seq<nat>, key: RawShard -> nat)
    requires Reordered(raws, group, column, keys, key)
    requires forall a, b :: 0 <= a < b < |keys| ==> keys[a] < keys[b]
    requires forall j, k :: 0 <= j < k < |group| ==> group[j] != group[k]
    ensures forall j, k :: 0 <= j < k < |group| ==> key(raws[group[j]]) != key(raws[group[k]])
  {
    forall j, k | 0 <= j < k < |group| ensures key(raws[group[j]]) != key(raws[group[k]]) {
      var a := PlaceIn(group, column, j);
      var b := PlaceIn(group, column, k);
    }
  }

  lemma KeyFound(raws: seq<RawShard>, group: seq<nat>, column: seq<nat>, keys: seq<nat>, key: RawShard -> nat, x: nat)
    returns (j: nat)
    requires Reordered(raws, group, column, keys, key) && x in keys
    ensures j < |group| && key(raws[group[j]]) == x
  {
    var a :| 0 <= a < |keys| && keys[a] == x;
    j := PlaceIn(column, group, a);
  }

  lemma PlaceIn(from: seq<nat>, to: seq<nat>, j: nat) returns (k: nat)
    requires multiset(from) == multiset(to) && j < |from|
    ensures k < |to| && to[k] == from[j]
  {
    assert from[j] in multiset(from);
    assert from[j] in to;
    k :| 0 <= k < |to| && to[k] == from[j];
  }

  /** A replica's shards are the reports of its group, in order. */
  lemma ReplicaOf(raws: RawShards, i: nat)
    requires MetaOf(raws).Ok? && i < |MetaOf(raws).value.replicas|
    ensures var group, replica := ReplicaGroups(raws).value[i], MetaOf(raws).value.replicas[i];
            && |replica| == |group|
            && forall j :: 0 <= j < |group| ==> group[j] < |raws| && replica[j].raw == raws[group[j]]
  {
    GroupsDistinct(raws, ReplicaGroups(raws).value);
  }

  /** Grouping fails exactly when two rank numbers were reported unequally often; there are as many replicas as that. */
  lemma UnevenIff(raws: RawShards)
    requires !raws[|raws| - 1].shardingType.NoSharding? && raws[|raws| - 1].numShards != 1
    ensures var t := raws[|raws| - 1].shardingType;
            MetaOf(raws).Ok? <==> forall i :: 0 <= i < |raws| ==>
              |Bucket(raws, t, RankKey(raws[i], t))| == |Bucket(raws, t, RankKey(raws[0], t))|
    ensures MetaOf(raws).Ok? ==>
              |MetaOf(raws).value.replicas| == |Bucket(raws, raws[|raws| - 1].shardingType,
                                                       RankKey(raws[0], raws[|raws| - 1].shardingType))|
  {
    var t, keys := raws[|raws| - 1].shardingType, KeyList(raws);
    var buckets, m := Buckets(raws, t, keys), |Bucket(raws, t, RankKey(raws[0], t))|;
    SortedKeysProperties(Keys(raws, t));
    forall i | 0 <= i < |raws| ensures EvenBuckets(buckets, m) ==> |Bucket(raws, t, RankKey(raws[i], t))| == m {
      KeysHas(raws, t, i);
      var a :| 0 <= a < |keys| && keys[a] == RankKey(raws[i], t);
      assert buckets[a] == Bucket(raws, t, RankKey(raws[i], t));
    }
    forall a | 0 <= a < |keys| ensures exists i :: 0 <= i < |raws| && RankKey(raws[i], t) == keys[a] {
      KeyReported(raws, t, keys[a]);
    }
  }

  lemma {:induction false} KeyReported(raws: seq<RawShard>, t: ShardingType, key: nat)
    requires key in Keys(raws, t)
    ensures exists i :: 0 <= i < |raws| && RankKey(raws[i], t) == key
  {
    var n := |raws| - 1;
    if key != RankKey(raws[n], t) {
      KeyReported(raws[..n], t, key);
      var i :| 0 <= i < n && RankKey(raws[..n][i], t) == key;
      assert raws[i] == raws[..n][i];
    }
  }

  /** Unsharded reports are replicas of one shard each, and the global tensor is what one rank holds. */
  lemma UnshardedReplicas(raws: RawShards)
    requires raws[|raws| - 1].shardingType.NoSharding?
    ensures MetaOf(raws).Ok? && |MetaOf(raws).value.replicas| == |raws|
    ensures forall i :: 0 <= i < |raws| ==>
              var replica := MetaOf(raws).value.replicas[i];
              && |replica| == 1 && replica[0].raw == raws[i] && |replica[0].offset| == |raws[0].shape|
              && forall d :: 0 <= d < |raws[0].shape| ==> replica[0].offset[d] == 0
    ensures MetaOf(raws).value.globalShape == raws[0].shape && MetaOf(raws).value.globalNumel == raws[0].numel
  {
    var n, c := |raws[0].shape|, raws[0].shardingDim;
    assert Members(raws, [0]) == [raws[0]];
    OneShard(raws[0], n, c);
    assert MetaOf(raws).value.globalShape == raws[0].shape;
    forall i | 0 <= i < |raws| ensures MetaOf(raws).value.replicas[i] == [Shard(raws[i], OffsetAlong(n, c, 0))] {
      assert Members(raws, [i]) == [raws[i]];
      OneShard(raws[i], n, c);
    }
  }

  lemma OneShard(raw: RawShard, n: nat, c: nat)
    ensures Place([raw], n, c) == [Shard(raw, OffsetAlong(n, c, 0))] && Sum(Numels([raw])) == raw.numel
    ensures ExtentBefore([raw], c, 1) == Extent(raw, c)
  {
    assert Extents([raw][..0], c) == [];
    assert Numels([raw])[..0] == [];
    ExtentStep([raw], c, 0);
  }

  /** A parameter cut into one shard is one replica of all reports as they came, laid end to end. */
  lemma WholeReplica(raws: RawShards)
    requires !raws[|raws| - 1].shardingType.NoSharding? && raws[|raws| - 1].numShards == 1
    ensures MetaOf(raws).Ok? && |MetaOf(raws).value.replicas| == 1
    ensures var replica, c := MetaOf(raws).value.replicas[0], raws[0].shardingDim;
            && |replica| == |raws|
            && (forall i :: 0 <= i < |raws| ==> replica[i].raw == raws[i])
            && (c < |raws[0].shape| ==> forall i :: 0 <= i < |raws| ==>
                  replica[i].offset[c] == Sum(Extents(raws[..i], c)))
    ensures MetaOf(raws).value.globalNumel == Sum(Numels(raws))
  {
    assert Members(raws, Indices(|raws|)) == raws;
  }

  /** A replica lists its shards in rank-key order if and only if tp ranks ascend with the keys. */
  lemma KeyOrderIff(raws: RawShards, i: nat)
    requires KeyGrouped(raws) && i < |ReplicaGroups(raws).value|
    ensures ReplicaGroups(raws).value[i] == IthReports(raws, KeyList(raws), i)
       <==> TpAscends(raws, IthReports(raws, KeyList(raws), i))
  {
    ReplicaIsSorted(raws, i);
    SortKeepsOrder(raws, IthReports(raws, KeyList(raws), i));
  }

  lemma SortKeepsOrder(raws: seq<RawShard>, column: seq<nat>)
    requires forall j :: 0 <= j < |column| ==> column[j] < |raws|
    ensures SortByTp(raws, column) == column <==> TpAscends(raws, column)
  {
    StableSortAscends(column, TpBefore(raws));
    if TpAscends(raws, column) {
      SortOfAscending(raws, column);
    } else {
      var j, k :| 0 <= j < k < |column| && raws[column[j]].tpRank > raws[column[k]].tpRank;
      assert TpBefore(raws)(column[k], column[j]);
    }
  }

  lemma {:induction false} SortOfAscending(raws: seq<RawShard>, column: seq<nat>)
    requires TpAscends(raws, column)
    ensures SortByTp(raws, column) == column
  {
    if column != [] {
      var n := |column| - 1;
      assert TpAscends(raws, column[..n]);
      SortOfAscending(raws, column[..n]);
      assert n > 0 ==> !TpBefore(raws)(column[n], column[..n][n - 1]);
      assert column == column[..n] + [column[n]];
    }
  }

  /** Sharding by tp rank always keeps rank-key order. */
  lemma TpKeepsKeyOrder(raws: RawShards, i: nat)
    requires KeyGrouped(raws) && i < |ReplicaGroups(raws).value| && raws[|raws| - 1].shardingType.TpSharding?
    ensures ReplicaGroups(raws).value[i] == IthReports(raws, KeyList(raws), i)
  {
    ReplicaIsSorted(raws, i);
    SortedKeysProperties(Keys(raws, raws[|raws| - 1].shardingType));
    KeyOrderIff(raws, i);
  }

  function Below(key: nat): nat -> bool { (k: nat) => k < key }

  /** In rank-key order a shard begins where the shards of all smaller keys end. */
  lemma KeyOrderOffsets(raws: RawShards, i: nat, j: nat)
    requires KeyGrouped(raws) && i < |ReplicaGroups(raws).value| && j < |KeyList(raws)|
    requires TpAscends(raws, IthReports(raws, KeyList(raws), i)) && raws[0].shardingDim < |raws[0].shape|
    ensures j < |MetaOf(raws).value.replicas[i]|
    ensures var shard, c := MetaOf(raws).value.replicas[i][j], raws[0].shardingDim;
            var smaller := IthReports(raws, Filter(KeyList(raws), Below(KeyList(raws)[j])), i);
            && RankKey(shard.raw, raws[|raws| - 1].shardingType) == KeyList(raws)[j]
            && shard.offset[c] == Sum(Extents(Members(raws, smaller), c))
  {
    ReplicaIsSorted(raws, i);
    KeyOrderIff(raws, i);
    SortedKeysProperties(Keys(raws, raws[|raws| - 1].shardingType));
    OffsetInKeyOrder(raws, ReplicaGroups(raws).value, KeyList(raws), i, j);
  }

  lemma MembersPrefix(raws: RawShards, keys: seq<nat>, i: nat, j: nat)
    requires j <= |keys|
    ensures Members(raws, IthReports(raws, keys, i))[..j] == Members(raws, IthReports(raws, keys[..j], i))
  {
  }

  lemma OffsetInKeyOrder(raws: RawShards, groups: seq<seq<nat>>, keys: seq<nat>, i: nat, j: nat)
    requires i < |groups| && j < |keys| && groups[i] == IthReports(raws, keys, i) && groups[i][j] < |raws|
    requires raws[0].shardingDim < |raws[0].shape| && forall a, b :: 0 <= a < b < |keys| ==> keys[a] < keys[b]
    ensures var placed, c := MetaFrom(raws, groups).replicas[i], raws[0].shardingDim;
            && |placed| == |keys| && placed[j].raw == raws[IthReport(raws, keys[j], i)]
            && placed[j].offset[c] == Sum(Extents(Members(raws, IthReports(raws, Filter(keys, Below(keys[j])), i)), c))
  {
    FilterBelow(keys, j, |keys|);
    assert keys[..|keys|] == keys;
    MembersPrefix(raws, keys, i, j);
    PlacedAt(raws, groups, i, j);
  }

  /** A placed shard begins where the shards before it in its replica end. */
  lemma PlacedAt(raws: RawShards, groups: seq<seq<nat>>, i: nat, j: nat)
    requires i < |groups| && j < |groups[i]| && groups[i][j] < |raws| && raws[0].shardingDim < |raws[0].shape|
    ensures var placed, c := MetaFrom(raws, groups).replicas[i], raws[0].shardingDim;
            && |placed| == |groups[i]| && placed[j].raw == raws[groups[i][j]]
            && placed[j].offset[c] == Sum(Extents(Members(raws, groups[i])[..j], c))
  {
  }

  lemma {:induction false} FilterBelow(keys: seq<nat>, j: nat, n: nat)
    requires j <= n <= |keys| && j < |keys| && forall a, b :: 0 <= a < b < |keys| ==> keys[a] < keys[b]
    ensures Filter(keys[..n], Below(keys[j])) == keys[..j]
  {
    if n > 0 {
      assert keys[..n][..n - 1] == keys[..n - 1];
      if n > j {
        FilterBelow(keys, j, n - 1);
      } else {
        FilterAll(keys[..n], Below(keys[j]));
      }
    }
  }

  /** Two reports out of rank order: attention rank 1 (tp rank 1) is laid out before attention rank 0 (tp rank 2). */
  lemma OutOfOrderReports(low: RawShard, high: RawShard)
    requires low.attnTpRank == 0 && low.tpRank == 2 && high.attnTpRank == 1 && high.tpRank == 1
    requires high.shardingType.DpTpSharding? && high.numShards == 2
    ensures ReplicaGroups([low, high]) == Ok([[1, 0]]) && KeyList([low, high]) == [0, 1]
  {
    var raws := [low, high];
    TwoKeys(raws);
    TwoSwapped(raws);
    var buckets := Buckets(raws, DpTpSharding, [0, 1]);
    assert buckets == [[0], [1]];
    assert Column(buckets, 1, 0) == [0, 1];
    assert SortedColumns(raws, buckets, 1) == [[1, 0]];
  }

  lemma {:induction false} AtLeastIndex(keys: seq<nat>, k: nat)
    requires k < |keys| && forall a, b :: 0 <= a < b < |keys| ==> keys[a] < keys[b]
    ensures keys[k] >= k
  {
    if k > 0 {
      AtLeastIndex(keys, k - 1);
    }
  }

  lemma TwoKeys(raws: seq<RawShard>)
    requires |raws| == 2 && raws[0].attnTpRank == 0 && raws[1].attnTpRank == 1
    ensures SortedKeys(Keys(raws, DpTpSharding)) == [0, 1]
    ensures Bucket(raws, DpTpSharding, 0) == [0] && Bucket(raws, DpTpSharding, 1) == [1]
  {
    var keys := SortedKeys({0, 1});
    assert raws[..1][..0] == [];
    assert Keys(raws[..1], DpTpSharding) == {0};
    assert Keys(raws, DpTpSharding) == {0, 1};
    SortedKeysProperties({0, 1});
    assert 0 in keys && 1 in keys;
    var a, b :| 0 <= a < |keys| && 0 <= b < |keys| && keys[a] == 0 && keys[b] == 1;
    AtLeastIndex(keys, |keys| - 1);
    assert keys[|keys| - 1] in keys;
    assert Indices(2)[..1] == Indices(1) && Indices(1)[..0] == [];
  }

  lemma TwoSwapped(raws: seq<RawShard>)
    requires |raws| == 2 && raws[1].tpRank < raws[0].tpRank
    ensures SortByTp(raws, [0, 1]) == [1, 0]
  {
    var before := TpBefore(raws);
    var first: seq<nat> := [0];
    var both: seq<nat> := [0, 1];
    assert both[..1] == first;
    assert StableSort(first, before) == first;
    assert InsertLast(first, 1, before) == InsertLast(first[..0], 1, before) + first;
  }

  // ----- offsets within a replica

  function Extent(s: RawShard, c: nat): nat { if c < |s.shape| then s.shape[c] else 0 }

  function Extents(raws: seq<RawShard>, c: nat): seq<nat> {
    seq(|raws|, i requires 0 <= i < |raws| => Extent(raws[i], c))
  }

  /** How far along dimension c the first j shards reach. */
  function ExtentBefore(replica: seq<RawShard>, c: nat, j: nat): nat
    requires j <= |replica|
  {
    Sum(Extents(replica[..j], c))
  }

  function OffsetAlong(n: nat, c: nat, v: nat): seq<nat> { seq(n, d => if d == c then v else 0) }

  function Members(raws: RawShards, group: seq<nat>): seq<RawShard> {
    seq(|group|, j requires 0 <= j < |group| => if group[j] < |raws| then raws[group[j]] else raws[0])
  }

  function Place(replica: seq<RawShard>, n: nat, c: nat): seq<Shard> {
    seq(|replica|, j requires 0 <= j < |replica| => Shard(replica[j], OffsetAlong(n, c, ExtentBefore(replica, c, j))))
  }

  function GlobalShape(first: seq<RawShard>, n: nat, c: nat): seq<nat> {
    seq(n, d requires 0 <= d < n =>
      if d == c || first == [] then ExtentBefore(first, c, |first|) else Extent(first[0], d))
  }

  function Numels(replica: seq<RawShard>): seq<nat> {
    seq(|replica|, i requires 0 <= i < |replica| => replica[i].numel)
  }

  lemma GroupsInRange(raws: RawShards, a: nat, j: nat)
    requires ReplicaGroups(raws).Ok?
    requires a < |ReplicaGroups(raws).value| && j < |ReplicaGroups(raws).value[a]|
    ensures ReplicaGroups(raws).value[a][j] < |raws|
  {
    var groups := ReplicaGroups(raws).value;
    EveryReportOnce(raws);
    FlattenIn(groups, groups[a][j]);
    assert groups[a][j] in multiset(Flatten(groups));
    assert groups[a][j] in Indices(|raws|);
  }

  /** The metadata of one parameter as a function of the reports on it. */
  function MetaOf(raws: RawShards): Result<ParamMeta, MetaError> {
    match ReplicaGroups(raws)
    case Err(e) => Err(e)
    case Ok(groups) => Ok(MetaFrom(raws, groups))
  }

  function MetaFrom(raws: RawShards, groups: seq<seq<nat>>): ParamMeta {
    var n, c := |raws[0].shape|, raws[0].shardingDim;
    var first := Members(raws, if groups == [] then [] else groups[0]);
    ParamMeta(raws[0].name, Sum(Numels(first)), GlobalShape(first, n, c), PlaceAll(raws, groups, n, c))
  }

  function PlaceAll(raws: RawShards, groups: seq<seq<nat>>, n: nat, c: nat): seq<seq<Shard>> {
    seq(|groups|, a requires 0 <= a < |groups| => Place(Members(raws, groups[a]), n, c))
  }

  /** There is a replica, and no replica is empty. */
  lemma ReplicasNonEmpty(raws: RawShards)
    requires ReplicaGroups(raws).Ok?
    ensures |ReplicaGroups(raws).value| > 0
    ensures forall a :: 0 <= a < |ReplicaGroups(raws).value| ==> ReplicaGroups(raws).value[a] != []
  {
    var t := raws[|raws| - 1].shardingType;
    if !t.NoSharding? && raws[|raws| - 1].numShards != 1 {
      KeysHas(raws, t, 0);
      SortedKeysProperties(Keys(raws, t));
      assert RankKey(raws[0], t) in SortedKeys(Keys(raws, t));
      FilterIn<nat>(Indices(|raws|), HasKey(raws, t, RankKey(raws[0], t)), 0);
      assert Indices(|raws|)[0] == 0;
    }
  }

  /** One replica's offsets: a running total along the sharding dimension, written into the records. */
  method AssignGlobalOffsets(replica: seq<ShardRecord>, numDims: nat, shardingDim: nat)
    requires forall i, j :: 0 <= i < j < |replica| ==> replica[i] != replica[j]
    requires forall i :: 0 <= i < |replica| ==> |replica[i].raw.shape| == numDims
    modifies set r | r in replica
    ensures forall j :: 0 <= j < |replica| ==>
              replica[j].globalOffset == Place(RawsOf(replica), numDims, shardingDim)[j].offset
  {
    ghost var raws := RawsOf(replica);
    var prevOffsets: seq<nat> := seq(numDims, d => 0);
    for j := 0 to |replica|
      invariant prevOffsets == OffsetAlong(numDims, shardingDim, ExtentBefore(raws, shardingDim, j))
      invariant forall i :: 0 <= i < j ==> replica[i].globalOffset == Place(raws, numDims, shardingDim)[i].offset
    {
      replica[j].globalOffset := prevOffsets;
      ExtentStep(raws, shardingDim, j);
      ghost var before := prevOffsets;
      for d := 0 to numDims
        invariant |prevOffsets| == numDims
        invariant forall e :: 0 <= e < numDims ==>
                    prevOffsets[e] == if e == shardingDim && e < d then before[e] + raws[j].shape[e] else before[e]
      {
        if d == shardingDim {
          prevOffsets := prevOffsets[d := prevOffsets[d] + replica[j].raw.shape[d]];
        } else {
          prevOffsets := prevOffsets[d := replica[j].globalOffset[d]];
        }
      }
    }
  }

  method PlaceRecords(records: seq<ShardRecord>, group: seq<nat>, n: nat, c: nat) returns (placed: seq<Shard>)
    requires forall i, j :: 0 <= i < j < |records| ==> records[i] != records[j]
    requires forall i :: 0 <= i < |records| ==> |records[i].raw.shape| == n
    requires records != [] && forall j :: 0 <= j < |group| ==> group[j] < |records|
    requires forall i, j :: 0 <= i < j < |group| ==> group[i] != group[j]
    modifies set s | s in records
    ensures placed == Place(Members(RawsOf(records), group), n, c)
    ensures forall j :: 0 <= j < |group| ==> records[group[j]].globalOffset == placed[j].offset
  {
    var replica := seq(|group|, j requires 0 <= j < |group| => records[group[j]]);
    assert RawsOf(replica) == Members(RawsOf(records), group);
    AssignGlobalOffsets(replica, n, c);
    placed := [];
    for j := 0 to |group|
      invariant placed == Place(Members(RawsOf(records), group), n, c)[..j]
    {
      placed := placed + [Shard(replica[j].raw, replica[j].globalOffset)];
    }
  }

  function RawsOf(records: seq<ShardRecord>): seq<RawShard> {
    seq(|records|, i requires 0 <= i < |records| => records[i].raw)
  }

  lemma ExtentStep(replica: seq<RawShard>, c: nat, j: nat)
    requires j < |replica|
    ensures ExtentBefore(replica, c, j + 1) == ExtentBefore(replica, c, j) + Extent(replica[j], c)
  {
    assert Extents(replica[..j + 1], c)[..j] == Extents(replica[..j], c);
  }

  /** The whole resolver for one parameter; the records of every replica end up placed. */
  method BuildParamMeta(records: seq<ShardRecord>) returns (r: Result<ParamMeta, MetaError>)
    requires records != []
    requires forall i, j :: 0 <= i < j < |records| ==> records[i] != records[j]
    requires forall i :: 0 <= i < |records| ==> |records[i].raw.shape| == |records[0].raw.shape|
    modifies set s | s in records
    ensures r == MetaOf(RawsOf(records))
  {
    var raws := RawsOf(records);
    var grouped := GroupReplicas(raws);
    if grouped.Err? {
      return Err(grouped.error);
    }
    var groups := grouped.value;
    var n, c := |records[0].raw.shape|, records[0].raw.shardingDim;
    GroupsDistinct(raws, groups);
    var replicas: seq<seq<Shard>> := [];
    for a := 0 to |groups|
      invariant replicas == PlaceAll(raws, groups, n, c)[..a]
    {
      var placed := PlaceRecords(records, groups[a], n, c);
      replicas := replicas + [placed];
    }
    var first := Members(raws, if groups == [] then [] else groups[0]);
    assert replicas == PlaceAll(raws, groups, n, c);
    r := Ok(ParamMeta(records[0].raw.name, Sum(Numels(first)), GlobalShape(first, n, c), replicas));
  }

  lemma GroupsDistinct(raws: RawShards, groups: seq<seq<nat>>)
    requires ReplicaGroups(raws) == Ok(groups)
    ensures forall a, j :: 0 <= a < |groups| && 0 <= j < |groups[a]| ==> groups[a][j] < |raws|
    ensures forall a, i, j :: 0 <= a < |groups| && 0 <= i < j < |groups[a]| ==> groups[a][i] != groups[a][j]
  {
    EveryReportOnce(raws);
    IndicesDistinct(|raws|);
    forall a, j | 0 <= a < |groups| && 0 <= j < |groups[a]| ensures groups[a][j] < |raws| {
      GroupsInRange(raws, a, j);
    }
    forall a, i, j | 0 <= a < |groups| && 0 <= i < j < |groups[a]| ensures groups[a][i] != groups[a][j] {
      if groups[a][i] == groups[a][j] {
        FlattenInjective(groups, a, i, a, j);
      }
    }
  }

  lemma {:induction false} IndicesDistinct(n: nat)
    ensures forall x: nat :: multiset(Indices(n))[x] <= 1
  {
    if n > 0 {
      IndicesDistinct(n - 1);
      assert Indices(n) == Indices(n - 1) + [n - 1];
      assert (n - 1) !in Indices(n - 1);
    }
  }

  // ----- what the placed replicas mean

  ghost predicate InShape(g: seq<nat>, shape: seq<nat>) {
    |g| == |shape| && forall d :: 0 <= d < |g| ==> g[d] < shape[d]
  }

  ghost predicate InShard(s: Shard, g: seq<nat>) {
    |g| == |s.offset| == |s.raw.shape|
    && forall d :: 0 <= d < |g| ==> s.offset[d] <= g[d] < s.offset[d] + s.raw.shape[d]
  }

  /** The shards lie within the shape, leave no element out and share none. */
  ghost predicate Tiles(replica: seq<Shard>, shape: seq<nat>) {
    && (forall k :: 0 <= k < |replica| ==> Within(replica[k], shape))
    && (forall g :: InShape(g, shape) ==> exists k :: 0 <= k < |replica| && InShard(replica[k], g))
    && (forall j, k, g :: 0 <= j < k < |replica| && InShard(replica[j], g) ==> !InShard(replica[k], g))
  }

  ghost predicate Within(s: Shard, shape: seq<nat>) {
    |s.offset| == |s.raw.shape| == |shape|
    && forall d :: 0 <= d < |shape| ==> s.offset[d] + s.raw.shape[d] <= shape[d]
  }

  /** Slabs laid end to end along dimension c that fill the shape. */
  ghost predicate SlabTiling(replica: seq<Shard>, shape: seq<nat>, c: nat) {
    && c < |shape|
    && replica == Place(Reports(replica), |shape|, c)
    && (forall k :: 0 <= k < |replica| ==> |replica[k].raw.shape| == |shape|)
    && (forall k, d :: 0 <= k < |replica| && 0 <= d < |shape| && d != c ==> replica[k].raw.shape[d] == shape[d])
    && ExtentBefore(Reports(replica), c, |replica|) == shape[c]
  }

  ghost function Reports(replica: seq<Shard>): seq<RawShard> {
    seq(|replica|, k requires 0 <= k < |replica| => replica[k].raw)
  }

  /** All ranks agree on the extents off the sharding dimension, and ranks with equal keys on all. */
  ghost predicate ConsistentShapes(raws: RawShards) {
    var n, c := |raws[0].shape|, raws[0].shardingDim;
    var t := raws[|raws| - 1].shardingType;
    && c < n
    && (forall i :: 0 <= i < |raws| ==> |raws[i].shape| == n)
    && (forall i, d :: 0 <= i < |raws| && 0 <= d < n && d != c ==> raws[i].shape[d] == raws[0].shape[d])
    && (t.NoSharding? || raws[|raws| - 1].numShards != 1 ==>
          forall i, j :: 0 <= i < |raws| && 0 <= j < |raws| && RankKey(raws[i], t) == RankKey(raws[j], t) ==>
            raws[i].shape == raws[j].shape)
  }

  lemma {:induction false} ExtentMonotone(replica: seq<RawShard>, c: nat, j: nat, k: nat)
    requires j < k <= |replica|
    ensures ExtentBefore(replica, c, j) + Extent(replica[j], c) <= ExtentBefore(replica, c, k)
  {
    if k == j + 1 {
      ExtentStep(replica, c, j);
    } else {
      ExtentMonotone(replica, c, j, k - 1);
      ExtentStep(replica, c, k - 1);
    }
  }

  /** The slab a coordinate falls in. */
  lemma {:induction false} SlabOf(replica: seq<RawShard>, c: nat, x: nat, n: nat) returns (k: nat)
    requires n <= |replica| && x < ExtentBefore(replica, c, n)
    ensures k < n && ExtentBefore(replica, c, k) <= x < ExtentBefore(replica, c, k) + Extent(replica[k], c)
  {
    assert Extents(replica[..0], c) == [];
    if n > 0 {
      ExtentStep(replica, c, n - 1);
      if x >= ExtentBefore(replica, c, n - 1) {
        k := n - 1;
      } else {
        k := SlabOf(replica, c, x, n - 1);
      }
    }
  }

  lemma SlabsTile(replica: seq<Shard>, shape: seq<nat>, c: nat)
    requires SlabTiling(replica, shape, c)
    ensures Tiles(replica, shape)
  {
    var raws := Reports(replica);
    forall k | 0 <= k < |replica| ensures Within(replica[k], shape) {
      ExtentMonotone(raws, c, k, |replica|);
    }
    forall g | InShape(g, shape) ensures exists k :: 0 <= k < |replica| && InShard(replica[k], g) {
      var k := SlabOf(raws, c, g[c], |raws|);
      assert InShard(replica[k], g);
    }
    forall j, k, g | 0 <= j < k < |replica| && InShard(replica[j], g) ensures !InShard(replica[k], g) {
      ExtentMonotone(raws, c, j, k);
    }
  }

  /** Every replica built from consistently shaped reports fills the global shape without overlap. */
  lemma ReplicasTile(raws: RawShards, a: nat)
    requires ConsistentShapes(raws) && MetaOf(raws).Ok?
    requires a < |MetaOf(raws).value.replicas|
    ensures SlabTiling(MetaOf(raws).value.replicas[a], MetaOf(raws).value.globalShape, raws[0].shardingDim)
    ensures Tiles(MetaOf(raws).value.replicas[a], MetaOf(raws).value.globalShape)
  {
    var groups := ReplicaGroups(raws).value;
    ReplicasNonEmpty(raws);
    GroupsDistinct(raws, groups);
    ReplicasEqualExtent(raws, groups, a);
    GroupTiles(raws, groups, a);
  }

  lemma GroupTiles(raws: RawShards, groups: seq<seq<nat>>, a: nat)
    requires ConsistentShapes(raws) && a < |groups| && groups[0] != []
    requires var c, first, other := raws[0].shardingDim, Members(raws, groups[0]), Members(raws, groups[a]);
             ExtentBefore(other, c, |other|) == ExtentBefore(first, c, |first|)
    ensures var meta := MetaFrom(raws, groups);
            SlabTiling(meta.replicas[a], meta.globalShape, raws[0].shardingDim) &&
              Tiles(meta.replicas[a], meta.globalShape)
  {
    var n, c := |raws[0].shape|, raws[0].shardingDim;
    var first, other := Members(raws, groups[0]), Members(raws, groups[a]);
    MembersShapes(raws, groups[0]);
    MembersShapes(raws, groups[a]);
    forall k, d | 0 <= k < |other| && 0 <= d < n && d != c ensures other[k].shape[d] == first[0].shape[d] {
      assert other[k].shape[d] == raws[0].shape[d] == first[0].shape[d];
    }
    PlacedSlabs(other, first, n, c);
    SlabsTile(Place(other, n, c), GlobalShape(first, n, c), c);
  }

  lemma MembersShapes(raws: RawShards, group: seq<nat>)
    requires ConsistentShapes(raws)
    ensures forall k :: 0 <= k < |group| ==> Members(raws, group)[k] in raws
    ensures forall k :: 0 <= k < |group| ==> |Members(raws, group)[k].shape| == |raws[0].shape|
    ensures forall k, d :: 0 <= k < |group| && 0 <= d < |raws[0].shape| && d != raws[0].shardingDim ==>
              Members(raws, group)[k].shape[d] == raws[0].shape[d]
  {
  }

  lemma PlacedSlabs(replica: seq<RawShard>, first: seq<RawShard>, n: nat, c: nat)
    requires c < n && first != []
    requires |first[0].shape| == n && forall k :: 0 <= k < |replica| ==> |replica[k].shape| == n
    requires forall k, d :: 0 <= k < |replica| && 0 <= d < n && d != c ==> replica[k].shape[d] == first[0].shape[d]
    requires ExtentBefore(replica, c, |replica|) == ExtentBefore(first, c, |first|)
    ensures SlabTiling(Place(replica, n, c), GlobalShape(first, n, c), c)
  {
    assert Reports(Place(replica, n, c)) == replica;
  }

  /** Every replica reaches as far along the sharding dimension as the first one. */
  lemma ReplicasEqualExtent(raws: RawShards, groups: seq<seq<nat>>, a: nat)
    requires ConsistentShapes(raws) && ReplicaGroups(raws) == Ok(groups) && a < |groups|
    ensures var c, first, other := raws[0].shardingDim, Members(raws, groups[0]), Members(raws, groups[a]);
            ExtentBefore(other, c, |other|) == ExtentBefore(first, c, |first|)
  {
    var t, c := raws[|raws| - 1].shardingType, raws[0].shardingDim;
    var m0, ma := Members(raws, groups[0]), Members(raws, groups[a]);
    assert m0[..|m0|] == m0 && ma[..|ma|] == ma;
    GroupsDistinct(raws, groups);
    assert ExtentsAt(raws, groups[a], c) == Extents(ma, c);
    assert ExtentsAt(raws, groups[0], c) == Extents(m0, c);
    if t.NoSharding? {
      assert ma == [raws[a]] && m0 == [raws[0]];
      assert RankKey(raws[a], t) == RankKey(raws[0], t);
      assert Extents(ma, c) == Extents(m0, c);
    } else if raws[|raws| - 1].numShards != 1 {
      var keys := SortedKeys(Keys(raws, t));
      var m := |Bucket(raws, t, RankKey(raws[0], t))|;
      ColumnsEqualExtent(raws, keys, Buckets(raws, t, keys), m, a, c);
    }
  }

  lemma ColumnsEqualExtent(raws: RawShards, keys: seq<nat>, buckets: seq<seq<nat>>, m: nat, a: nat, c: nat)
    requires a < m
    requires var t := raws[|raws| - 1].shardingType;
             && buckets == Buckets(raws, t, keys) && EvenBuckets(buckets, m)
             && forall i, j :: 0 <= i < |raws| && 0 <= j < |raws| && RankKey(raws[i], t) == RankKey(raws[j], t) ==>
                  raws[i].shape == raws[j].shape
    ensures Sum(ExtentsAt(raws, SortedColumns(raws, buckets, m)[a], c))
         == Sum(ExtentsAt(raws, SortedColumns(raws, buckets, m)[0], c))
  {
    var t := raws[|raws| - 1].shardingType;
    var ca, c0 := Column(buckets, m, a), Column(buckets, m, 0);
    forall j | 0 <= j < |buckets|
      ensures ca[j] < |raws| && c0[j] < |raws| && raws[ca[j]].shape == raws[c0[j]].shape
    {
      assert ca[j] in buckets[j] && c0[j] in buckets[j];
      FilterIn<nat>(Indices(|raws|), HasKey(raws, t, keys[j]), ca[j]);
      FilterIn<nat>(Indices(|raws|), HasKey(raws, t, keys[j]), c0[j]);
    }
    SortKeepsExtent(raws, ca, c);
    SortKeepsExtent(raws, c0, c);
    assert ExtentsAt(raws, ca, c) == ExtentsAt(raws, c0, c);
  }

  ghost function ExtentsAt(raws: seq<RawShard>, group: seq<nat>, c: nat): seq<nat> {
    seq(|group|, j requires 0 <= j < |group| => if group[j] < |raws| then Extent(raws[group[j]], c) else 0)
  }

  lemma {:induction false} SortKeepsExtent(raws: seq<RawShard>, group: seq<nat>, c: nat)
    ensures Sum(ExtentsAt(raws, SortByTp(raws, group), c)) == Sum(ExtentsAt(raws, group, c))
  {
    if group != [] {
      var n := |group| - 1;
      SortKeepsExtent(raws, group[..n], c);
      InsertKeepsExtent(raws, SortByTp(raws, group[..n]), group[n], c);
      assert ExtentsAt(raws, group, c)[..n] == ExtentsAt(raws, group[..n], c);
    }
  }

  lemma {:induction false} InsertKeepsExtent(raws: seq<RawShard>, s: seq<nat>, x: nat, c: nat)
    ensures Sum(ExtentsAt(raws, InsertLast(s, x, TpBefore(raws)), c))
         == Sum(ExtentsAt(raws, s, c)) + (if x < |raws| then Extent(raws[x], c) else 0)
  {
    var before := TpBefore(raws);
    var r := InsertLast(s, x, before);
    assert ExtentsAt(raws, r, c)[..|r| - 1] == ExtentsAt(raws, r[..|r| - 1], c);
    if s == [] || !before(x, s[|s| - 1]) {
      assert r[..|r| - 1] == s;
    } else {
      InsertKeepsExtent(raws, s[..|s| - 1], x, c);
      assert r[..|r| - 1] == InsertLast(s[..|s| - 1], x, before);
      assert ExtentsAt(raws, s, c)[..|s| - 1] == ExtentsAt(raws, s[..|s| - 1], c);
    }
  }

  /** No two places of the replicas hold shards of the same rank when every rank reports once. */
  lemma RanksDistinct(raws: RawShards, a: nat, j: nat, b: nat, k: nat)
    requires MetaOf(raws).Ok?
    requires forall i, l :: 0 <= i < l < |raws| ==> raws[i].globalRank != raws[l].globalRank
    requires a < |MetaOf(raws).value.replicas| && j < |MetaOf(raws).value.replicas[a]|
    requires b < |MetaOf(raws).value.replicas| && k < |MetaOf(raws).value.replicas[b]|
    requires MetaOf(raws).value.replicas[a][j].raw.globalRank == MetaOf(raws).value.replicas[b][k].raw.globalRank
    ensures a == b && j == k
  {
    var groups := ReplicaGroups(raws).value;
    GroupsDistinct(raws, groups);
    var i, l := groups[a][j], groups[b][k];
    assert raws[i].globalRank == raws[l].globalRank;
    assert i == l;
    PlacesDistinct(raws, groups, a, j, b, k);
  }

  lemma PlacesDistinct(raws: RawShards, groups: seq<seq<nat>>, a: nat, j: nat, b: nat, k: nat)
    requires ReplicaGroups(raws) == Ok(groups)
    requires a < |groups| && j < |groups[a]| && b < |groups| && k < |groups[b]| && groups[a][j] == groups[b][k]
    ensures a == b && j == k
  {
    EveryReportOnce(raws);
    IndicesDistinct(|raws|);
    FlattenInjective(groups, a, j, b, k);
  }

  // ----- element counts

  /** A product is additive in each factor. */
  lemma {:induction false} ProductAdds(s: seq<nat>, c: nat, x: nat, y: nat)
    requires c < |s|
    ensures Product(s[c := x + y]) == Product(s[c := x]) + Product(s[c := y])
  {
    var n := |s| - 1;
    if c == n {
      assert s[c := x + y][..n] == s[c := x][..n] == s[c := y][..n];
      assert Product(s[..n]) * (x + y) == Product(s[..n]) * x + Product(s[..n]) * y;
    } else {
      ProductAdds(s[..n], c, x, y);
      assert s[c := x + y][..n] == s[..n][c := x + y];
      assert s[c := x][..n] == s[..n][c := x];
      assert s[c := y][..n] == s[..n][c := y];
      Arithmetic.Distribute(Product(s[..n][c := x]), Product(s[..n][c := y]), s[n]);
    }
  }

  lemma {:induction false} ProductZero(s: seq<nat>, c: nat)
    requires c < |s| && s[c] == 0
    ensures Product(s) == 0
  {
    if c < |s| - 1 {
      ProductZero(s[..|s| - 1], c);
    }
  }

  /** The global element count the resolver reports is the volume of the global shape. */
  lemma GlobalNumel(raws: RawShards)
    requires ConsistentShapes(raws) && MetaOf(raws).Ok?
    requires forall i :: 0 <= i < |raws| ==> raws[i].numel == Product(raws[i].shape)
    ensures MetaOf(raws).value.globalNumel == Product(MetaOf(raws).value.globalShape)
  {
    var groups := ReplicaGroups(raws).value;
    ReplicasNonEmpty(raws);
    GroupsDistinct(raws, groups);
    FirstNumel(raws, groups);
  }

  lemma FirstNumel(raws: RawShards, groups: seq<seq<nat>>)
    requires ConsistentShapes(raws) && groups != [] && groups[0] != []
    requires forall i :: 0 <= i < |raws| ==> raws[i].numel == Product(raws[i].shape)
    ensures MetaFrom(raws, groups).globalNumel == Product(MetaFrom(raws, groups).globalShape)
  {
    var first, n, c := Members(raws, groups[0]), |raws[0].shape|, raws[0].shardingDim;
    MembersShapes(raws, groups[0]);
    forall k, d | 0 <= k < |first| && 0 <= d < n && d != c ensures first[k].shape[d] == first[0].shape[d] {
      assert first[k].shape[d] == raws[0].shape[d] == first[0].shape[d];
    }
    ReplicaNumel(first, n, c);
  }

  lemma ReplicaNumel(first: seq<RawShard>, n: nat, c: nat)
    requires c < n && first != []
    requires forall k :: 0 <= k < |first| ==> |first[k].shape| == n && first[k].numel == Product(first[k].shape)
    requires forall k, d :: 0 <= k < |first| && 0 <= d < n && d != c ==> first[k].shape[d] == first[0].shape[d]
    ensures Sum(Numels(first)) == Product(GlobalShape(first, n, c))
  {
    var shape := GlobalShape(first, n, c);
    SlabNumels(first, shape, c, |first|);
    assert first[..|first|] == first;
    assert shape[c := shape[c]] == shape;
  }

  lemma {:induction false} SlabNumels(replica: seq<RawShard>, shape: seq<nat>, c: nat, n: nat)
    requires c < |shape| && n <= |replica|
    requires forall j :: 0 <= j < |replica| ==>
               |replica[j].shape| == |shape| && replica[j].numel == Product(replica[j].shape)
    requires forall j, d :: 0 <= j < |replica| && 0 <= d < |shape| && d != c ==> replica[j].shape[d] == shape[d]
    ensures Sum(Numels(replica[..n])) == Product(shape[c := ExtentBefore(replica, c, n)])
  {
    if n == 0 {
      assert Extents(replica[..0], c) == [];
      ProductZero(shape[c := 0], c);
    } else {
      var e := Extent(replica[n - 1], c);
      SlabNumels(replica, shape, c, n - 1);
      ExtentStep(replica, c, n - 1);
      assert Numels(replica[..n])[..n - 1] == Numels(replica[..n - 1]);
      assert replica[n - 1].shape == shape[c := e];
      ProductAdds(shape, c, ExtentBefore(replica, c, n - 1), e);
    }
  }
}
