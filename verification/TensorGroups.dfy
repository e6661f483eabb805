/**
 Packing tensors of one shape and dtype into large ones for sharing between processes, and
 unpacking them again (awex/util/tensor_util.py).
 */
module TensorGroups {
  import opened Wrappers
  import opened Seqs
  import opened Slices

  /** A tensor by its shape, its dtype and its elements in row-major order. */
  datatype Tensor<V> = Tensor(shape: seq<nat>, dtype: nat, data: seq<V>)

  predicate Valid<V>(t: Tensor<V>) { |t.data| == Product(t.shape) }

  /** A packed tensor: its view as one flat list. */
  datatype Group<V> = Group(dtype: nat, data: seq<V>)

  datatype Meta = Meta(index: nat, shape: seq<nat>, dtype: nat, group: nat, offset: nat, size: nat)

  datatype PackError = ScalarTensor | GroupMissing(group: nat) | BadView

  type Key = (seq<nat>, nat)

  function KeyOf<V>(t: Tensor<V>): Key { (t.shape, t.dtype) }

  // ----- which tensors go together

  /** The keys in the order in which they first appear. */
  function KeysOf<V>(tensors: seq<Tensor<V>>): seq<Key> {
    if tensors == [] then [] else
      var before, key := KeysOf(tensors[..|tensors| - 1]), KeyOf(tensors[|tensors| - 1]);
      if key in before then before else before + [key]
  }

  function HasKey<V>(tensors: seq<Tensor<V>>, key: Key): nat -> bool {
    (i: nat) => i < |tensors| && KeyOf(tensors[i]) == key
  }

  /** The positions of the tensors with one key, ascending. */
  function Bucket<V>(tensors: seq<Tensor<V>>, key: Key): seq<nat> { Filter(Indices(|tensors|), HasKey(tensors, key)) }

  /** Bytes of a list of tensors; width gives a dtype's bytes per element. */
  function SizeOf<V>(t: Tensor<V>, width: nat -> nat): nat { width(t.dtype) * |t.data| }

  function Bytes<V>(tensors: seq<Tensor<V>>, list: seq<nat>, width: nat -> nat): nat {
    if list == [] then 0 else
      var i := list[|list| - 1];
      Bytes(tensors, list[..|list| - 1], width) + (if i < |tensors| then SizeOf(tensors[i], width) else 0)
  }

  /** Groups already closed, and the one being filled. */
  datatype Filling = Filling(closed: seq<seq<nat>>, current: seq<nat>)

  /** A tensor joins the current group first; the group is closed once it is over the limit. */
  function Fill<V>(f: Filling, tensors: seq<Tensor<V>>, i: nat, limit: nat, width: nat -> nat): Filling {
    if Bytes(tensors, f.current + [i], width) > limit then Filling(f.closed + [f.current + [i]], [])
    else Filling(f.closed, f.current + [i])
  }

  function FillAll<V>(tensors: seq<Tensor<V>>, list: seq<nat>, limit: nat, width: nat -> nat): Filling {
    if list == [] then Filling([], [])
    else Fill(FillAll(tensors, list[..|list| - 1], limit, width), tensors, list[|list| - 1], limit, width)
  }

  function Close(f: Filling): seq<seq<nat>> { if f.current == [] then f.closed else f.closed + [f.current] }

  /** The groups of every key, as lists of positions. */
  function KeyGroups<V>(tensors: seq<Tensor<V>>, keys: seq<Key>, limit: nat, width: nat -> nat): seq<seq<seq<nat>>> {
    seq(|keys|, c requires 0 <= c < |keys| => Close(FillAll(tensors, Bucket(tensors, keys[c]), limit, width)))
  }

  function IndexGroups<V>(tensors: seq<Tensor<V>>, limit: nat, width: nat -> nat): seq<seq<nat>> {
    Flatten(KeyGroups(tensors, KeysOf(tensors), limit, width))
  }

  // ----- what is packed

  function DataOf<V>(tensors: seq<Tensor<V>>, list: seq<nat>): seq<seq<V>> {
    seq(|list|, k requires 0 <= k < |list| => if list[k] < |tensors| then tensors[list[k]].data else [])
  }

  function Packed<V>(tensors: seq<Tensor<V>>, list: seq<nat>): Group<V> {
    Group(if list != [] && list[0] < |tensors| then tensors[list[0]].dtype else 0, Flatten(DataOf(tensors, list)))
  }

  /** The metadata of the first n members of a group. */
  function MetasTo<V>(tensors: seq<Tensor<V>>, list: seq<nat>, group: nat, n: nat): seq<Meta>
    requires n <= |list|
  {
    if n == 0 then [] else
      var i, offset := list[n - 1], |Flatten(DataOf(tensors, list[..n - 1]))|;
      MetasTo(tensors, list, group, n - 1)
      + [if i < |tensors| then Meta(i, tensors[i].shape, tensors[i].dtype, group, offset, |tensors[i].data|)
         else Meta(i, [], 0, group, offset, 0)]
  }

  /** The metadata of groups numbered from `first` on, group by group. */
  function MetaParts<V>(tensors: seq<Tensor<V>>, groups: seq<seq<nat>>, first: nat): seq<seq<Meta>> {
    seq(|groups|, g requires 0 <= g < |groups| => MetasTo(tensors, groups[g], first + g, |groups[g]|))
  }

  function MetasFrom<V>(tensors: seq<Tensor<V>>, groups: seq<seq<nat>>, first: nat): seq<Meta> {
    Flatten(MetaParts(tensors, groups, first))
  }

  function PackedGroups<V>(tensors: seq<Tensor<V>>, groups: seq<seq<nat>>): seq<Group<V>> {
    seq(|groups|, g requires 0 <= g < |groups| => Packed(tensors, groups[g]))
  }

  /** A tensor without dimensions cannot be concatenated. */
  predicate NoScalars<V>(tensors: seq<Tensor<V>>) {
    forall i :: 0 <= i < |tensors| ==> |tensors[i].shape| > 0
  }

  function PackOf<V>(tensors: seq<Tensor<V>>, limit: nat, width: nat -> nat)
    : Result<(seq<Group<V>>, seq<Meta>), PackError>
  {
    var groups := IndexGroups(tensors, limit, width);
    if !NoScalars(tensors) then Err(ScalarTensor)
    else Ok((PackedGroups(tensors, groups), MetasFrom(tensors, groups, 0)))
  }

  // ----- packing, step by step

  ghost predicate Bucketed<V>(tensors: seq<Tensor<V>>, i: nat, buckets: map<Key, seq<nat>>) {
    forall key: Key :: Held(buckets, key) == Filter(Indices(i), HasKey(tensors, key))
  }

  lemma BucketStep<V>(tensors: seq<Tensor<V>>, i: nat, buckets: map<Key, seq<nat>>)
    requires i < |tensors| && Bucketed(tensors, i, buckets)
    ensures var key := KeyOf(tensors[i]); Bucketed(tensors, i + 1, buckets[key := Held(buckets, key) + [i]])
  {
    var key := KeyOf(tensors[i]);
    var after := buckets[key := Held(buckets, key) + [i]];
    forall k: Key ensures Held(after, k) == Filter(Indices(i + 1), HasKey(tensors, k)) {
      assert Held(buckets, k) == Filter(Indices(i), HasKey(tensors, k));
      assert Indices(i + 1)[..i] == Indices(i) && Indices(i + 1)[i] == i;
    }
  }

  ghost predicate SameKeys(keys: seq<Key>, buckets: map<Key, seq<nat>>) {
    forall key :: key in buckets <==> key in keys
  }

  lemma KeyStep(keys: seq<Key>, buckets: map<Key, seq<nat>>, key: Key, list: seq<nat>)
    requires SameKeys(keys, buckets)
    ensures SameKeys(if key in buckets then keys else keys + [key], buckets[key := list])
  {
  }

  method BucketByKey<V>(tensors: seq<Tensor<V>>) returns (keys: seq<Key>, buckets: map<Key, seq<nat>>)
    ensures keys == KeysOf(tensors) && SameKeys(keys, buckets)
    ensures forall key :: key in buckets ==> buckets[key] == Bucket(tensors, key)
  {
    keys, buckets := [], map[];
    for i := 0 to |tensors|
      invariant keys == KeysOf(tensors[..i]) && SameKeys(keys, buckets)
      invariant Bucketed(tensors, i, buckets)
    {
      var key := KeyOf(tensors[i]);
      assert tensors[..i + 1][..i] == tensors[..i];
      BucketStep(tensors, i, buckets);
      KeyStep(keys, buckets, key, Held(buckets, key) + [i]);
      if key !in buckets {
        keys := keys + [key];
      }
      buckets := buckets[key := Held(buckets, key) + [i]];
    }
    assert tensors[..|tensors|] == tensors;
    forall key | key in buckets ensures buckets[key] == Bucket(tensors, key) {
      assert Held(buckets, key) == Filter(Indices(|tensors|), HasKey(tensors, key));
    }
  }

  function Held(buckets: map<Key, seq<nat>>, key: Key): seq<nat> { if key in buckets then buckets[key] else [] }

  /** Concatenates a group and records where each member lies. */
  method CloseGroup<V>(tensors: seq<Tensor<V>>, current: seq<nat>, group: nat)
    returns (packed: Group<V>, metas: seq<Meta>)
    requires current != [] && forall k :: 0 <= k < |current| ==> current[k] < |tensors|
    ensures packed == Packed(tensors, current) && metas == MetasTo(tensors, current, group, |current|)
  {
    var data: seq<V> := [];
    metas := [];
    var offset := 0;
    for k := 0 to |current|
      invariant data == Flatten(DataOf(tensors, current[..k])) && offset == |data|
      invariant metas == MetasTo(tensors, current, group, k)
    {
      var t := tensors[current[k]];
      assert DataOf(tensors, current[..k + 1])[..k] == DataOf(tensors, current[..k]);
      data := data + t.data;
      metas := metas + [Meta(current[k], t.shape, t.dtype, group, offset, |t.data|)];
      offset := offset + |t.data|;
    }
    assert current[..|current|] == current;
    packed := Group(tensors[current[0]].dtype, data);
  }

  lemma PartsConcat<V>(tensors: seq<Tensor<V>>, a: seq<seq<nat>>, b: seq<seq<nat>>, first: nat)
    ensures MetaParts(tensors, a + b, first) == MetaParts(tensors, a, first) + MetaParts(tensors, b, first + |a|)
  {
    var whole := MetaParts(tensors, a + b, first);
    var parts := MetaParts(tensors, a, first) + MetaParts(tensors, b, first + |a|);
    forall g | 0 <= g < |whole| ensures whole[g] == parts[g] {
      if g >= |a| {
        assert (a + b)[g] == b[g - |a|] && first + g == first + |a| + (g - |a|);
      }
    }
  }

  lemma MetasConcat<V>(tensors: seq<Tensor<V>>, a: seq<seq<nat>>, b: seq<seq<nat>>, first: nat)
    ensures MetasFrom(tensors, a + b, first) == MetasFrom(tensors, a, first) + MetasFrom(tensors, b, first + |a|)
  {
    PartsConcat(tensors, a, b, first);
    FlattenConcat(MetaParts(tensors, a, first), MetaParts(tensors, b, first + |a|));
  }

  lemma PackedConcat<V>(tensors: seq<Tensor<V>>, a: seq<seq<nat>>, b: seq<seq<nat>>)
    ensures PackedGroups(tensors, a + b) == PackedGroups(tensors, a) + PackedGroups(tensors, b)
  {
  }

  lemma OneMoreGroup<V>(tensors: seq<Tensor<V>>, closed: seq<seq<nat>>, current: seq<nat>, first: nat)
    ensures MetasFrom(tensors, closed + [current], first)
         == MetasFrom(tensors, closed, first) + MetasTo(tensors, current, first + |closed|, |current|)
    ensures PackedGroups(tensors, closed + [current]) == PackedGroups(tensors, closed) + [Packed(tensors, current)]
  {
    MetasConcat(tensors, closed, [current], first);
    PackedConcat(tensors, closed, [current]);
    OnePart(MetasTo(tensors, current, first + |closed|, |current|), MetaParts(tensors, [current], first + |closed|));
  }

  lemma OnePart(part: seq<Meta>, parts: seq<seq<Meta>>)
    requires |parts| == 1 && parts[0] == part
    ensures Flatten(parts) == part
  {
    assert Flatten(parts[..0]) == [];
  }

  predicate InRange(list: seq<nat>, n: nat) { forall k :: 0 <= k < |list| ==> list[k] < n }

  /** One key's packing so far: groups closed, metadata recorded, and a group being filled. */
  ghost predicate PackedSoFar<V>(tensors: seq<Tensor<V>>, f: Filling, size: nat, width: nat -> nat, first: nat,
                                 groups: seq<Group<V>>, metas: seq<Meta>)
  {
    && InRange(f.current, |tensors|) && size == Bytes(tensors, f.current, width)
    && groups == PackedGroups(tensors, f.closed) && metas == MetasFrom(tensors, f.closed, first)
  }

  method Finalize<V>(tensors: seq<Tensor<V>>, current: seq<nat>, groups: seq<Group<V>>, metas: seq<Meta>,
                     first: nat, ghost closed: seq<seq<nat>>) returns (moreGroups: seq<Group<V>>, moreMetas: seq<Meta>)
    requires current != [] && InRange(current, |tensors|)
    requires groups == PackedGroups(tensors, closed) && metas == MetasFrom(tensors, closed, first)
    ensures moreGroups == PackedGroups(tensors, closed + [current]) &&
            moreMetas == MetasFrom(tensors, closed + [current], first)
  {
    var packed, more := CloseGroup(tensors, current, first + |groups|);
    OneMoreGroup(tensors, closed, current, first);
    moreGroups, moreMetas := groups + [packed], metas + more;
  }

  lemma FillStep<V>(tensors: seq<Tensor<V>>, list: seq<nat>, k: nat, limit: nat, width: nat -> nat)
    requires k < |list|
    ensures FillAll(tensors, list[..k + 1], limit, width)
            == Fill(FillAll(tensors, list[..k], limit, width), tensors, list[k], limit, width)
  {
    assert list[..k + 1][..k] == list[..k];
  }

  lemma BytesStep<V>(tensors: seq<Tensor<V>>, list: seq<nat>, i: nat, width: nat -> nat)
    requires i < |tensors|
    ensures Bytes(tensors, list + [i], width) == Bytes(tensors, list, width) + SizeOf(tensors[i], width)
  {
    assert (list + [i])[..|list|] == list;
  }

  /** One more tensor: it joins the current group, and the group is closed if that takes it over the limit. */
  method AddTensor<V>(tensors: seq<Tensor<V>>, i: nat, limit: nat, width: nat -> nat, first: nat, current: seq<nat>,
                      size: nat, groups: seq<Group<V>>, metas: seq<Meta>, ghost f: Filling)
    returns (newCurrent: seq<nat>, newSize: nat, newGroups: seq<Group<V>>, newMetas: seq<Meta>)
    requires i < |tensors| && f.current == current && PackedSoFar(tensors, f, size, width, first, groups, metas)
    ensures newCurrent == Fill(f, tensors, i, limit, width).current
    ensures PackedSoFar(tensors, Fill(f, tensors, i, limit, width), newSize, width, first, newGroups, newMetas)
  {
    BytesStep(tensors, current, i, width);
    newCurrent, newSize, newGroups, newMetas := current + [i], size + SizeOf(tensors[i], width), groups, metas;
    if newSize > limit {
      newGroups, newMetas := Finalize(tensors, newCurrent, groups, metas, first, f.closed);
      newCurrent, newSize := [], 0;
    }
  }

  /** One key's tensors, in groups numbered from `first` on. */
  method PackBucket<V>(tensors: seq<Tensor<V>>, list: seq<nat>, limit: nat, width: nat -> nat, first: nat)
    returns (groups: seq<Group<V>>, metas: seq<Meta>)
    requires InRange(list, |tensors|)
    ensures groups == PackedGroups(tensors, Close(FillAll(tensors, list, limit, width)))
    ensures metas == MetasFrom(tensors, Close(FillAll(tensors, list, limit, width)), first)
  {
    groups, metas := [], [];
    var current: seq<nat>, size: nat := [], 0;
    ghost var f := Filling([], []);
    for k := 0 to |list|
      invariant f == FillAll(tensors, list[..k], limit, width) && f.current == current
      invariant PackedSoFar(tensors, f, size, width, first, groups, metas)
    {
      FillStep(tensors, list, k, limit, width);
      current, size, groups, metas := AddTensor(tensors, list[k], limit, width, first, current, size, groups, metas, f);
      f := Fill(f, tensors, list[k], limit, width);
    }
    assert list[..|list|] == list;
    if current != [] {
      groups, metas := Finalize(tensors, current, groups, metas, first, f.closed);
    }
  }

  lemma {:induction false} KeysHave<V>(tensors: seq<Tensor<V>>, key: Key)
    ensures key in KeysOf(tensors) <==> exists i :: 0 <= i < |tensors| && KeyOf(tensors[i]) == key
  {
    if tensors != [] {
      KeysHave(tensors[..|tensors| - 1], key);
    }
  }

  lemma BucketInRange<V>(tensors: seq<Tensor<V>>, key: Key)
    ensures InRange(Bucket(tensors, key), |tensors|)
    ensures forall k :: 0 <= k < |Bucket(tensors, key)| ==> HasKey(tensors, key)(Bucket(tensors, key)[k])
  {
    forall k | 0 <= k < |Bucket(tensors, key)| ensures HasKey(tensors, key)(Bucket(tensors, key)[k]) {
      FilterIn<nat>(Indices(|tensors|), HasKey(tensors, key), Bucket(tensors, key)[k]);
    }
  }

  method PackMore<V>(tensors: seq<Tensor<V>>, list: seq<nat>, limit: nat, width: nat -> nat, groups: seq<Group<V>>,
                     metas: seq<Meta>, ghost before: seq<seq<nat>>, ghost own: seq<seq<nat>>)
    returns (moreGroups: seq<Group<V>>, moreMetas: seq<Meta>)
    requires InRange(list, |tensors|) && own == Close(FillAll(tensors, list, limit, width))
    requires groups == PackedGroups(tensors, before) && metas == MetasFrom(tensors, before, 0)
    ensures moreGroups == PackedGroups(tensors, before + own) && moreMetas == MetasFrom(tensors, before + own, 0)
  {
    var ownGroups, ownMetas := PackBucket(tensors, list, limit, width, |groups|);
    MetasConcat(tensors, before, own, 0);
    PackedConcat(tensors, before, own);
    moreGroups, moreMetas := groups + ownGroups, metas + ownMetas;
  }

  predicate Shaped(key: Key) { |key.0| > 0 }

  predicate ShapedKeys(keys: seq<Key>) { forall c :: 0 <= c < |keys| ==> Shaped(keys[c]) }

  lemma ScalarsByKey<V>(tensors: seq<Tensor<V>>)
    ensures ShapedKeys(KeysOf(tensors)) <==> NoScalars(tensors)
  {
    var keys := KeysOf(tensors);
    forall i | 0 <= i < |tensors| ensures KeyOf(tensors[i]) in keys {
      KeysHave(tensors, KeyOf(tensors[i]));
    }
    forall c | 0 <= c < |keys| ensures exists i :: 0 <= i < |tensors| && KeyOf(tensors[i]) == keys[c] {
      KeysHave(tensors, keys[c]);
    }
  }

  method GroupTensorsByShapeAndDtype<V>(tensors: seq<Tensor<V>>, limit: nat, width: nat -> nat)
    returns (r: Result<(seq<Group<V>>, seq<Meta>), PackError>)
    ensures r == PackOf(tensors, limit, width)
    ensures r.Err? <==> exists i :: 0 <= i < |tensors| && tensors[i].shape == []
  {
    var keys, buckets := BucketByKey(tensors);
    ScalarsByKey(tensors);
    forall c | 0 <= c < |keys| ensures InRange(Bucket(tensors, keys[c]), |tensors|) {
      BucketInRange(tensors, keys[c]);
    }
    var shaped := AllShaped(keys);
    if !shaped {
      return Err(ScalarTensor);
    }
    var groups, metas := PackKeys(tensors, keys, buckets, limit, width);
    r := Ok((groups, metas));
  }

  /** Concatenation refuses tensors without dimensions. */
  method AllShaped(keys: seq<Key>) returns (shaped: bool)
    ensures shaped == ShapedKeys(keys)
  {
    for j := 0 to |keys|
      invariant forall c :: 0 <= c < j ==> Shaped(keys[c])
    {
      if !Shaped(keys[j]) {
        return false;
      }
    }
    shaped := true;
  }

  method PackKeys<V>(tensors: seq<Tensor<V>>, keys: seq<Key>, buckets: map<Key, seq<nat>>, limit: nat,
                     width: nat -> nat)
    returns (groups: seq<Group<V>>, metas: seq<Meta>)
    requires forall c :: 0 <= c < |keys| ==> keys[c] in buckets && buckets[keys[c]] == Bucket(tensors, keys[c])
    requires forall c :: 0 <= c < |keys| ==> InRange(Bucket(tensors, keys[c]), |tensors|)
    ensures groups == PackedGroups(tensors, Flatten(KeyGroups(tensors, keys, limit, width)))
    ensures metas == MetasFrom(tensors, Flatten(KeyGroups(tensors, keys, limit, width)), 0)
  {
    groups, metas := [], [];
    ghost var parts := KeyGroups(tensors, keys, limit, width);
    for j := 0 to |keys|
      invariant groups == PackedGroups(tensors, Flatten(parts[..j])) &&
                metas == MetasFrom(tensors, Flatten(parts[..j]), 0)
    {
      FlattenPrefix(parts, j);
      groups, metas := PackMore(tensors, buckets[keys[j]], limit, width, groups, metas, Flatten(parts[..j]), parts[j]);
    }
    assert parts[..|parts|] == parts;
  }

  // ----- unpacking

  function InGroup(g: nat): Meta -> bool { (m: Meta) => m.group == g }

  /** One tensor cut out of its group, in its recorded shape. */
  function CutOut<V>(group: Group<V>, m: Meta): Result<Tensor<V>, PackError> {
    var cut := SliceOf(group.data, m.offset, m.offset + m.size);
    if |cut| == Product(m.shape) then Ok(Tensor(m.shape, group.dtype, cut)) else Err(BadView)
  }

  function CutAll<V>(group: Group<V>, items: seq<Meta>, into: seq<Option<Tensor<V>>>)
    : Result<seq<Option<Tensor<V>>>, PackError>
    requires forall k :: 0 <= k < |items| ==> items[k].index < |into|
  {
    if items == [] then Ok(into) else
      var m := items[|items| - 1];
      match CutAll(group, items[..|items| - 1], into)
      case Err(e) => Err(e)
      case Ok(out) =>
        match CutOut(group, m)
        case Err(e) => Err(e)
        case Ok(t) => if m.index < |out| then Ok(out[m.index := Some(t)]) else Err(BadView)
  }

  /** The slots after the first n groups. */
  function UnpackTo<V>(groups: seq<Group<V>>, metas: seq<Meta>, n: nat, slots: nat)
    : Result<seq<Option<Tensor<V>>>, PackError>
    requires n <= |groups| && forall k :: 0 <= k < |metas| ==> metas[k].index < slots
  {
    if n == 0 then Ok(seq(slots, i => None)) else
      match UnpackTo(groups, metas, n - 1, slots)
      case Err(e) => Err(e)
      case Ok(out) =>
        ItemsInRange(metas, n - 1, slots);
        if Filter(metas, InGroup(n - 1)) == [] || groups[n - 1].data == [] then Err(GroupMissing(n - 1))
        else if |out| == slots then CutAll(groups[n - 1], Filter(metas, InGroup(n - 1)), out) else Err(BadView)
  }

  lemma ItemsInRange(metas: seq<Meta>, g: nat, slots: nat)
    requires forall k :: 0 <= k < |metas| ==> metas[k].index < slots
    ensures forall k :: 0 <= k < |Filter(metas, InGroup(g))| ==> Filter(metas, InGroup(g))[k].index < slots
  {
    forall k | 0 <= k < |Filter(metas, InGroup(g))| ensures Filter(metas, InGroup(g))[k] in metas {
      FilterIn(metas, InGroup(g), Filter(metas, InGroup(g))[k]);
    }
  }

  function MaxIndex(metas: seq<Meta>): nat
    requires metas != []
  {
    if |metas| == 1 then metas[0].index else Max(MaxIndex(metas[..|metas| - 1]), metas[|metas| - 1].index)
  }

  lemma {:induction false} MaxIndexBounds(metas: seq<Meta>)
    requires metas != []
    ensures forall k :: 0 <= k < |metas| ==> metas[k].index <= MaxIndex(metas)
    ensures exists k :: 0 <= k < |metas| && metas[k].index == MaxIndex(metas)
  {
    var last := |metas| - 1;
    if |metas| == 1 {
      assert metas[0].index == MaxIndex(metas);
    } else {
      MaxIndexBounds(metas[..last]);
      if metas[last].index == MaxIndex(metas) {
      } else {
        var k :| 0 <= k < last && metas[..last][k].index == MaxIndex(metas[..last]);
        assert metas[k].index == MaxIndex(metas);
      }
    }
  }

  function UnpackOf<V>(groups: seq<Group<V>>, metas: seq<Meta>): Result<seq<Option<Tensor<V>>>, PackError> {
    if metas == [] then Ok([]) else
      MaxIndexBounds(metas);
      UnpackTo(groups, metas, |groups|, MaxIndex(metas) + 1)
  }

  method FindMaxIndex(metas: seq<Meta>) returns (m: nat)
    requires metas != []
    ensures m == MaxIndex(metas)
  {
    m := metas[0].index;
    for k := 1 to |metas|
      invariant m == MaxIndex(metas[..k])
    {
      assert metas[..k + 1][..k] == metas[..k];
      m := Max(m, metas[k].index);
    }
    assert metas[..|metas|] == metas;
  }

  /** The dictionary from group number to the group's items. */
  ghost predicate Indexed(byGroup: map<nat, seq<Meta>>, metas: seq<Meta>) {
    forall g: nat :: (if g in byGroup then byGroup[g] else []) == Filter(metas, InGroup(g))
  }

  method IndexByGroup(metas: seq<Meta>) returns (byGroup: map<nat, seq<Meta>>)
    ensures Indexed(byGroup, metas)
  {
    byGroup := map[];
    for k := 0 to |metas|
      invariant Indexed(byGroup, metas[..k])
    {
      assert metas[..k + 1][..k] == metas[..k];
      var g := metas[k].group;
      byGroup := byGroup[g := (if g in byGroup then byGroup[g] else []) + [metas[k]]];
    }
    assert metas[..|metas|] == metas;
  }

  method CutItems<V>(group: Group<V>, items: seq<Meta>, into: seq<Option<Tensor<V>>>)
    returns (r: Result<seq<Option<Tensor<V>>>, PackError>)
    requires forall k :: 0 <= k < |items| ==> items[k].index < |into|
    ensures r == CutAll(group, items, into)
    ensures r.Ok? ==> |r.value| == |into|
  {
    var out := into;
    for k := 0 to |items|
      invariant CutAll(group, items[..k], into) == Ok(out) && |out| == |into|
    {
      assert items[..k + 1][..k] == items[..k];
      var t := CutOut(group, items[k]);
      if t.Err? {
        CutErrorStays(group, items, into, k + 1);
        return Err(t.error);
      }
      out := out[items[k].index := Some(t.value)];
    }
    assert items[..|items|] == items;
    r := Ok(out);
  }

  lemma {:induction false} CutErrorStays<V>(group: Group<V>, items: seq<Meta>, into: seq<Option<Tensor<V>>>, k: nat)
    requires forall j :: 0 <= j < |items| ==> items[j].index < |into|
    requires k <= |items| && CutAll(group, items[..k], into).Err?
    ensures CutAll(group, items, into) == CutAll(group, items[..k], into)
    decreases |items| - k
  {
    if k == |items| {
      assert items[..k] == items;
    } else {
      assert items[..k + 1][..k] == items[..k];
      CutErrorStays(group, items, into, k + 1);
    }
  }

  lemma {:induction false} UnpackErrorStays<V>(groups: seq<Group<V>>, metas: seq<Meta>, n: nat, slots: nat)
    requires n <= |groups| && forall k :: 0 <= k < |metas| ==> metas[k].index < slots
    requires UnpackTo(groups, metas, n, slots).Err?
    ensures UnpackTo(groups, metas, |groups|, slots) == UnpackTo(groups, metas, n, slots)
    decreases |groups| - n
  {
    if n < |groups| {
      UnpackErrorStays(groups, metas, n + 1, slots);
    }
  }

  method UnpackGroup<V>(group: Group<V>, items: seq<Meta>, into: seq<Option<Tensor<V>>>, g: nat)
    returns (r: Result<seq<Option<Tensor<V>>>, PackError>)
    requires forall k :: 0 <= k < |items| ==> items[k].index < |into|
    ensures r == if items == [] || group.data == [] then Err(GroupMissing(g)) else CutAll(group, items, into)
    ensures r.Ok? ==> |r.value| == |into|
  {
    if items == [] || |group.data| == 0 {
      return Err(GroupMissing(g));
    }
    r := CutItems(group, items, into);
  }

  method ReconstructTensorsFromGroups<V>(groups: seq<Group<V>>, metas: seq<Meta>)
    returns (r: Result<seq<Option<Tensor<V>>>, PackError>)
    ensures r == UnpackOf(groups, metas)
  {
    if metas == [] {
      return Ok([]);
    }
    var max := FindMaxIndex(metas);
    MaxIndexBounds(metas);
    var byGroup := IndexByGroup(metas);
    r := UnpackAll(groups, byGroup, max + 1, metas);
  }

  method ItemsOf(byGroup: map<nat, seq<Meta>>, g: nat, ghost metas: seq<Meta>) returns (items: seq<Meta>)
    requires Indexed(byGroup, metas)
    ensures items == Filter(metas, InGroup(g))
  {
    items := if g in byGroup then byGroup[g] else [];
  }

  method UnpackAll<V>(groups: seq<Group<V>>, byGroup: map<nat, seq<Meta>>, slots: nat, ghost metas: seq<Meta>)
    returns (r: Result<seq<Option<Tensor<V>>>, PackError>)
    requires Indexed(byGroup, metas) && forall k :: 0 <= k < |metas| ==> metas[k].index < slots
    ensures r == UnpackTo(groups, metas, |groups|, slots)
  {
    var out: seq<Option<Tensor<V>>> := seq(slots, i => None);
    for g := 0 to |groups|
      invariant UnpackTo(groups, metas, g, slots) == Ok(out) && |out| == slots
    {
      var items := ItemsOf(byGroup, g, metas);
      ItemsInRange(metas, g, slots);
      var cut := UnpackGroup(groups[g], items, out, g);
      if cut.Err? {
        UnpackErrorStays(groups, metas, g + 1, slots);
        return Err(cut.error);
      }
      out := cut.value;
    }
    r := Ok(out);
  }

  // ----- what the groups hold

  /** A group is never empty, and without its last tensor it is within the limit. */
  predicate Fits<V>(tensors: seq<Tensor<V>>, group: seq<nat>, limit: nat, width: nat -> nat) {
    group != [] && Bytes(tensors, group[..|group| - 1], width) <= limit
  }

  /** All positions taken in so far. */
  function Taken(f: Filling): seq<nat> { Flatten(f.closed) + f.current }

  lemma {:induction false} FillFlat<V>(tensors: seq<Tensor<V>>, list: seq<nat>, limit: nat, width: nat -> nat)
    ensures Taken(FillAll(tensors, list, limit, width)) == list
  {
    if list != [] {
      var last := |list| - 1;
      var f := FillAll(tensors, list[..last], limit, width);
      FillFlat(tensors, list[..last], limit, width);
      FillAdds(tensors, f, list[last], limit, width);
      assert FillAll(tensors, list, limit, width) == Fill(f, tensors, list[last], limit, width);
    }
  }

  lemma FillAdds<V>(tensors: seq<Tensor<V>>, f: Filling, i: nat, limit: nat, width: nat -> nat)
    ensures Taken(Fill(f, tensors, i, limit, width)) == Taken(f) + [i]
  {
    ClosedFlat(f, i);
  }

  lemma ClosedFlat(f: Filling, i: nat)
    ensures Flatten(f.closed + [f.current + [i]]) == Flatten(f.closed) + f.current + [i]
  {
    assert (f.closed + [f.current + [i]])[..|f.closed|] == f.closed;
  }

  predicate FillingFits<V>(tensors: seq<Tensor<V>>, f: Filling, limit: nat, width: nat -> nat) {
    && (forall g :: 0 <= g < |f.closed| ==> Fits(tensors, f.closed[g], limit, width))
    && (f.current == [] || Bytes(tensors, f.current, width) <= limit)
  }

  lemma {:induction false} FillFits<V>(tensors: seq<Tensor<V>>, list: seq<nat>, limit: nat, width: nat -> nat)
    ensures FillingFits(tensors, FillAll(tensors, list, limit, width), limit, width)
  {
    if list != [] {
      var last := |list| - 1;
      FillFits(tensors, list[..last], limit, width);
      FillKeepsFit(tensors, FillAll(tensors, list[..last], limit, width), list[last], limit, width);
    }
  }

  lemma FillKeepsFit<V>(tensors: seq<Tensor<V>>, f: Filling, i: nat, limit: nat, width: nat -> nat)
    requires FillingFits(tensors, f, limit, width)
    ensures FillingFits(tensors, Fill(f, tensors, i, limit, width), limit, width)
  {
    var group := f.current + [i];
    assert group[..|group| - 1] == f.current;
    if f.current == [] {
      assert Bytes(tensors, f.current, width) == 0;
    }
    assert Fits(tensors, group, limit, width);
  }

  /** A key's groups put together are the key's tensors in order, and each keeps to the limit. */
  lemma CloseKeeps<V>(tensors: seq<Tensor<V>>, list: seq<nat>, limit: nat, width: nat -> nat)
    ensures var groups := Close(FillAll(tensors, list, limit, width));
            && Flatten(groups) == list
            && forall g :: 0 <= g < |groups| ==> Fits(tensors, groups[g], limit, width)
  {
    FillFlat(tensors, list, limit, width);
    FillFits(tensors, list, limit, width);
    var f := FillAll(tensors, list, limit, width);
    if f.current != [] {
      assert (f.closed + [f.current])[..|f.closed|] == f.closed;
      BytesShrink(tensors, f.current, width);
    }
  }

  lemma BytesShrink<V>(tensors: seq<Tensor<V>>, list: seq<nat>, width: nat -> nat)
    requires list != []
    ensures Bytes(tensors, list[..|list| - 1], width) <= Bytes(tensors, list, width)
  {
  }

  // ----- which groups there are

  /** The key's groups in turn: each over the limit with its last tensor, but the last one, and within it without. */
  predicate ClosedInTurn<V>(tensors: seq<Tensor<V>>, groups: seq<seq<nat>>, limit: nat, width: nat -> nat) {
    && (forall g :: 0 <= g < |groups| ==> Fits(tensors, groups[g], limit, width))
    && (forall g :: 0 <= g < |groups| - 1 ==> Bytes(tensors, groups[g], width) > limit)
  }

  predicate AllOver<V>(tensors: seq<Tensor<V>>, groups: seq<seq<nat>>, limit: nat, width: nat -> nat) {
    forall g :: 0 <= g < |groups| ==> Bytes(tensors, groups[g], width) > limit
  }

  lemma {:induction false} ClosedOver<V>(tensors: seq<Tensor<V>>, list: seq<nat>, limit: nat, width: nat -> nat)
    ensures AllOver(tensors, FillAll(tensors, list, limit, width).closed, limit, width)
  {
    if list != [] {
      ClosedOver(tensors, list[..|list| - 1], limit, width);
    }
  }

  lemma CloseFills<V>(tensors: seq<Tensor<V>>, list: seq<nat>, limit: nat, width: nat -> nat)
    ensures var groups := Close(FillAll(tensors, list, limit, width));
            Flatten(groups) == list && ClosedInTurn(tensors, groups, limit, width)
  {
    CloseKeeps(tensors, list, limit, width);
    ClosedOver(tensors, list, limit, width);
  }

  /** The ascending positions of the tensors with the key. */
  ghost predicate PositionsOf<V>(tensors: seq<Tensor<V>>, key: Key, list: seq<nat>) {
    && (forall k, l :: 0 <= k < l < |list| ==> list[k] < list[l])
    && (forall i: nat :: i in list <==> i < |tensors| && KeyOf(tensors[i]) == key)
  }

  lemma BucketPositions<V>(tensors: seq<Tensor<V>>, key: Key)
    ensures PositionsOf(tensors, key, Bucket(tensors, key))
  {
    FilterAscends(|tensors|, HasKey(tensors, key));
    forall i: nat ensures i in Bucket(tensors, key) <==> i < |tensors| && KeyOf(tensors[i]) == key {
      FilterIn<nat>(Indices(|tensors|), HasKey(tensors, key), i);
      assert i < |tensors| ==> Indices(|tensors|)[i] == i;
    }
  }

  /** The first tensor with the key. */
  ghost predicate FirstAt<V>(tensors: seq<Tensor<V>>, key: Key, i: nat) {
    i < |tensors| && KeyOf(tensors[i]) == key && forall j :: 0 <= j < i ==> KeyOf(tensors[j]) != key
  }

  /** The keys are listed in the order of their first tensors. */
  lemma {:induction false} KeysInOrder<V>(tensors: seq<Tensor<V>>, c: nat, d: nat, i: nat, j: nat)
    requires c < d < |KeysOf(tensors)|
    requires FirstAt(tensors, KeysOf(tensors)[c], i) && FirstAt(tensors, KeysOf(tensors)[d], j)
    ensures i < j
  {
    var n, keys := |tensors| - 1, KeysOf(tensors);
    var fewer, before := tensors[..n], KeysOf(tensors[..n]);
    assert before[c] == keys[c];
    KeysHave(fewer, keys[c]);
    var p :| 0 <= p < n && KeyOf(fewer[p]) == keys[c];
    assert i <= p;
    if d < |before| {
      KeysHave(fewer, keys[d]);
      var q :| 0 <= q < n && KeyOf(fewer[q]) == keys[d];
      assert j <= q;
      KeysInOrder(fewer, c, d, i, j);
    } else {
      KeysHave(fewer, keys[d]);
      assert keys[d] !in before;
      assert forall q :: 0 <= q < n ==> KeyOf(fewer[q]) != keys[d] && fewer[q] == tensors[q];
    }
  }

  /** The groups, key after key: each key's own tensors in order, a group closed as soon as it is over the limit. */
  lemma GroupsByKey<V>(tensors: seq<Tensor<V>>, limit: nat, width: nat -> nat) returns (parts: seq<seq<seq<nat>>>)
    ensures IndexGroups(tensors, limit, width) == Flatten(parts) && |parts| == |KeysOf(tensors)|
    ensures forall c :: 0 <= c < |parts| ==>
              && PositionsOf(tensors, KeysOf(tensors)[c], Flatten(parts[c]))
              && ClosedInTurn(tensors, parts[c], limit, width)
  {
    var keys := KeysOf(tensors);
    parts := KeyGroups(tensors, keys, limit, width);
    forall c | 0 <= c < |keys|
      ensures PositionsOf(tensors, keys[c], Flatten(parts[c])) && ClosedInTurn(tensors, parts[c], limit, width)
    {
      BucketPositions(tensors, keys[c]);
      CloseFills(tensors, Bucket(tensors, keys[c]), limit, width);
    }
  }

  /** Every group is non-empty, within the limit but for its last tensor, and of one key. */
  lemma GroupsWithinLimit<V>(tensors: seq<Tensor<V>>, limit: nat, width: nat -> nat, g: nat)
    requires g < |IndexGroups(tensors, limit, width)|
    ensures Fits(tensors, IndexGroups(tensors, limit, width)[g], limit, width)
    ensures OneKey(tensors, IndexGroups(tensors, limit, width)[g])
  {
    var keys := KeysOf(tensors);
    var parts, group := KeyGroups(tensors, keys, limit, width), IndexGroups(tensors, limit, width)[g];
    FlattenIn(parts, group);
    var c :| 0 <= c < |parts| && group in parts[c];
    CloseKeeps(tensors, Bucket(tensors, keys[c]), limit, width);
    BucketOneKey(tensors, keys[c], parts[c], group);
  }

  predicate WithinLimit<V>(tensors: seq<Tensor<V>>, groups: seq<seq<nat>>, limit: nat, width: nat -> nat) {
    forall g :: 0 <= g < |groups| ==> Bytes(tensors, groups[g], width) <= limit
  }

  /** A list within the limit stays one open group; a list over it closes a group that is over it. */
  lemma {:induction false} FillOverIff<V>(tensors: seq<Tensor<V>>, list: seq<nat>, limit: nat, width: nat -> nat)
    ensures var f := FillAll(tensors, list, limit, width);
            if Bytes(tensors, list, width) <= limit then f == Filling([], list)
            else !WithinLimit(tensors, f.closed, limit, width)
  {
    if list != [] {
      var last := |list| - 1;
      var before := FillAll(tensors, list[..last], limit, width);
      FillOverIff(tensors, list[..last], limit, width);
      BytesShrink(tensors, list, width);
      assert list == list[..last] + [list[last]];
      if Bytes(tensors, list[..last], width) <= limit {
        OneOver(tensors, [], list, limit, width);
      } else {
        OneOver(tensors, before.closed, before.current + [list[last]], limit, width);
      }
    }
  }

  lemma OneOver<V>(tensors: seq<Tensor<V>>, closed: seq<seq<nat>>, group: seq<nat>, limit: nat, width: nat -> nat)
    ensures WithinLimit(tensors, closed + [group], limit, width)
       <==> WithinLimit(tensors, closed, limit, width) && Bytes(tensors, group, width) <= limit
  {
    var groups := closed + [group];
    assert groups[|closed|] == group;
    assert forall g :: 0 <= g < |closed| ==> groups[g] == closed[g];
  }

  lemma CloseOverIff<V>(tensors: seq<Tensor<V>>, list: seq<nat>, limit: nat, width: nat -> nat)
    ensures WithinLimit(tensors, Close(FillAll(tensors, list, limit, width)), limit, width)
       <==> Bytes(tensors, list, width) <= limit
  {
    var f := FillAll(tensors, list, limit, width);
    FillOverIff(tensors, list, limit, width);
    OneOver(tensors, f.closed, f.current, limit, width);
  }

  lemma WithinFlatten<V>(tensors: seq<Tensor<V>>, parts: seq<seq<seq<nat>>>, limit: nat, width: nat -> nat)
    ensures WithinLimit(tensors, Flatten(parts), limit, width)
       <==> forall c :: 0 <= c < |parts| ==> WithinLimit(tensors, parts[c], limit, width)
  {
    var groups := Flatten(parts);
    forall c, g | 0 <= c < |parts| && 0 <= g < |parts[c]| ensures parts[c][g] in groups {
      FlattenIn(parts, parts[c][g]);
    }
    forall g | 0 <= g < |groups| ensures exists c :: 0 <= c < |parts| && groups[g] in parts[c] {
      FlattenIn(parts, groups[g]);
    }
  }

  /** The tensors of no key are over the limit together. */
  predicate KeysWithinLimit<V>(tensors: seq<Tensor<V>>, keys: seq<Key>, limit: nat, width: nat -> nat) {
    forall c :: 0 <= c < |keys| ==> Bytes(tensors, Bucket(tensors, keys[c]), width) <= limit
  }

  lemma PartsWithinIff<V>(tensors: seq<Tensor<V>>, keys: seq<Key>, parts: seq<seq<seq<nat>>>, limit: nat,
                          width: nat -> nat)
    requires parts == KeyGroups(tensors, keys, limit, width)
    ensures (forall c :: 0 <= c < |parts| ==> WithinLimit(tensors, parts[c], limit, width))
       <==> KeysWithinLimit(tensors, keys, limit, width)
  {
    forall c | 0 <= c < |keys|
      ensures WithinLimit(tensors, parts[c], limit, width) <==> Bytes(tensors, Bucket(tensors, keys[c]), width) <= limit
    {
      CloseOverIff(tensors, Bucket(tensors, keys[c]), limit, width);
    }
  }

  /** Whole groups keep to the limit if and only if the tensors of every key do all together. */
  lemma WholeGroupsFitIff<V>(tensors: seq<Tensor<V>>, limit: nat, width: nat -> nat)
    ensures WithinLimit(tensors, IndexGroups(tensors, limit, width), limit, width)
       <==> KeysWithinLimit(tensors, KeysOf(tensors), limit, width)
  {
    var parts := KeyGroups(tensors, KeysOf(tensors), limit, width);
    WithinFlatten(tensors, parts, limit, width);
    PartsWithinIff(tensors, KeysOf(tensors), parts, limit, width);
  }

  lemma OneKeyOfTwo<V>(tensors: seq<Tensor<V>>, key: Key)
    requires |tensors| == 2 && KeyOf(tensors[0]) == KeyOf(tensors[1]) == key
    ensures KeysOf(tensors) == [key] && Bucket(tensors, key) == [0, 1]
  {
    assert tensors[..1][..0] == [];
    assert KeysOf(tensors[..1]) == [key];
    assert Indices(2)[..1] == Indices(1) && Indices(1)[..0] == [];
  }

  lemma FillTwo<V>(tensors: seq<Tensor<V>>, width: nat -> nat)
    requires |tensors| == 2 && SizeOf(tensors[0], width) == SizeOf(tensors[1], width) == 1
    ensures Bytes(tensors, [0, 1], width) == 2 && FillAll(tensors, [0, 1], 1, width) == Filling([[0, 1]], [])
  {
    assert [0, 1][..1] == [0] && [0][..0] == [];
    assert Bytes(tensors, [0], width) == 1;
    assert [] + [0] == [0] && [0] + [1] == [0, 1];
    assert FillAll(tensors, [0], 1, width) == Filling([], [0]);
  }

  /** Two tensors of one byte under a limit of one byte are put into one group of two. */
  lemma GroupOverLimit<V>(x: V, y: V, width: nat -> nat)
    requires width(0) == 1
    ensures var tensors := [Tensor([1], 0, [x]), Tensor([1], 0, [y])];
            IndexGroups(tensors, 1, width) == [[0, 1]] && Bytes(tensors, [0, 1], width) == 2
  {
    var tensors := [Tensor([1], 0, [x]), Tensor([1], 0, [y])];
    OneKeyOfTwo(tensors, ([1], 0));
    FillTwo(tensors, width);
    var parts := KeyGroups(tensors, [([1], 0)], 1, width);
    assert parts == [[[0, 1]]] && parts[..0] == [];
    assert Flatten(parts) == Flatten(parts[..0]) + parts[0];
  }

  /** Positions in range, all with the same shape and dtype. */
  predicate OneKey<V>(tensors: seq<Tensor<V>>, group: seq<nat>) {
    InRange(group, |tensors|) && forall j, k :: 0 <= j < |group| && 0 <= k < |group| ==>
        KeyOf(tensors[group[j]]) == KeyOf(tensors[group[k]])
  }

  lemma BucketOneKey<V>(tensors: seq<Tensor<V>>, key: Key, groups: seq<seq<nat>>, group: seq<nat>)
    requires Flatten(groups) == Bucket(tensors, key) && group in groups
    ensures OneKey(tensors, group)
  {
    forall k | 0 <= k < |group| ensures HasKey(tensors, key)(group[k]) {
      FlattenIn(groups, group[k]);
      FilterIn<nat>(Indices(|tensors|), HasKey(tensors, key), group[k]);
    }
  }

  /** Every tensor is in some group. */
  lemma EveryTensorGrouped<V>(tensors: seq<Tensor<V>>, limit: nat, width: nat -> nat, i: nat)
    requires i < |tensors|
    ensures i in Flatten(IndexGroups(tensors, limit, width))
  {
    var keys, key := KeysOf(tensors), KeyOf(tensors[i]);
    var parts := KeyGroups(tensors, keys, limit, width);
    KeysHave(tensors, key);
    var c :| 0 <= c < |keys| && keys[c] == key;
    assert Indices(|tensors|)[i] == i;
    FilterIn<nat>(Indices(|tensors|), HasKey(tensors, key), i);
    CloseKeeps(tensors, Bucket(tensors, key), limit, width);
    InNested(parts, c, i);
  }

  lemma InNested(parts: seq<seq<seq<nat>>>, c: nat, i: nat)
    requires c < |parts| && i in Flatten(parts[c])
    ensures i in Flatten(Flatten(parts))
  {
    FlattenIn(parts[c], i);
    var g :| 0 <= g < |parts[c]| && i in parts[c][g];
    FlattenIn(parts, parts[c][g]);
    var h :| 0 <= h < |Flatten(parts)| && Flatten(parts)[h] == parts[c][g];
    FlattenIn(Flatten(parts), i);
  }

  // ----- the round trip

  /** The metadata of one group, item by item. */
  lemma {:induction false} MetasAt<V>(tensors: seq<Tensor<V>>, list: seq<nat>, group: nat, n: nat, k: nat)
    requires k < n <= |list| && InRange(list, |tensors|)
    ensures |MetasTo(tensors, list, group, n)| == n
    ensures var t := tensors[list[k]];
            MetasTo(tensors, list, group, n)[k]
            == Meta(list[k], t.shape, t.dtype, group, |Flatten(DataOf(tensors, list[..k]))|, |t.data|)
  {
    if n > 1 {
      MetasAt(tensors, list, group, n - 1, if k < n - 1 then k else 0);
    }
  }

  /** A member's elements lie in its group where its metadata says. */
  lemma MemberAt<V>(tensors: seq<Tensor<V>>, list: seq<nat>, k: nat)
    requires k < |list| && InRange(list, |tensors|)
    ensures var data, own := Flatten(DataOf(tensors, list)), tensors[list[k]].data;
            var offset := |Flatten(DataOf(tensors, list[..k]))|;
            offset + |own| <= |data| && data[offset..offset + |own|] == own
  {
    var parts := DataOf(tensors, list);
    FlattenSplit(parts, k);
    assert parts[..k] == DataOf(tensors, list[..k]);
    Middle(Flatten(parts), Flatten(parts[..k]), parts[k], Flatten(parts[k + 1..]));
  }

  /** Cutting a member out of its packed group gives the member. */
  lemma CutsBack<V>(tensors: seq<Tensor<V>>, list: seq<nat>, group: nat, k: nat)
    requires k < |list| && OneKey(tensors, list) && Valid(tensors[list[k]])
    ensures |MetasTo(tensors, list, group, |list|)| == |list|
    ensures CutOut(Packed(tensors, list), MetasTo(tensors, list, group, |list|)[k]) == Ok(tensors[list[k]])
    ensures MetasTo(tensors, list, group, |list|)[k].index == list[k]
  {
    MetasAt(tensors, list, group, |list|, k);
    MemberAt(tensors, list, k);
    assert KeyOf(tensors[list[0]]) == KeyOf(tensors[list[k]]);
  }

  /** Slots of the tensors listed hold them; the others are as before. */
  predicate Filled<V(==)>(tensors: seq<Tensor<V>>, list: seq<nat>, before: seq<Option<Tensor<V>>>,
                          after: seq<Option<Tensor<V>>>)
  {
    && |before| == |after| == |tensors|
    && forall i :: 0 <= i < |tensors| ==> after[i] == if i in list then Some(tensors[i]) else before[i]
  }

  lemma {:induction false} CutsInto<V>(tensors: seq<Tensor<V>>, group: Group<V>, items: seq<Meta>, list: seq<nat>,
                                       into: seq<Option<Tensor<V>>>)
    requires |items| == |list| && |into| == |tensors| && InRange(list, |tensors|)
    requires forall k :: 0 <= k < |items| ==>
               items[k].index == list[k] && CutOut(group, items[k]) == Ok(tensors[list[k]])
    ensures CutAll(group, items, into).Ok? && Filled(tensors, list, into, CutAll(group, items, into).value)
  {
    if items != [] {
      var last := |items| - 1;
      CutsInto(tensors, group, items[..last], list[..last], into);
      assert list == list[..last] + [list[last]];
      assert CutOut(group, items[last]) == Ok(tensors[list[last]]);
    }
  }

  lemma GroupCutsBack<V>(tensors: seq<Tensor<V>>, list: seq<nat>, group: nat, into: seq<Option<Tensor<V>>>)
    requires OneKey(tensors, list) && |into| == |tensors| && forall i :: 0 <= i < |tensors| ==> Valid(tensors[i])
    ensures var items := MetasTo(tensors, list, group, |list|);
            && (forall k :: 0 <= k < |items| ==> items[k].index < |into|)
            && CutAll(Packed(tensors, list), items, into).Ok?
            && Filled(tensors, list, into, CutAll(Packed(tensors, list), items, into).value)
  {
    var items := MetasTo(tensors, list, group, |list|);
    MetasGroup(tensors, list, group, |list|);
    forall k | 0 <= k < |list|
      ensures items[k].index == list[k] && CutOut(Packed(tensors, list), items[k]) == Ok(tensors[list[k]])
    {
      CutsBack(tensors, list, group, k);
    }
    CutsInto(tensors, Packed(tensors, list), items, list, into);
  }

  lemma {:induction false} MetasGroup<V>(tensors: seq<Tensor<V>>, list: seq<nat>, group: nat, n: nat)
    requires n <= |list|
    ensures |MetasTo(tensors, list, group, n)| == n
    ensures forall m :: m in MetasTo(tensors, list, group, n) ==> m.group == group && m.index in list
  {
    if n > 0 {
      MetasGroup(tensors, list, group, n - 1);
    }
  }

  /** The items of a group are exactly the metadata recorded for it. */
  lemma GroupItems<V>(tensors: seq<Tensor<V>>, groups: seq<seq<nat>>, g: nat)
    requires g < |groups|
    ensures Filter(MetasFrom(tensors, groups, 0), InGroup(g)) == MetasTo(tensors, groups[g], g, |groups[g]|)
  {
    var parts := MetaParts(tensors, groups, 0);
    var kept := seq(|parts|, c requires 0 <= c < |parts| => if c == g then parts[c] else []);
    forall c | 0 <= c < |parts| ensures kept[c] == Filter(parts[c], InGroup(g)) {
      MetasGroup(tensors, groups[c], c, |groups[c]|);
      if c == g {
        FilterAll(parts[c], InGroup(g));
      } else {
        FilterNone(parts[c], InGroup(g));
      }
    }
    FilterFlatten(parts, InGroup(g), kept);
    OnlyPart(kept, g);
  }

  lemma {:induction false} OnlyPart(kept: seq<seq<Meta>>, g: nat)
    requires g < |kept| && forall c :: 0 <= c < |kept| && c != g ==> kept[c] == []
    ensures Flatten(kept) == kept[g]
  {
    if g == |kept| - 1 {
      NoParts(kept[..g]);
    } else {
      OnlyPart(kept[..|kept| - 1], g);
    }
  }

  lemma {:induction false} NoParts(kept: seq<seq<Meta>>)
    requires forall c :: 0 <= c < |kept| ==> kept[c] == []
    ensures Flatten(kept) == []
  {
    if kept != [] {
      NoParts(kept[..|kept| - 1]);
    }
  }

  /** After n groups, the slots of their tensors are filled. */
  lemma {:induction false} UnpacksTo<V>(tensors: seq<Tensor<V>>, groups: seq<seq<nat>>, n: nat)
    requires n <= |groups| && forall i :: 0 <= i < |tensors| ==> Valid(tensors[i])
    requires forall g :: 0 <= g < |groups| ==>
               OneKey(tensors, groups[g]) && groups[g] != [] && Packed(tensors, groups[g]).data != []
    requires forall k :: 0 <= k < |MetasFrom(tensors, groups, 0)| ==> MetasFrom(tensors, groups, 0)[k].index < |tensors|
    ensures var r := UnpackTo(PackedGroups(tensors, groups), MetasFrom(tensors, groups, 0), n, |tensors|);
            r.Ok? && Filled(tensors, Flatten(groups[..n]), seq(|tensors|, i => None), r.value)
  {
    if n > 0 {
      var g, metas := n - 1, MetasFrom(tensors, groups, 0);
      UnpacksTo(tensors, groups, g);
      var out := UnpackTo(PackedGroups(tensors, groups), metas, g, |tensors|).value;
      GroupItems(tensors, groups, g);
      GroupCutsBack(tensors, groups[g], g, out);
      MetasGroup(tensors, groups[g], g, |groups[g]|);
      FlattenPrefix(groups, g);
    }
  }

  /** A group with no element stops the unpacking. */
  lemma EmptyGroupStops<V>(tensors: seq<Tensor<V>>, groups: seq<seq<nat>>, g: nat)
    requires g < |groups| && Packed(tensors, groups[g]).data == []
    requires forall k :: 0 <= k < |MetasFrom(tensors, groups, 0)| ==> MetasFrom(tensors, groups, 0)[k].index < |tensors|
    ensures UnpackTo(PackedGroups(tensors, groups), MetasFrom(tensors, groups, 0), |groups|, |tensors|).Err?
  {
    StopsAt(PackedGroups(tensors, groups), MetasFrom(tensors, groups, 0), g, |tensors|);
    UnpackErrorStays(PackedGroups(tensors, groups), MetasFrom(tensors, groups, 0), g + 1, |tensors|);
  }

  lemma StopsAt<V>(groups: seq<Group<V>>, metas: seq<Meta>, g: nat, slots: nat)
    requires g < |groups| && groups[g].data == [] && forall k :: 0 <= k < |metas| ==> metas[k].index < slots
    ensures UnpackTo(groups, metas, g + 1, slots).Err?
  {
  }

  /** The metadata covers exactly the tensors of the groups. */
  lemma MetasCover<V>(tensors: seq<Tensor<V>>, groups: seq<seq<nat>>, i: nat)
    ensures i in Flatten(groups)
            <==> exists k :: 0 <= k < |MetasFrom(tensors, groups, 0)| && MetasFrom(tensors, groups, 0)[k].index == i
  {
    var parts, metas := MetaParts(tensors, groups, 0), MetasFrom(tensors, groups, 0);
    if i in Flatten(groups) {
      FlattenIn(groups, i);
      var g :| 0 <= g < |groups| && i in groups[g];
      var m := MetaOfMember(tensors, groups[g], g, |groups[g]|, i);
      FlattenIn(parts, m);
      assert m in parts[g];
    }
    if k :| 0 <= k < |metas| && metas[k].index == i {
      FlattenIn(parts, metas[k]);
      var g :| 0 <= g < |parts| && metas[k] in parts[g];
      MetasGroup(tensors, groups[g], g, |groups[g]|);
      FlattenIn(groups, i);
    }
  }

  lemma {:induction false} MetaOfMember<V>(tensors: seq<Tensor<V>>, list: seq<nat>, group: nat, n: nat, i: nat)
    returns (m: Meta)
    requires n <= |list| && i in list[..n]
    ensures m in MetasTo(tensors, list, group, n) && m.index == i
  {
    if i in list[..n - 1] {
      m := MetaOfMember(tensors, list, group, n - 1, i);
    } else {
      assert list[..n] == list[..n - 1] + [list[n - 1]];
      m := MetasTo(tensors, list, group, n)[|MetasTo(tensors, list, group, n)| - 1];
    }
  }

  // ----- the main results

  /** A tensor is empty exactly when the group it is in is. */
  lemma GroupEmptyIff<V>(tensors: seq<Tensor<V>>, list: seq<nat>, k: nat)
    requires OneKey(tensors, list) && k < |list| && forall i :: 0 <= i < |tensors| ==> Valid(tensors[i])
    ensures Packed(tensors, list).data == [] <==> tensors[list[k]].data == []
  {
    forall j | 0 <= j < |list| ensures |DataOf(tensors, list)[j]| == Product(tensors[list[k]].shape) {
      assert KeyOf(tensors[list[j]]) == KeyOf(tensors[list[k]]) && Valid(tensors[list[j]]) && Valid(tensors[list[k]]);
    }
    UniformLength(DataOf(tensors, list), Product(tensors[list[k]].shape));
    ProductIsZero(|list|, Product(tensors[list[k]].shape));
    assert Valid(tensors[list[k]]);
  }

  lemma ProductIsZero(n: nat, m: nat)
    requires n > 0
    ensures n * m == 0 <==> m == 0
  {}

  lemma MetasInRange<V>(tensors: seq<Tensor<V>>, limit: nat, width: nat -> nat)
    ensures forall k :: 0 <= k < |MetasFrom(tensors, IndexGroups(tensors, limit, width), 0)| ==>
              MetasFrom(tensors, IndexGroups(tensors, limit, width), 0)[k].index < |tensors|
  {
    var groups := IndexGroups(tensors, limit, width);
    var metas := MetasFrom(tensors, groups, 0);
    forall k | 0 <= k < |metas| ensures metas[k].index < |tensors| {
      MetasCover(tensors, groups, metas[k].index);
      FlattenIn(groups, metas[k].index);
      var g :| 0 <= g < |groups| && metas[k].index in groups[g];
      GroupsWithinLimit(tensors, limit, width, g);
    }
  }

  /** The metadata's largest position is the last tensor's. */
  lemma SlotsAreTensors<V>(tensors: seq<Tensor<V>>, limit: nat, width: nat -> nat)
    requires tensors != []
    ensures var metas := MetasFrom(tensors, IndexGroups(tensors, limit, width), 0);
            metas != [] && MaxIndex(metas) + 1 == |tensors|
  {
    var groups, last := IndexGroups(tensors, limit, width), |tensors| - 1;
    var metas := MetasFrom(tensors, groups, 0);
    EveryTensorGrouped(tensors, limit, width, last);
    MetasCover(tensors, groups, last);
    MaxIndexBounds(metas);
    MetasInRange(tensors, limit, width);
  }

  ghost predicate AllValid<V>(tensors: seq<Tensor<V>>) {
    NoScalars(tensors) && forall i :: 0 <= i < |tensors| ==> Valid(tensors[i])
  }

  function Whole<V>(tensors: seq<Tensor<V>>): seq<Option<Tensor<V>>> {
    seq(|tensors|, i requires 0 <= i < |tensors| => Some(tensors[i]))
  }

  lemma NothingComesBack<V>(tensors: seq<Tensor<V>>, limit: nat, width: nat -> nat)
    requires tensors == []
    ensures var groups := IndexGroups(tensors, limit, width);
            UnpackOf(PackedGroups(tensors, groups), MetasFrom(tensors, groups, 0)) == Ok(Whole(tensors))
  {
    var groups := IndexGroups(tensors, limit, width);
    assert KeyGroups(tensors, KeysOf(tensors), limit, width) == [];
    assert MetaParts(tensors, groups, 0) == [];
    assert Whole(tensors) == [];
  }

  /** The groups of non-empty tensors are all there is to unpack. */
  lemma GroupsUnpack<V>(tensors: seq<Tensor<V>>, limit: nat, width: nat -> nat, g: nat)
    requires AllValid(tensors) && forall i :: 0 <= i < |tensors| ==> tensors[i].data != []
    requires g < |IndexGroups(tensors, limit, width)|
    ensures var group := IndexGroups(tensors, limit, width)[g];
            OneKey(tensors, group) && group != [] && Packed(tensors, group).data != []
  {
    var group := IndexGroups(tensors, limit, width)[g];
    GroupsWithinLimit(tensors, limit, width, g);
    GroupEmptyIff(tensors, group, 0);
  }

  lemma FilledIsWhole<V>(tensors: seq<Tensor<V>>, list: seq<nat>, before: seq<Option<Tensor<V>>>,
                         after: seq<Option<Tensor<V>>>)
    requires Filled(tensors, list, before, after) && forall i: nat :: i < |tensors| ==> i in list
    ensures after == Whole(tensors)
  {
  }

  lemma NonEmptyComesBack<V>(tensors: seq<Tensor<V>>, limit: nat, width: nat -> nat)
    requires tensors != [] && AllValid(tensors) && forall i :: 0 <= i < |tensors| ==> tensors[i].data != []
    ensures var groups := IndexGroups(tensors, limit, width);
            UnpackOf(PackedGroups(tensors, groups), MetasFrom(tensors, groups, 0)) == Ok(Whole(tensors))
  {
    var groups := IndexGroups(tensors, limit, width);
    SlotsAreTensors(tensors, limit, width);
    MetasInRange(tensors, limit, width);
    forall g | 0 <= g < |groups|
      ensures OneKey(tensors, groups[g]) && groups[g] != [] && Packed(tensors, groups[g]).data != []
    {
      GroupsUnpack(tensors, limit, width, g);
    }
    UnpacksTo(tensors, groups, |groups|);
    assert groups[..|groups|] == groups;
    forall i: nat | i < |tensors| ensures i in Flatten(groups) {
      EveryTensorGrouped(tensors, limit, width, i);
    }
    var out := UnpackTo(PackedGroups(tensors, groups), MetasFrom(tensors, groups, 0), |groups|, |tensors|).value;
    FilledIsWhole(tensors, Flatten(groups), seq(|tensors|, i => None), out);
  }

  lemma EmptyStops<V>(tensors: seq<Tensor<V>>, limit: nat, width: nat -> nat, i: nat)
    requires i < |tensors| && AllValid(tensors) && tensors[i].data == []
    ensures var groups := IndexGroups(tensors, limit, width);
            UnpackOf(PackedGroups(tensors, groups), MetasFrom(tensors, groups, 0)).Err?
  {
    var groups := IndexGroups(tensors, limit, width);
    SlotsAreTensors(tensors, limit, width);
    MetasInRange(tensors, limit, width);
    EveryTensorGrouped(tensors, limit, width, i);
    FlattenIn(groups, i);
    var g :| 0 <= g < |groups| && i in groups[g];
    GroupsWithinLimit(tensors, limit, width, g);
    var k :| 0 <= k < |groups[g]| && groups[g][k] == i;
    GroupEmptyIff(tensors, groups[g], k);
    EmptyGroupStops(tensors, groups, g);
  }

  /** Packing and unpacking gives the tensors back, in order, if and only if none of them is empty. */
  lemma RoundTripIffNonEmpty<V>(tensors: seq<Tensor<V>>, limit: nat, width: nat -> nat)
    requires AllValid(tensors)
    ensures PackOf(tensors, limit, width).Ok?
    ensures var packed := PackOf(tensors, limit, width).value;
            UnpackOf(packed.0, packed.1) == Ok(Whole(tensors))
            <==> forall i :: 0 <= i < |tensors| ==> tensors[i].data != []
  {
    if tensors == [] {
      NothingComesBack(tensors, limit, width);
    } else if i :| 0 <= i < |tensors| && tensors[i].data == [] {
      EmptyStops(tensors, limit, width, i);
    } else {
      NonEmptyComesBack(tensors, limit, width);
    }
  }
}
