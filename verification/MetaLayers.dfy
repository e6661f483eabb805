/**
 The same numbering from observed metadata (awex/meta/train_meta_resolver.py): the layer
 ids seen per stage are numbered in virtual-stage-major order, and the parameters' names
 are rewritten in place. It agrees with the configuration wherever the sizes agree.
 */
module MetaLayers {
  import opened Wrappers
  import opened Seqs
  import opened PipelineLayers

  /** What a parameter's name and record say: the local layer id, if the name has one, and the virtual stage. */
  datatype ParamName = ParamName(layer: Option<nat>, vp: nat)

  datatype RankView = RankView(ppRank: nat, ppSize: nat, params: seq<ParamName>)

  /** Pipeline rank and virtual stage. */
  type Stage = (nat, nat)

  // ----- the ids seen in each stage

  function ParamIds(params: seq<ParamName>, v: nat): set<nat> {
    if params == [] then {} else
      var last := params[|params| - 1];
      ParamIds(params[..|params| - 1], v) + (if last.layer.Some? && last.vp == v then {last.layer.value} else {})
  }

  function LocalIds(views: seq<RankView>, stage: Stage): set<nat> {
    if views == [] then {} else
      var last := views[|views| - 1];
      LocalIds(views[..|views| - 1], stage) + (if last.ppRank == stage.0 then ParamIds(last.params, stage.1) else {})
  }

  function Entry(ids: map<Stage, set<nat>>, stage: Stage): set<nat> { if stage in ids then ids[stage] else {} }

  /** The dictionary holds the ids of the ranks seen, and stages with an id only. */
  ghost predicate Collected(ids: map<Stage, set<nat>>, views: seq<RankView>) {
    forall stage: Stage ::
      Entry(ids, stage) == LocalIds(views, stage) && (stage in ids <==> LocalIds(views, stage) != {})
  }

  /** The ids of a stage after the first k parameters of one more rank. */
  function WithParams(before: map<Stage, set<nat>>, view: RankView, k: nat, stage: Stage): set<nat>
    requires k <= |view.params|
  {
    Entry(before, stage) + (if stage.0 == view.ppRank then ParamIds(view.params[..k], stage.1) else {})
  }

  ghost predicate RankCollected(ids: map<Stage, set<nat>>, before: map<Stage, set<nat>>, view: RankView, k: nat) {
    && k <= |view.params|
    && forall stage: Stage ::
         Entry(ids, stage) == WithParams(before, view, k, stage) && (stage in ids <==> Entry(ids, stage) != {})
  }

  lemma ParamStep(ids: map<Stage, set<nat>>, before: map<Stage, set<nat>>, view: RankView, k: nat)
    requires k < |view.params| && RankCollected(ids, before, view, k)
    ensures var param := view.params[k];
            var key := (view.ppRank, param.vp);
            RankCollected(if param.layer.Some? then ids[key := Entry(ids, key) + {param.layer.value}] else ids,
                          before, view, k + 1)
  {
    var param := view.params[k];
    var key := (view.ppRank, param.vp);
    var after := if param.layer.Some? then ids[key := Entry(ids, key) + {param.layer.value}] else ids;
    assert view.params[..k + 1][..k] == view.params[..k];
    forall stage: Stage
      ensures Entry(after, stage) == WithParams(before, view, k + 1, stage) &&
              (stage in after <==> Entry(after, stage) != {})
    {
      assert Entry(ids, stage) == WithParams(before, view, k, stage);
    }
  }

  method CollectRank(before: map<Stage, set<nat>>, ghost views: seq<RankView>, view: RankView)
    returns (ids: map<Stage, set<nat>>)
    requires Collected(before, views)
    ensures Collected(ids, views + [view])
  {
    ids := before;
    for k := 0 to |view.params|
      invariant RankCollected(ids, before, view, k)
    {
      ParamStep(ids, before, view, k);
      var param := view.params[k];
      if param.layer.Some? {
        var key := (view.ppRank, param.vp);
        ids := ids[key := Entry(ids, key) + {param.layer.value}];
      }
    }
    RankDone(ids, before, views, view);
  }

  lemma RankDone(ids: map<Stage, set<nat>>, before: map<Stage, set<nat>>, views: seq<RankView>, view: RankView)
    requires Collected(before, views) && RankCollected(ids, before, view, |view.params|)
    ensures Collected(ids, views + [view])
  {
    assert view.params[..|view.params|] == view.params;
    assert (views + [view])[..|views|] == views;
    forall stage: Stage
      ensures Entry(ids, stage) == LocalIds(views + [view], stage) &&
              (stage in ids <==> LocalIds(views + [view], stage) != {})
    {
      assert Entry(ids, stage) == WithParams(before, view, |view.params|, stage);
    }
  }

  method CollectLocalIds(views: seq<RankView>) returns (ids: map<Stage, set<nat>>)
    ensures Collected(ids, views)
  {
    ids := map[];
    for r := 0 to |views|
      invariant Collected(ids, views[..r])
    {
      ids := CollectRank(ids, views[..r], views[r]);
      assert views[..r] + [views[r]] == views[..r + 1];
    }
    assert views[..|views|] == views;
  }

  // ----- numbering them

  /** The members of a sorted list numbered from base on. */
  function Numbering(list: seq<nat>, base: nat): map<nat, nat> {
    if list == [] then map[] else Numbering(list[..|list| - 1], base)[list[|list| - 1] := base + |list| - 1]
  }

  lemma {:induction false} NumberingAt(list: seq<nat>, base: nat, i: nat)
    requires i < |list| && forall j, k :: 0 <= j < k < |list| ==> list[j] < list[k]
    ensures list[i] in Numbering(list, base) && Numbering(list, base)[list[i]] == base + i
  {
    if i < |list| - 1 {
      NumberingAt(list[..|list| - 1], base, i);
    }
  }

  lemma {:induction false} NumberingKeys(list: seq<nat>, base: nat)
    ensures forall k :: k in Numbering(list, base) <==> k in list
  {
    if list != [] {
      NumberingKeys(list[..|list| - 1], base);
      assert list == list[..|list| - 1] + [list[|list| - 1]];
    }
  }

  /** How many ids each stage has. */
  function Sizes(ids: map<Stage, set<nat>>): (nat, nat) -> nat { (p: nat, v: nat) => |Entry(ids, (p, v))| }

  function VpStages(ids: map<Stage, set<nat>>): set<nat> { set stage | stage in ids :: stage.1 }

  function NumberSet(s: set<nat>, base: nat): map<nat, nat> { Numbering(SortedKeys(s), base) }

  function StageNumbering(ids: map<Stage, set<nat>>, ranks: nat, p: nat, v: nat): map<nat, nat> {
    NumberSet(Entry(ids, (p, v)), StartOf(Sizes(ids), ranks, v, p))
  }

  /** The stages of one virtual stage on the first p ranks, and of the first i virtual stages on all ranks. */
  function RowMap(ids: map<Stage, set<nat>>, ranks: nat, v: nat, p: nat): map<Stage, map<nat, nat>> {
    if p == 0 then map[]
    else if (p - 1, v) in ids then RowMap(ids, ranks, v, p - 1)[(p - 1, v) := StageNumbering(ids, ranks, p - 1, v)]
    else RowMap(ids, ranks, v, p - 1)
  }

  function RowsMap(ids: map<Stage, set<nat>>, ranks: nat, vps: seq<nat>): map<Stage, map<nat, nat>> {
    if vps == [] then map[]
    else RowsMap(ids, ranks, vps[..|vps| - 1]) + RowMap(ids, ranks, vps[|vps| - 1], ranks)
  }

  /** The map the source builds. */
  function StageMap(ids: map<Stage, set<nat>>, ranks: nat): map<Stage, map<nat, nat>> {
    RowsMap(ids, ranks, SortedKeys(VpStages(ids)))
  }

  lemma {:induction false} RowHas(ids: map<Stage, set<nat>>, ranks: nat, v: nat, p: nat, stage: Stage)
    ensures stage in RowMap(ids, ranks, v, p) <==> stage in ids && stage.0 < p && stage.1 == v
    ensures stage in RowMap(ids, ranks, v, p) ==>
              RowMap(ids, ranks, v, p)[stage] == StageNumbering(ids, ranks, stage.0, stage.1)
  {
    if p > 0 {
      RowHas(ids, ranks, v, p - 1, stage);
    }
  }

  lemma {:induction false} RowsHave(ids: map<Stage, set<nat>>, ranks: nat, vps: seq<nat>, stage: Stage)
    ensures stage in RowsMap(ids, ranks, vps) <==> stage in ids && stage.0 < ranks && stage.1 in vps
    ensures stage in RowsMap(ids, ranks, vps) ==>
              RowsMap(ids, ranks, vps)[stage] == StageNumbering(ids, ranks, stage.0, stage.1)
  {
    if vps != [] {
      RowsHave(ids, ranks, vps[..|vps| - 1], stage);
      RowHas(ids, ranks, vps[|vps| - 1], ranks, stage);
      assert vps == vps[..|vps| - 1] + [vps[|vps| - 1]];
    }
  }

  lemma StageMapHas(ids: map<Stage, set<nat>>, ranks: nat, stage: Stage)
    ensures stage in StageMap(ids, ranks) <==> stage in ids && stage.0 < ranks
    ensures stage in StageMap(ids, ranks) ==>
              StageMap(ids, ranks)[stage] == StageNumbering(ids, ranks, stage.0, stage.1)
  {
    SortedKeysProperties(VpStages(ids));
    RowsHave(ids, ranks, SortedKeys(VpStages(ids)), stage);
  }

  // ----- the running total skips virtual stages nobody has

  lemma VpOfStage(ids: map<Stage, set<nat>>, stage: Stage)
    ensures stage in ids ==> stage.1 in VpStages(ids)
  {
  }

  lemma {:induction false} EmptyRow(ids: map<Stage, set<nat>>, v: nat, p: nat)
    requires v !in VpStages(ids)
    ensures RowTo(Sizes(ids), v, p) == 0
  {
    if p > 0 {
      EmptyRow(ids, v, p - 1);
      VpOfStage(ids, (p - 1, v));
    }
  }

  lemma {:induction false} SkipRows(count: (nat, nat) -> nat, ranks: nat, a: nat, b: nat)
    requires a <= b && forall v :: a <= v < b ==> RowTo(count, v, ranks) == 0
    ensures RowsTo(count, ranks, a) == RowsTo(count, ranks, b)
  {
    if a < b {
      SkipRows(count, ranks, a, b - 1);
    }
  }

  /** Nothing is counted between one listed virtual stage and the next. */
  ghost predicate Skippable(count: (nat, nat) -> nat, ranks: nat, vps: seq<nat>) {
    forall i :: 0 <= i < |vps| ==>
        RowsTo(count, ranks, vps[i]) == RowsTo(count, ranks, if i == 0 then 0 else vps[i - 1] + 1)
  }

  lemma NextStage(count: (nat, nat) -> nat, ranks: nat, vps: seq<nat>)
    requires forall j, k :: 0 <= j < k < |vps| ==> vps[j] < vps[k]
    requires forall v: nat :: v !in vps ==> RowTo(count, v, ranks) == 0
    ensures Skippable(count, ranks, vps)
  {
    forall i | 0 <= i < |vps|
      ensures RowsTo(count, ranks, vps[i]) == RowsTo(count, ranks, if i == 0 then 0 else vps[i - 1] + 1)
    {
      var from := if i == 0 then 0 else vps[i - 1] + 1;
      forall v | from <= v < vps[i] ensures RowTo(count, v, ranks) == 0 {
        NotBetween(vps, i, v);
      }
      SkipRows(count, ranks, from, vps[i]);
    }
  }

  lemma NotBetween(list: seq<nat>, i: nat, v: nat)
    requires i < |list| && forall j, k :: 0 <= j < k < |list| ==> list[j] < list[k]
    requires v < list[i] && (i > 0 ==> list[i - 1] < v)
    ensures v !in list
  {
    forall j | 0 <= j < |list| ensures list[j] != v {
    }
  }

  lemma AllSkippable(ids: map<Stage, set<nat>>, ranks: nat)
    ensures Skippable(Sizes(ids), ranks, SortedKeys(VpStages(ids)))
  {
    SortedKeysProperties(VpStages(ids));
    forall v: nat | v !in VpStages(ids) ensures RowTo(Sizes(ids), v, ranks) == 0 {
      EmptyRow(ids, v, ranks);
    }
    NextStage(Sizes(ids), ranks, SortedKeys(VpStages(ids)));
  }

  method NumberRow(ids: map<Stage, set<nat>>, ranks: nat, v: nat, start: nat)
    returns (row: map<Stage, map<nat, nat>>, end: nat)
    requires start == RowsTo(Sizes(ids), ranks, v)
    ensures row == RowMap(ids, ranks, v, ranks) && end == RowsTo(Sizes(ids), ranks, v + 1)
  {
    row, end := map[], start;
    for p := 0 to ranks
      invariant row == RowMap(ids, ranks, v, p) && end == StartOf(Sizes(ids), ranks, v, p)
    {
      row, end := AddStage(row, ids, (p, v), end);
    }
  }

  method AddStage(row: map<Stage, map<nat, nat>>, ids: map<Stage, set<nat>>, stage: Stage, start: nat)
    returns (more: map<Stage, map<nat, nat>>, end: nat)
    ensures more == if stage in ids then row[stage := NumberSet(Entry(ids, stage), start)] else row
    ensures end == start + |Entry(ids, stage)|
  {
    more, end := row, start;
    if stage in ids {
      var numbers, size := NumberIds(ids[stage], start);
      more, end := row[stage := numbers], start + size;
    }
  }

  method NumberIds(s: set<nat>, base: nat) returns (numbers: map<nat, nat>, size: nat)
    ensures numbers == NumberSet(s, base) && size == |s|
  {
    var localIds := SortedKeys(s);
    SortedLength(s);
    numbers, size := map[], 0;
    for i := 0 to |localIds|
      invariant numbers == Numbering(localIds[..i], base) && size == i
    {
      assert localIds[..i + 1][..i] == localIds[..i];
      numbers := numbers[localIds[i] := base + i];
      size := size + 1;
    }
    assert localIds[..|localIds|] == localIds;
  }

  lemma {:induction false} SortedLength(s: set<nat>)
    ensures |SortedKeys(s)| == |s|
    decreases s
  {
    if s != {} {
      HasLeast(s);
      var m :| IsLeast(m, s);
      SortedLength(s - {m});
      assert SortedKeys(s) == [m] + SortedKeys(s - {m});
    }
  }

  /** The map belongs to the ids collected from the ranks; the first rank's pipeline size counts. */
  ghost predicate Numbers(views: seq<RankView>, ids: map<Stage, set<nat>>, stageMap: map<Stage, map<nat, nat>>) {
    && Collected(ids, views)
    && if ids == map[] then stageMap == map[] else views != [] && stageMap == StageMap(ids, views[0].ppSize)
  }

  method BuildPpStageLayerIdMap(views: seq<RankView>) returns (stageMap: map<Stage, map<nat, nat>>)
    ensures exists ids :: Numbers(views, ids, stageMap)
  {
    var ids := CollectLocalIds(views);
    stageMap := map[];
    if ids != map[] {
      assert views != [] by {
        var stage :| stage in ids;
        assert LocalIds(views, stage) != {};
      }
      AllSkippable(ids, views[0].ppSize);
      stageMap := NumberStages(ids, views[0].ppSize, SortedKeys(VpStages(ids)));
    }
    assert Numbers(views, ids, stageMap);
  }

  method NumberStages(ids: map<Stage, set<nat>>, ranks: nat, vps: seq<nat>)
    returns (stageMap: map<Stage, map<nat, nat>>)
    requires Skippable(Sizes(ids), ranks, vps)
    ensures stageMap == RowsMap(ids, ranks, vps)
  {
    var next := 0;
    stageMap := map[];
    for i := 0 to |vps|
      invariant stageMap == RowsMap(ids, ranks, vps[..i])
      invariant next == RowsTo(Sizes(ids), ranks, if i == 0 then 0 else vps[i - 1] + 1)
    {
      var row;
      row, next := NumberRow(ids, ranks, vps[i], next);
      assert vps[..i + 1][..i] == vps[..i];
      stageMap := stageMap + row;
    }
    assert vps[..|vps|] == vps;
  }

  // ----- agreement with the configuration

  /** Every configured stage shows as many distinct ids as it has layers, and no other stage shows any. */
  ghost predicate SizesMatch(ids: map<Stage, set<nat>>, counts: seq<seq<nat>>, vp: nat) {
    && Rectangular(counts, vp)
    && (forall p: nat, v: nat :: p < |counts| && v < vp ==> Sizes(ids)(p, v) == counts[p][v])
  }

  lemma {:induction false} SameRow(ids: map<Stage, set<nat>>, counts: seq<seq<nat>>, vp: nat, v: nat, p: nat)
    requires SizesMatch(ids, counts, vp) && v < vp && p <= |counts|
    ensures RowTo(Sizes(ids), v, p) == RowTo(CountIn(counts), v, p)
  {
    if p > 0 {
      SameRow(ids, counts, vp, v, p - 1);
      assert Sizes(ids)(p - 1, v) == counts[p - 1][v];
    }
  }

  lemma {:induction false} SameRows(ids: map<Stage, set<nat>>, counts: seq<seq<nat>>, vp: nat, v: nat)
    requires SizesMatch(ids, counts, vp) && v <= vp
    ensures RowsTo(Sizes(ids), |counts|, v) == RowsTo(CountIn(counts), |counts|, v)
  {
    if v > 0 {
      SameRows(ids, counts, vp, v - 1);
      SameRow(ids, counts, vp, v - 1, |counts|);
    }
  }

  lemma SameStart(ids: map<Stage, set<nat>>, counts: seq<seq<nat>>, vp: nat, p: nat, v: nat)
    requires SizesMatch(ids, counts, vp) && p < |counts| && v < vp
    ensures StartOf(Sizes(ids), |counts|, v, p) == StartOf(CountIn(counts), |counts|, v, p)
    ensures |Entry(ids, (p, v))| == CountIn(counts)(p, v)
  {
    SameRows(ids, counts, vp, v);
    SameRow(ids, counts, vp, v, p);
    assert Sizes(ids)(p, v) == counts[p][v];
  }

  /** The list and its numbers, position by position. */
  ghost predicate NumbersAs(m: map<nat, nat>, list: seq<nat>, numbers: seq<nat>) {
    && |list| == |numbers| && (forall k :: k in m <==> k in list)
    && forall i :: 0 <= i < |list| ==> list[i] in m && m[list[i]] == numbers[i]
  }

  lemma NumberingIs(s: set<nat>, base: nat)
    ensures NumbersAs(NumberSet(s, base), SortedKeys(s), Range(base, |s|))
  {
    var list := SortedKeys(s);
    SortedKeysProperties(s);
    SortedLength(s);
    NumberingKeys(list, base);
    forall i | 0 <= i < |list| ensures list[i] in Numbering(list, base) && Numbering(list, base)[list[i]] == base + i {
      NumberingAt(list, base, i);
    }
  }

  /** The metadata map sends a stage's ids, in their order, to exactly the configured range. */
  lemma MetadataAgreesWithConfig(ids: map<Stage, set<nat>>, counts: seq<seq<nat>>, vp: nat, layers: nat, p: nat, v: nat)
    requires SizesMatch(ids, counts, vp) && RowsTo(CountIn(counts), |counts|, vp) == layers
    requires p < |counts| && v < vp && (p, v) in ids
    ensures (p, v) in StageMap(ids, |counts|) && StageIds(counts, layers, p, Some(v)).Ok?
    ensures NumbersAs(StageMap(ids, |counts|)[(p, v)], SortedKeys(ids[(p, v)]),
                      StageIds(counts, layers, p, Some(v)).value)
  {
    var stage: Stage := (p, v);
    StageMapHas(ids, |counts|, stage);
    SameStart(ids, counts, vp, p, v);
    StageIdsAre(counts, vp, layers, p, v);
    NumberingIs(Entry(ids, stage), StartOf(Sizes(ids), |counts|, v, p));
  }

  lemma StageIdsAre(counts: seq<seq<nat>>, vp: nat, layers: nat, p: nat, v: nat)
    requires Rectangular(counts, vp) && RowsTo(CountIn(counts), |counts|, vp) == layers && p < |counts| && v < vp
    ensures StageIds(counts, layers, p, Some(v))
            == Ok(Range(StartOf(CountIn(counts), |counts|, v, p), CountIn(counts)(p, v)))
  {
  }

  /** Where an id stands in its stage. */
  lemma Placed(ids: map<Stage, set<nat>>, ranks: nat, a: Stage, x: nat) returns (i: nat)
    requires a in StageMap(ids, ranks) && x in StageMap(ids, ranks)[a]
    ensures a in ids && a.0 < ranks && i < |Entry(ids, a)| == |SortedKeys(Entry(ids, a))| &&
            SortedKeys(Entry(ids, a))[i] == x
    ensures StageMap(ids, ranks)[a][x] == StartOf(Sizes(ids), ranks, a.1, a.0) + i
  {
    StageMapHas(ids, ranks, a);
    NumberingIs(Entry(ids, a), StartOf(Sizes(ids), ranks, a.1, a.0));
    var list := SortedKeys(Entry(ids, a));
    i :| 0 <= i < |list| && list[i] == x;
  }

  lemma LaterPlace(s: set<nat>, i: nat, j: nat)
    requires i < |SortedKeys(s)| && j < |SortedKeys(s)| && SortedKeys(s)[i] < SortedKeys(s)[j]
    ensures i < j
  {
    SortedKeysProperties(s);
  }

  /** Different layers never get the same global id, and later ones get larger ids. */
  lemma NumberingKeepsOrder(ids: map<Stage, set<nat>>, ranks: nat, a: Stage, x: nat, b: Stage, y: nat)
    requires a in StageMap(ids, ranks) && x in StageMap(ids, ranks)[a]
    requires b in StageMap(ids, ranks) && y in StageMap(ids, ranks)[b]
    requires StageBefore(a.0, a.1, b.0, b.1) || (a == b && x < y)
    ensures StageMap(ids, ranks)[a][x] < StageMap(ids, ranks)[b][y]
  {
    var i := Placed(ids, ranks, a, x);
    var j := Placed(ids, ranks, b, y);
    if a == b {
      LaterPlace(Entry(ids, a), i, j);
    } else {
      StagesInOrder(Sizes(ids), ranks, a.1 + b.1 + 1, a.0, a.1, b.0, b.1);
    }
  }

  /** The map numbers from zero without gaps. */
  lemma EveryIdUsed(ids: map<Stage, set<nat>>, ranks: nat, vp: nat, id: nat) returns (a: Stage, x: nat)
    requires id < RowsTo(Sizes(ids), ranks, vp)
    ensures a in StageMap(ids, ranks) && x in StageMap(ids, ranks)[a] && StageMap(ids, ranks)[a][x] == id
  {
    var p, v := StageOfId(Sizes(ids), ranks, vp, id);
    a := (p, v);
    var base := StartOf(Sizes(ids), ranks, v, p);
    NumberingIs(Entry(ids, a), base);
    x := SortedKeys(Entry(ids, a))[id - base];
    assert Entry(ids, a) != {};
    StageMapHas(ids, ranks, a);
  }

  // ----- rewriting the names

  datatype NameError = MissingStage(stage: Stage) | MissingLayer(stage: Stage, layer: nat)

  /** One parameter's mutable record. */
  class ParamRecord {
    const vp: nat
    var layer: Option<nat>

    constructor (layer: Option<nat>, vp: nat)
      ensures this.layer == layer && this.vp == vp
    {
      this.layer, this.vp := layer, vp;
    }
  }

  datatype RankMeta = RankMeta(ppRank: nat, ppSize: nat, params: seq<ParamRecord>)

  function Names(params: seq<ParamRecord>): seq<ParamName>
    reads set p | p in params
  {
    seq(|params|, k requires 0 <= k < |params| reads set p | p in params => ParamName(params[k].layer, params[k].vp))
  }

  /** The name a parameter of pipeline rank p gets. */
  function NewName(stageMap: map<Stage, map<nat, nat>>, p: nat, name: ParamName): Result<ParamName, NameError> {
    if stageMap == map[] || name.layer.None? then Ok(name)
    else
      var stage := (p, name.vp);
      if stage !in stageMap then Err(MissingStage(stage))
      else if name.layer.value !in stageMap[stage] then Err(MissingLayer(stage, name.layer.value))
      else Ok(name.(layer := Some(stageMap[stage][name.layer.value])))
  }

  /** The names before the k-th are rewritten, the k-th is the first that cannot be, and the rest are as they were. */
  ghost predicate StoppedAt(stageMap: map<Stage, map<nat, nat>>, p: nat, before: seq<ParamName>, after: seq<ParamName>,
                            k: nat, error: NameError)
  {
    && k < |before| == |after|
    && NewName(stageMap, p, before[k]) == Err(error)
    && (forall j :: 0 <= j < k ==> NewName(stageMap, p, before[j]) == Ok(after[j]))
    && (forall j :: k <= j < |after| ==> after[j] == before[j])
  }

  /** One rank's names are rewritten in place, up to the first that cannot be. */
  method CanonicalizeRank(stageMap: map<Stage, map<nat, nat>>, meta: RankMeta) returns (error: Option<NameError>)
    requires forall i, j :: 0 <= i < j < |meta.params| ==> meta.params[i] != meta.params[j]
    modifies set p | p in meta.params
    ensures error.None? <==> forall k :: 0 <= k < |meta.params| ==>
              NewName(stageMap, meta.ppRank, old(Names(meta.params))[k]).Ok?
    ensures error.None? ==> forall k :: 0 <= k < |meta.params| ==>
              Ok(Names(meta.params)[k]) == NewName(stageMap, meta.ppRank, old(Names(meta.params))[k])
    ensures error.Some? ==> exists k: nat ::
              StoppedAt(stageMap, meta.ppRank, old(Names(meta.params)), Names(meta.params), k, error.value)
  {
    ghost var names := Names(meta.params);
    if stageMap == map[] {
      return None;
    }
    for k := 0 to |meta.params|
      invariant forall j :: 0 <= j < k ==>
                  Ok(ParamName(meta.params[j].layer, meta.params[j].vp)) == NewName(stageMap, meta.ppRank, names[j])
      invariant forall j :: k <= j < |meta.params| ==> ParamName(meta.params[j].layer, meta.params[j].vp) == names[j]
    {
      var param := meta.params[k];
      if param.layer.Some? {
        var stage := (meta.ppRank, param.vp);
        if stage !in stageMap {
          assert StoppedAt(stageMap, meta.ppRank, names, Names(meta.params), k, MissingStage(stage));
          return Some(MissingStage(stage));
        }
        if param.layer.value !in stageMap[stage] {
          assert StoppedAt(stageMap, meta.ppRank, names, Names(meta.params), k, MissingLayer(stage, param.layer.value));
          return Some(MissingLayer(stage, param.layer.value));
        }
        param.layer := Some(stageMap[stage][param.layer.value]);
      }
    }
    error := None;
  }

  /** With the map built from the same metadata, a name fails only on a rank outside the first rank's pipeline size. */
  lemma RewriteFailsOutsidePipeline(views: seq<RankView>, ids: map<Stage, set<nat>>,
                                    stageMap: map<Stage, map<nat, nat>>, r: nat, k: nat)
    requires Numbers(views, ids, stageMap) && r < |views| && k < |views[r].params| && views[r].params[k].layer.Some?
    requires stageMap != map[]
    ensures NewName(stageMap, views[r].ppRank, views[r].params[k]).Ok? <==> views[r].ppRank < views[0].ppSize
  {
    var name, stage := views[r].params[k], (views[r].ppRank, views[r].params[k].vp);
    SeenLocally(views, r, k);
    assert Entry(ids, stage) == LocalIds(views, stage);
    MapHas(ids, views[0].ppSize, stage, name.layer.value);
  }

  lemma MapHas(ids: map<Stage, set<nat>>, ranks: nat, stage: Stage, x: nat)
    requires x in Entry(ids, stage)
    ensures stage in StageMap(ids, ranks) <==> stage.0 < ranks
    ensures stage in StageMap(ids, ranks) ==> x in StageMap(ids, ranks)[stage]
  {
    StageMapHas(ids, ranks, stage);
    NumberingIs(Entry(ids, stage), StartOf(Sizes(ids), ranks, stage.1, stage.0));
    SortedKeysProperties(Entry(ids, stage));
  }

  lemma {:induction false} SeenLocally(views: seq<RankView>, r: nat, k: nat)
    requires r < |views| && k < |views[r].params| && views[r].params[k].layer.Some?
    ensures views[r].params[k].layer.value in LocalIds(views, (views[r].ppRank, views[r].params[k].vp))
  {
    if r < |views| - 1 {
      SeenLocally(views[..|views| - 1], r, k);
    } else {
      SeenInParams(views[r].params, k);
    }
  }

  lemma {:induction false} SeenInParams(params: seq<ParamName>, k: nat)
    requires k < |params| && params[k].layer.Some?
    ensures params[k].layer.value in ParamIds(params, params[k].vp)
  {
    if k < |params| - 1 {
      SeenInParams(params[..|params| - 1], k);
    }
  }

  // ----- all ranks' names

  function View(meta: RankMeta): RankView
    reads set p | p in meta.params
  {
    RankView(meta.ppRank, meta.ppSize, Names(meta.params))
  }

  function Records(metas: seq<RankMeta>): set<ParamRecord> { set m, p | m in metas && p in m.params :: p }

  function Views(metas: seq<RankMeta>): seq<RankView>
    reads Records(metas)
  {
    seq(|metas|, r requires 0 <= r < |metas| reads Records(metas) => View(metas[r]))
  }

  predicate Layered(views: seq<RankView>, r: nat, k: nat) {
    r < |views| && k < |views[r].params| && views[r].params[k].layer.Some?
  }

  function LayerAt(views: seq<RankView>, r: nat, k: nat): nat
    requires Layered(views, r, k)
  {
    views[r].params[k].layer.value
  }

  function StageAt(views: seq<RankView>, r: nat, k: nat): Stage
    requires r < |views| && k < |views[r].params|
  {
    (views[r].ppRank, views[r].params[k].vp)
  }

  /** Every layer, or none, is reported by a pipeline rank below the first rank's pipeline size. */
  ghost predicate AllInside(views: seq<RankView>) {
    forall r: nat, k: nat :: Layered(views, r, k) ==> views[r].ppRank < views[0].ppSize
  }

  ghost predicate NoneInside(views: seq<RankView>) {
    forall r: nat, k: nat :: Layered(views, r, k) ==> views[r].ppRank >= views[0].ppSize
  }

  /** Nothing but layer ids differs, and the same names have one. */
  ghost predicate SameButLayers(before: seq<RankView>, after: seq<RankView>) {
    && |before| == |after|
    && forall r :: 0 <= r < |before| ==>
         && before[r].ppRank == after[r].ppRank && before[r].ppSize == after[r].ppSize
         && |before[r].params| == |after[r].params|
         && forall k :: 0 <= k < |before[r].params| ==>
              && before[r].params[k].vp == after[r].params[k].vp
              && (before[r].params[k].layer.Some? <==> after[r].params[k].layer.Some?)
  }

  /** The layer of one name comes before that of another: in an earlier stage, or lower in the same stage. */
  predicate Earlier(views: seq<RankView>, r: nat, k: nat, s: nat, j: nat)
    requires Layered(views, r, k) && Layered(views, s, j)
  {
    var a, b := StageAt(views, r, k), StageAt(views, s, j);
    StageBefore(a.0, a.1, b.0, b.1) || (a == b && LayerAt(views, r, k) < LayerAt(views, s, j))
  }

  ghost predicate HasLayer(views: seq<RankView>, id: nat) {
    exists r: nat, k: nat :: Layered(views, r, k) && LayerAt(views, r, k) == id
  }

  /** The new ids count the layers from zero in the order of their stages and local ids, equal layers equal. */
  ghost predicate Canonical(before: seq<RankView>, after: seq<RankView>) {
    && SameButLayers(before, after)
    && (forall r: nat, k: nat, s: nat, j: nat :: Layered(before, r, k) && Layered(before, s, j) ==>
          (LayerAt(after, r, k) < LayerAt(after, s, j) <==> Earlier(before, r, k, s, j)))
    && forall r: nat, k: nat, id: nat :: Layered(before, r, k) && id < LayerAt(after, r, k) ==> HasLayer(after, id)
  }

  /** The configured table has the ranks of the pipeline, and each stage as many layers as its reports show. */
  ghost predicate Configured(views: seq<RankView>, counts: seq<seq<nat>>, vp: nat, layers: nat) {
    && views != [] && Rectangular(counts, vp) && |counts| == views[0].ppSize
    && RowsTo(CountIn(counts), |counts|, vp) == layers
    && forall p: nat, v: nat :: p < |counts| && v < vp ==> |LocalIds(views, (p, v))| == counts[p][v]
  }

  /** The new id stands in the configured range of its stage where the local id stands among those of the stage. */
  ghost predicate AsConfigured(before: seq<RankView>, after: seq<RankView>, r: nat, k: nat, counts: seq<seq<nat>>,
                               layers: nat)
    requires Layered(before, r, k) && Layered(after, r, k)
  {
    var stage := StageAt(before, r, k);
    var range, local := StageIds(counts, layers, stage.0, Some(stage.1)), SortedKeys(LocalIds(before, stage));
    && range.Ok? && |local| == |range.value|
    && exists i :: 0 <= i < |local| && local[i] == LayerAt(before, r, k) && range.value[i] == LayerAt(after, r, k)
  }

  ghost predicate FollowsConfig(before: seq<RankView>, after: seq<RankView>)
    requires SameButLayers(before, after)
  {
    forall counts, vp: nat, layers: nat, r: nat, k: nat ::
      Configured(before, counts, vp, layers) && Layered(before, r, k) && before[r].params[k].vp < vp ==>
        AsConfigured(before, after, r, k, counts, layers)
  }

  // ----- what the rewriting amounts to

  ghost predicate RankRewritten(stageMap: map<Stage, map<nat, nat>>, before: RankView, after: RankView) {
    && after.ppRank == before.ppRank && after.ppSize == before.ppSize && |after.params| == |before.params|
    && forall k :: 0 <= k < |before.params| ==>
         NewName(stageMap, before.ppRank, before.params[k]) == Ok(after.params[k])
  }

  ghost predicate Rewritten(stageMap: map<Stage, map<nat, nat>>, before: seq<RankView>, after: seq<RankView>) {
    |after| == |before| && forall r :: 0 <= r < |before| ==> RankRewritten(stageMap, before[r], after[r])
  }

  lemma {:induction false} IdReported(views: seq<RankView>, stage: Stage, x: nat) returns (r: nat, k: nat)
    requires x in LocalIds(views, stage)
    ensures Layered(views, r, k) && StageAt(views, r, k) == stage && LayerAt(views, r, k) == x
  {
    var last := views[|views| - 1];
    if last.ppRank == stage.0 && x in ParamIds(last.params, stage.1) {
      k := IdInParams(last.params, stage.1, x);
      r := |views| - 1;
    } else {
      r, k := IdReported(views[..|views| - 1], stage, x);
    }
  }

  lemma {:induction false} IdInParams(params: seq<ParamName>, v: nat, x: nat) returns (k: nat)
    requires x in ParamIds(params, v)
    ensures k < |params| && params[k] == ParamName(Some(x), v)
  {
    k := |params| - 1;
    if params[k] != ParamName(Some(x), v) {
      k := IdInParams(params[..|params| - 1], v, x);
    }
  }

  /** The map is empty exactly when no layer is inside the pipeline. */
  lemma MapEmptyIff(views: seq<RankView>, ids: map<Stage, set<nat>>, stageMap: map<Stage, map<nat, nat>>)
    requires Numbers(views, ids, stageMap)
    ensures stageMap == map[] <==> NoneInside(views)
  {
    forall r: nat, k: nat | Layered(views, r, k) && views[r].ppRank < views[0].ppSize ensures stageMap != map[] {
      var stage := StageAt(views, r, k);
      SeenLocally(views, r, k);
      assert Entry(ids, stage) == LocalIds(views, stage);
      StageMapHas(ids, views[0].ppSize, stage);
    }
    if stageMap != map[] {
      var stage :| stage in stageMap;
      StageMapHas(ids, views[0].ppSize, stage);
      assert Entry(ids, stage) == LocalIds(views, stage);
      var x :| x in LocalIds(views, stage);
      var r, k := IdReported(views, stage, x);
      assert Layered(views, r, k);
    }
  }

  lemma NewLayer(views: seq<RankView>, ids: map<Stage, set<nat>>, stageMap: map<Stage, map<nat, nat>>,
                 after: seq<RankView>, r: nat, k: nat)
    requires Numbers(views, ids, stageMap) && Rewritten(stageMap, views, after)
    requires stageMap != map[] && Layered(views, r, k)
    ensures Layered(after, r, k)
    ensures var stage := StageAt(views, r, k);
            && stageMap == StageMap(ids, views[0].ppSize)
            && stage in stageMap && LayerAt(views, r, k) in stageMap[stage]
            && stageMap[stage][LayerAt(views, r, k)] == LayerAt(after, r, k)
  {
    assert RankRewritten(stageMap, views[r], after[r]);
  }

  lemma NewLayersOrdered(views: seq<RankView>, ids: map<Stage, set<nat>>, stageMap: map<Stage, map<nat, nat>>,
                         after: seq<RankView>, r: nat, k: nat, s: nat, j: nat)
    requires Numbers(views, ids, stageMap) && Rewritten(stageMap, views, after) && stageMap != map[]
    requires Layered(views, r, k) && Layered(views, s, j)
    ensures Layered(after, r, k) && Layered(after, s, j)
    ensures LayerAt(after, r, k) < LayerAt(after, s, j) <==> Earlier(views, r, k, s, j)
  {
    var a, x, b, y := StageAt(views, r, k), LayerAt(views, r, k), StageAt(views, s, j), LayerAt(views, s, j);
    NewLayer(views, ids, stageMap, after, r, k);
    NewLayer(views, ids, stageMap, after, s, j);
    if Earlier(views, r, k, s, j) {
      NumberingKeepsOrder(ids, views[0].ppSize, a, x, b, y);
    } else if Earlier(views, s, j, r, k) {
      NumberingKeepsOrder(ids, views[0].ppSize, b, y, a, x);
    }
  }

  lemma BelowTotal(ids: map<Stage, set<nat>>, ranks: nat, stage: Stage, x: nat)
    requires stage in StageMap(ids, ranks) && x in StageMap(ids, ranks)[stage]
    ensures StageMap(ids, ranks)[stage][x] < RowsTo(Sizes(ids), ranks, stage.1 + 1)
  {
    var place := Placed(ids, ranks, stage, x);
    StagesInOrder(Sizes(ids), ranks, stage.1 + 1, stage.0, stage.1, stage.0, stage.1);
  }

  /** Every id the map gives belongs to a layer some rank reports. */
  lemma UsedIdReported(views: seq<RankView>, ids: map<Stage, set<nat>>, ranks: nat, vp: nat, id: nat)
    returns (r: nat, k: nat)
    requires Collected(ids, views) && id < RowsTo(Sizes(ids), ranks, vp)
    ensures Layered(views, r, k)
    ensures var stage := StageAt(views, r, k);
            && stage in StageMap(ids, ranks) && LayerAt(views, r, k) in StageMap(ids, ranks)[stage]
            && StageMap(ids, ranks)[stage][LayerAt(views, r, k)] == id
  {
    var a, x := EveryIdUsed(ids, ranks, vp, id);
    var at := Placed(ids, ranks, a, x);
    SortedKeysProperties(Entry(ids, a));
    assert SortedKeys(Entry(ids, a))[at] in SortedKeys(Entry(ids, a));
    assert Entry(ids, a) == LocalIds(views, a);
    r, k := IdReported(views, a, x);
  }

  lemma LowerLayerUsed(views: seq<RankView>, ids: map<Stage, set<nat>>, stageMap: map<Stage, map<nat, nat>>,
                       after: seq<RankView>, r: nat, k: nat, id: nat)
    requires Numbers(views, ids, stageMap) && Rewritten(stageMap, views, after) && stageMap != map[]
    requires Layered(views, r, k) && Layered(after, r, k) && id < LayerAt(after, r, k)
    ensures HasLayer(after, id)
  {
    var ranks, stage := views[0].ppSize, StageAt(views, r, k);
    NewLayer(views, ids, stageMap, after, r, k);
    BelowTotal(ids, ranks, stage, LayerAt(views, r, k));
    var s, j := UsedIdReported(views, ids, ranks, stage.1 + 1, id);
    NewLayer(views, ids, stageMap, after, s, j);
  }

  lemma RewrittenCanonical(views: seq<RankView>, ids: map<Stage, set<nat>>, stageMap: map<Stage, map<nat, nat>>,
                           after: seq<RankView>)
    requires Numbers(views, ids, stageMap) && Rewritten(stageMap, views, after) && AllInside(views)
    ensures Canonical(views, after)
  {
    MapEmptyIff(views, ids, stageMap);
    RewrittenSame(stageMap, views, after);
    forall r: nat, k: nat, s: nat, j: nat | Layered(views, r, k) && Layered(views, s, j)
      ensures LayerAt(after, r, k) < LayerAt(after, s, j) <==> Earlier(views, r, k, s, j)
    {
      NewLayersOrdered(views, ids, stageMap, after, r, k, s, j);
    }
    forall r: nat, k: nat, id: nat | Layered(views, r, k) && id < LayerAt(after, r, k) ensures HasLayer(after, id) {
      LowerLayerUsed(views, ids, stageMap, after, r, k, id);
    }
  }

  lemma RewrittenSame(stageMap: map<Stage, map<nat, nat>>, before: seq<RankView>, after: seq<RankView>)
    requires Rewritten(stageMap, before, after)
    ensures SameButLayers(before, after)
    ensures stageMap == map[] ==> after == before
  {
    forall r | 0 <= r < |before| ensures RankRewritten(stageMap, before[r], after[r]) {
    }
    if stageMap == map[] {
      forall r | 0 <= r < |before| ensures after[r] == before[r] {
        assert RankRewritten(stageMap, before[r], after[r]);
        assert after[r].params == before[r].params;
      }
    }
  }

  lemma ConfiguredSizes(views: seq<RankView>, ids: map<Stage, set<nat>>, counts: seq<seq<nat>>, vp: nat, layers: nat)
    requires Collected(ids, views) && Configured(views, counts, vp, layers)
    ensures SizesMatch(ids, counts, vp)
  {
    forall p: nat, v: nat | p < |counts| && v < vp ensures Sizes(ids)(p, v) == counts[p][v] {
      assert Entry(ids, (p, v)) == LocalIds(views, (p, v));
    }
  }

  lemma SamePlace(m: map<nat, nat>, list: seq<nat>, numbers: seq<nat>, x: nat) returns (i: nat)
    requires NumbersAs(m, list, numbers) && x in m
    ensures i < |list| == |numbers| && list[i] == x && numbers[i] == m[x]
  {
    assert x in list;
    i :| 0 <= i < |list| && list[i] == x;
  }

  lemma RewrittenAsConfigured(views: seq<RankView>, ids: map<Stage, set<nat>>, stageMap: map<Stage, map<nat, nat>>,
                              after: seq<RankView>, r: nat, k: nat, counts: seq<seq<nat>>, vp: nat, layers: nat)
    requires Numbers(views, ids, stageMap) && Rewritten(stageMap, views, after) && stageMap != map[]
    requires Configured(views, counts, vp, layers) && Layered(views, r, k) && views[r].params[k].vp < vp
    ensures Layered(after, r, k) && AsConfigured(views, after, r, k, counts, layers)
  {
    var stage, x := StageAt(views, r, k), LayerAt(views, r, k);
    NewLayer(views, ids, stageMap, after, r, k);
    StageMapHas(ids, |counts|, stage);
    ConfiguredSizes(views, ids, counts, vp, layers);
    MetadataAgreesWithConfig(ids, counts, vp, layers, stage.0, stage.1);
    assert Entry(ids, stage) == LocalIds(views, stage);
    var range := StageIds(counts, layers, stage.0, Some(stage.1)).value;
    var i := SamePlace(stageMap[stage], SortedKeys(ids[stage]), range, x);
  }

  lemma RewrittenFollowsConfig(views: seq<RankView>, ids: map<Stage, set<nat>>, stageMap: map<Stage, map<nat, nat>>,
                               after: seq<RankView>)
    requires Numbers(views, ids, stageMap) && Rewritten(stageMap, views, after) && AllInside(views)
    ensures SameButLayers(views, after) && FollowsConfig(views, after)
  {
    MapEmptyIff(views, ids, stageMap);
    RewrittenSame(stageMap, views, after);
    forall counts, vp: nat, layers: nat, r: nat, k: nat
      | Configured(views, counts, vp, layers) && Layered(views, r, k) && views[r].params[k].vp < vp
      ensures AsConfigured(views, after, r, k, counts, layers)
    {
      RewrittenAsConfigured(views, ids, stageMap, after, r, k, counts, vp, layers);
    }
  }

  /** A name of some rank cannot be rewritten: some layers are inside the pipeline and some are not. */
  lemma NameRefused(views: seq<RankView>, ids: map<Stage, set<nat>>, stageMap: map<Stage, map<nat, nat>>, r: nat,
                    k: nat)
    requires Numbers(views, ids, stageMap) && r < |views| && k < |views[r].params|
    requires NewName(stageMap, views[r].ppRank, views[r].params[k]).Err?
    ensures !AllInside(views) && !NoneInside(views)
  {
    MapEmptyIff(views, ids, stageMap);
    RewriteFailsOutsidePipeline(views, ids, stageMap, r, k);
    assert Layered(views, r, k);
  }

  lemma NamesAccepted(views: seq<RankView>, ids: map<Stage, set<nat>>, stageMap: map<Stage, map<nat, nat>>,
                      after: seq<RankView>)
    requires Numbers(views, ids, stageMap) && Rewritten(stageMap, views, after)
    ensures AllInside(views) || NoneInside(views)
    ensures NoneInside(views) ==> after == views
    ensures AllInside(views) ==> Canonical(views, after) && FollowsConfig(views, after)
  {
    MapEmptyIff(views, ids, stageMap);
    RewrittenSame(stageMap, views, after);
    if stageMap != map[] {
      forall r: nat, k: nat | Layered(views, r, k) ensures views[r].ppRank < views[0].ppSize {
        assert RankRewritten(stageMap, views[r], after[r]);
        RewriteFailsOutsidePipeline(views, ids, stageMap, r, k);
      }
    }
    if AllInside(views) {
      RewrittenCanonical(views, ids, stageMap, after);
      RewrittenFollowsConfig(views, ids, stageMap, after);
    }
  }

  /** No record stands in two places of the metadata. */
  ghost predicate OwnRecords(metas: seq<RankMeta>) {
    forall r, k, s, j ::
      0 <= r < |metas| && 0 <= s < |metas| && 0 <= k < |metas[r].params| && 0 <= j < |metas[s].params| ==>
        (metas[r].params[k] == metas[s].params[j] ==> r == s && k == j)
  }

  /** No record of another rank is touched by rewriting rank r. */
  lemma OthersApart(metas: seq<RankMeta>, r: nat, s: nat)
    requires OwnRecords(metas) && r < |metas| && s < |metas| && r != s
    ensures forall p :: p in metas[s].params ==> p !in metas[r].params
  {
  }

  method RewriteNames(stageMap: map<Stage, map<nat, nat>>, metas: seq<RankMeta>) returns (error: Option<NameError>)
    requires OwnRecords(metas)
    modifies Records(metas)
    ensures error.None? ==> Rewritten(stageMap, old(Views(metas)), Views(metas))
    ensures error.Some? ==> Refused(stageMap, old(Views(metas)))
  {
    ghost var views := Views(metas);
    for r := 0 to |metas|
      invariant forall s :: 0 <= s < r ==> RankRewritten(stageMap, views[s], View(metas[s]))
      invariant forall s :: r <= s < |metas| ==> View(metas[s]) == views[s]
    {
      forall s | 0 <= s < |metas| && s != r ensures forall p :: p in metas[s].params ==> p !in metas[r].params {
        OthersApart(metas, r, s);
      }
      assert forall p :: p in metas[r].params ==> p in Records(metas);
      error := CanonicalizeRank(stageMap, metas[r]);
      if error.Some? {
        assert Refused(stageMap, views);
        return;
      }
      assert RankRewritten(stageMap, views[r], View(metas[r]));
    }
    error := None;
  }

  ghost predicate Refused(stageMap: map<Stage, map<nat, nat>>, views: seq<RankView>) {
    exists r: nat, k: nat :: r < |views| && k < |views[r].params| &&
                             NewName(stageMap, views[r].ppRank, views[r].params[k]).Err?
  }

  /** The map is built from the metadata and then applied to it, rank by rank, until a name is refused. */
  method CanonicalizeMetadata(metas: seq<RankMeta>) returns (error: Option<NameError>)
    requires OwnRecords(metas)
    modifies Records(metas)
    ensures error.None? <==> old(AllInside(Views(metas)) || NoneInside(Views(metas)))
    ensures old(NoneInside(Views(metas))) ==> Views(metas) == old(Views(metas))
    ensures old(AllInside(Views(metas))) ==>
              Canonical(old(Views(metas)), Views(metas)) && FollowsConfig(old(Views(metas)), Views(metas))
  {
    var views := Views(metas);
    var stageMap := BuildPpStageLayerIdMap(views);
    ghost var ids :| Numbers(views, ids, stageMap);
    error := RewriteNames(stageMap, metas);
    if error.Some? {
      ghost var r: nat, k: nat :| r < |views| && k < |views[r].params| &&
        NewName(stageMap, views[r].ppRank, views[r].params[k]).Err?;
      NameRefused(views, ids, stageMap, r, k);
    } else {
      NamesAccepted(views, ids, stageMap, Views(metas));
    }
  }
}
