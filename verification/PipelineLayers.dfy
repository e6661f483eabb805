/**
 Global layer ids of the pipeline stages, computed twice: from the split configuration
 (awex/converter/mcore_converter.py) and from the layer ids seen in the ranks' metadata
 (awex/meta/train_meta_resolver.py). Stages count in virtual-stage-major order.
 */
module PipelineLayers {
  import opened Wrappers
  import opened Arithmetic

  datatype Split = Split(layers: nat, ppSize: nat, first: Option<int>, last: Option<int>,
                         accountEmbed: bool, accountLoss: bool, vpSize: Option<int>)

  datatype PipeError =
    | BadVpSize | MixedSettings | FirstNotPositive | LastNotPositive | EndsExceedTotal | MiddleIndivisible
    | SplitIndivisible | VpIndivisible | NegativeStage | BadRank | BadVpStage | TotalMismatch

  // ----- layers per pipeline rank

  /** One rank at least. */
  function Ranks(cfg: Split): (n: nat)
    ensures n > 0
  {
    if cfg.ppSize > 0 then cfg.ppSize else 1
  }

  function VpOf(cfg: Split): int { if cfg.vpSize.Some? && Ranks(cfg) > 1 then cfg.vpSize.value else 1 }

  function OrZero(x: Option<int>): int { match x case Some(n) => n case None => 0 }

  function Given(x: Option<int>): nat { if x.Some? then 1 else 0 }

  predicate EndsGiven(cfg: Split) { cfg.first.Some? || cfg.last.Some? }

  function Middle(cfg: Split): int { Ranks(cfg) - Given(cfg.first) - Given(cfg.last) }

  function ToDistribute(cfg: Split): int { cfg.layers - OrZero(cfg.first) - OrZero(cfg.last) }

  function Effective(cfg: Split): nat {
    cfg.layers + (if cfg.accountEmbed then 1 else 0) + (if cfg.accountLoss then 1 else 0)
  }

  function SplitError(cfg: Split): Option<PipeError> {
    if VpOf(cfg) <= 0 then Some(BadVpSize)
    else if EndsGiven(cfg) && (cfg.accountEmbed || cfg.accountLoss) then Some(MixedSettings)
    else if EndsGiven(cfg) then
      if cfg.first.Some? && cfg.first.value <= 0 then Some(FirstNotPositive)
      else if cfg.last.Some? && cfg.last.value <= 0 then Some(LastNotPositive)
      else if ToDistribute(cfg) < 0 then Some(EndsExceedTotal)
      else if Middle(cfg) > 0 && ToDistribute(cfg) % Middle(cfg) != 0 then Some(MiddleIndivisible)
      else None
    else if Effective(cfg) % Ranks(cfg) != 0 then Some(SplitIndivisible)
    else None
  }

  /** The layers of a rank before the embedding and the loss are taken off; the last setting wins. */
  function PerRank(cfg: Split, p: nat): int
    requires SplitError(cfg).None?
  {
    if EndsGiven(cfg) then
      if p == Ranks(cfg) - 1 && cfg.last.Some? then cfg.last.value
      else if p == 0 && cfg.first.Some? then cfg.first.value
      else if Middle(cfg) > 0 then ToDistribute(cfg) / Middle(cfg) else 0
    else Effective(cfg) / Ranks(cfg)
  }

  function StageCount(cfg: Split, p: nat, v: nat): int
    requires SplitError(cfg).None? && VpOf(cfg) > 0
  {
    PerRank(cfg, p) / VpOf(cfg)
    - (if cfg.accountEmbed && p == 0 && v == 0 then 1 else 0)
    - (if cfg.accountLoss && p == Ranks(cfg) - 1 && v == VpOf(cfg) - 1 then 1 else 0)
  }

  predicate VpDivides(cfg: Split) {
    SplitError(cfg).None? && VpOf(cfg) > 0 && forall p: nat :: p < Ranks(cfg) ==> PerRank(cfg, p) % VpOf(cfg) == 0
  }

  predicate NoNegative(cfg: Split) {
    && SplitError(cfg).None? && VpOf(cfg) > 0
    && forall p: nat, v: nat :: p < Ranks(cfg) && v < VpOf(cfg) ==> StageCount(cfg, p, v) >= 0
  }

  predicate Accepted(cfg: Split) { VpDivides(cfg) && NoNegative(cfg) }

  function Row(cfg: Split, p: nat): seq<nat>
    requires Accepted(cfg) && p < Ranks(cfg)
  {
    seq(VpOf(cfg), v requires 0 <= v < VpOf(cfg) && Accepted(cfg) => StageCount(cfg, p, v))
  }

  /** The layers of every stage, rank by rank. */
  function Table(cfg: Split): seq<seq<nat>>
    requires Accepted(cfg)
  {
    seq(Ranks(cfg), p requires 0 <= p < Ranks(cfg) && Accepted(cfg) => Row(cfg, p))
  }

  function CountsOf(cfg: Split): Result<seq<seq<nat>>, PipeError> {
    if SplitError(cfg).Some? then Err(SplitError(cfg).value)
    else if !VpDivides(cfg) then Err(VpIndivisible)
    else if !NoNegative(cfg) then Err(NegativeStage)
    else Ok(Table(cfg))
  }

  method LayersPerRank(cfg: Split) returns (r: Result<seq<int>, PipeError>)
    ensures r.Err? ==> SplitError(cfg) == Some(r.error)
    ensures r.Ok? ==> SplitError(cfg).None? && |r.value| == Ranks(cfg)
                      && forall p: nat :: p < Ranks(cfg) ==> r.value[p] == PerRank(cfg, p)
  {
    var ppSize := Ranks(cfg);
    if VpOf(cfg) <= 0 {
      return Err(BadVpSize);
    }
    if EndsGiven(cfg) && (cfg.accountEmbed || cfg.accountLoss) {
      return Err(MixedSettings);
    }
    var layers: seq<int> := [];
    if EndsGiven(cfg) {
      if cfg.first.Some? && cfg.first.value <= 0 {
        return Err(FirstNotPositive);
      }
      if cfg.last.Some? && cfg.last.value <= 0 {
        return Err(LastNotPositive);
      }
      var toDistribute := cfg.layers - OrZero(cfg.first) - OrZero(cfg.last);
      var middleSize: int := ppSize;
      if cfg.first.Some? {
        middleSize := middleSize - 1;
      }
      if cfg.last.Some? {
        middleSize := middleSize - 1;
      }
      if toDistribute < 0 {
        return Err(EndsExceedTotal);
      }
      if middleSize > 0 && toDistribute % middleSize != 0 {
        return Err(MiddleIndivisible);
      }
      var middleLayers := if middleSize > 0 then toDistribute / middleSize else 0;
      for p := 0 to ppSize
        invariant |layers| == p && forall q: nat :: q < p ==> layers[q] == PerRank(cfg, q)
      {
        var value := middleLayers;
        if p == 0 && cfg.first.Some? {
          value := cfg.first.value;
        }
        if p == ppSize - 1 && cfg.last.Some? {
          value := cfg.last.value;
        }
        layers := layers + [value];
      }
    } else {
      var effective := cfg.layers;
      if cfg.accountEmbed {
        effective := effective + 1;
      }
      if cfg.accountLoss {
        effective := effective + 1;
      }
      if effective % ppSize != 0 {
        return Err(SplitIndivisible);
      }
      for p := 0 to ppSize
        invariant |layers| == p && forall q: nat :: q < p ==> layers[q] == PerRank(cfg, q)
      {
        layers := layers + [effective / ppSize];
      }
    }
    r := Ok(layers);
  }

  /** Every rank's layers shared out evenly over its virtual stages. */
  predicate SharedOut(stages: seq<seq<int>>, layers: seq<int>, vp: pos) {
    |stages| <= |layers| && forall p :: 0 <= p < |stages| ==>
      |stages[p]| == vp && forall v :: 0 <= v < vp ==> stages[p][v] == layers[p] / vp
  }

  method ShareOut(layers: seq<int>, vp: pos) returns (r: Result<seq<seq<int>>, PipeError>)
    ensures r.Ok? <==> forall p :: 0 <= p < |layers| ==> layers[p] % vp == 0
    ensures r.Ok? ==> |r.value| == |layers| && SharedOut(r.value, layers, vp)
    ensures r.Err? ==> r.error == VpIndivisible
  {
    var stages: seq<seq<int>> := [];
    for p := 0 to |layers|
      invariant |stages| == p && SharedOut(stages, layers, vp)
      invariant forall q :: 0 <= q < p ==> layers[q] % vp == 0
    {
      if vp > 1 && layers[p] % vp != 0 {
        return Err(VpIndivisible);
      }
      var perVp := if vp > 1 then layers[p] / vp else layers[p];
      stages := stages + [seq(vp, v => perVp)];
    }
    r := Ok(stages);
  }

  method BuildStageLayerCounts(cfg: Split) returns (r: Result<seq<seq<nat>>, PipeError>)
    ensures r == CountsOf(cfg)
  {
    var layers := LayersPerRank(cfg);
    if layers.Err? {
      return Err(layers.error);
    }
    var vp, ppSize := VpOf(cfg), Ranks(cfg);
    var shared := ShareOut(layers.value, vp);
    if shared.Err? {
      assert !VpDivides(cfg);
      return Err(shared.error);
    }
    assert forall p: nat :: p < ppSize ==> layers.value[p] == PerRank(cfg, p);
    var stages := shared.value;
    if cfg.accountEmbed {
      stages := stages[0 := stages[0][0 := stages[0][0] - 1]];
    }
    if cfg.accountLoss {
      stages := stages[ppSize - 1 := stages[ppSize - 1][vp - 1 := stages[ppSize - 1][vp - 1] - 1]];
    }
    assert forall p: nat, v: nat :: p < ppSize && v < vp ==> stages[p][v] == StageCount(cfg, p, v);
    r := CheckCounts(cfg, stages);
  }

  method CheckCounts(cfg: Split, stages: seq<seq<int>>) returns (r: Result<seq<seq<nat>>, PipeError>)
    requires SplitError(cfg).None? && VpOf(cfg) > 0 && VpDivides(cfg) && |stages| == Ranks(cfg)
    requires forall p: nat :: p < |stages| ==> |stages[p]| == VpOf(cfg)
    requires forall p: nat, v: nat :: p < |stages| && v < VpOf(cfg) ==> stages[p][v] == StageCount(cfg, p, v)
    ensures r == CountsOf(cfg)
  {
    for p := 0 to |stages|
      invariant forall q: nat, v: nat :: q < p && v < VpOf(cfg) ==> stages[q][v] >= 0
    {
      for v := 0 to VpOf(cfg)
        invariant forall u: nat :: u < v ==> stages[p][u] >= 0
      {
        if stages[p][v] < 0 {
          assert StageCount(cfg, p, v) < 0;
          return Err(NegativeStage);
        }
      }
    }
    assert NoNegative(cfg);
    forall p: nat | p < |stages| ensures stages[p] == Row(cfg, p) {
    }
    assert stages == Table(cfg);
    var counts: seq<seq<nat>> := stages;
    r := Ok(counts);
  }

  // ----- where a stage's ids begin

  /** The layers of the first p ranks in virtual stage v. */
  function RowTo(count: (nat, nat) -> nat, v: nat, p: nat): nat {
    if p == 0 then 0 else RowTo(count, v, p - 1) + count(p - 1, v)
  }

  /** The layers of the first v virtual stages, over all ranks. */
  function RowsTo(count: (nat, nat) -> nat, ranks: nat, v: nat): nat {
    if v == 0 then 0 else RowsTo(count, ranks, v - 1) + RowTo(count, v - 1, ranks)
  }

  /** All layers of the stages before this one, virtual stage by virtual stage. */
  function StartOf(count: (nat, nat) -> nat, ranks: nat, v: nat, p: nat): nat {
    RowsTo(count, ranks, v) + RowTo(count, v, p)
  }

  function CountIn(counts: seq<seq<nat>>): (nat, nat) -> nat {
    (p: nat, v: nat) => if p < |counts| && v < |counts[p]| then counts[p][v] else 0
  }

  predicate Rectangular(counts: seq<seq<nat>>, vp: nat) {
    counts != [] && vp > 0 && forall p :: 0 <= p < |counts| ==> |counts[p]| == vp
  }

  function Range(start: nat, count: nat): seq<nat> { seq(count, k => start + k) }

  /** The ids of one stage, from the table of counts. */
  function StageIds(counts: seq<seq<nat>>, layers: nat, ppRank: int, vpStage: Option<int>): Result<seq<nat>, PipeError>
  {
    var v := OrZero(vpStage);
    if ppRank < 0 || ppRank >= |counts| then Err(BadRank)
    else if v < 0 || v >= |counts[0]| then Err(BadVpStage)
    else if RowsTo(CountIn(counts), |counts|, |counts[0]|) != layers then Err(TotalMismatch)
    else Ok(Range(StartOf(CountIn(counts), |counts|, v, ppRank), CountIn(counts)(ppRank, v)))
  }

  method StartOffset(counts: seq<seq<nat>>, vp: nat, ppRank: nat, stageVp: nat) returns (start: nat)
    requires Rectangular(counts, vp) && ppRank < |counts| && stageVp < vp
    ensures start == StartOf(CountIn(counts), |counts|, stageVp, ppRank)
  {
    start := 0;
    for currVp := 0 to vp
      invariant currVp <= stageVp && start == RowsTo(CountIn(counts), |counts|, currVp)
    {
      var found := false;
      for currPp := 0 to |counts|
        invariant !found && (currVp == stageVp ==> currPp <= ppRank)
        invariant start == StartOf(CountIn(counts), |counts|, currVp, currPp)
      {
        if currPp == ppRank && currVp == stageVp {
          found := true;
          break;
        }
        start := start + counts[currPp][currVp];
      }
      if found {
        return;
      }
    }
  }

  method TotalLayers(counts: seq<seq<nat>>, vp: nat) returns (total: nat)
    requires Rectangular(counts, vp)
    ensures total == ColumnsTo(CountIn(counts), |counts|, vp)
  {
    total := 0;
    for p := 0 to |counts|
      invariant total == ColumnsTo(CountIn(counts), p, vp)
    {
      var row := 0;
      for v := 0 to vp
        invariant row == ColumnTo(CountIn(counts), p, v)
      {
        row := row + counts[p][v];
      }
      total := total + row;
    }
  }

  /** The layers of one rank's first v stages, and of the first p ranks. */
  function ColumnTo(count: (nat, nat) -> nat, p: nat, v: nat): nat {
    if v == 0 then 0 else ColumnTo(count, p, v - 1) + count(p, v - 1)
  }

  function ColumnsTo(count: (nat, nat) -> nat, p: nat, vp: nat): nat {
    if p == 0 then 0 else ColumnsTo(count, p - 1, vp) + ColumnTo(count, p - 1, vp)
  }

  /** Summing rank by rank or virtual stage by virtual stage comes to the same. */
  lemma {:induction false} SumEitherWay(count: (nat, nat) -> nat, p: nat, v: nat)
    ensures ColumnsTo(count, p, v) == RowsTo(count, p, v)
  {
    if p == 0 {
      NoRanks(count, v);
    } else {
      SumEitherWay(count, p - 1, v);
      OneMoreRank(count, p - 1, v);
    }
  }

  lemma {:induction false} NoRanks(count: (nat, nat) -> nat, v: nat)
    ensures RowsTo(count, 0, v) == 0
  {
    if v > 0 {
      NoRanks(count, v - 1);
    }
  }

  lemma {:induction false} OneMoreRank(count: (nat, nat) -> nat, p: nat, v: nat)
    ensures RowsTo(count, p + 1, v) == RowsTo(count, p, v) + ColumnTo(count, p, v)
  {
    if v > 0 {
      OneMoreRank(count, p, v - 1);
    }
  }

  method ResolveStageIds(counts: seq<seq<nat>>, vp: nat, layers: nat, ppRank: int, vpStage: Option<int>)
    returns (r: Result<seq<nat>, PipeError>)
    requires Rectangular(counts, vp)
    ensures r == StageIds(counts, layers, ppRank, vpStage)
  {
    if ppRank < 0 || ppRank >= |counts| {
      return Err(BadRank);
    }
    var stageVp := match vpStage case Some(v) => v case None => 0;
    if stageVp < 0 || stageVp >= vp {
      return Err(BadVpStage);
    }
    var start := StartOffset(counts, vp, ppRank, stageVp);
    var total := TotalLayers(counts, vp);
    SumEitherWay(CountIn(counts), |counts|, vp);
    if total != layers {
      return Err(TotalMismatch);
    }
    r := Ok(Range(start, counts[ppRank][stageVp]));
  }

  /** The resolver on a split configuration: the rank is checked first, then the configuration. */
  method ResolveSplit(cfg: Split, ppRank: int, vpStage: Option<int>) returns (r: Result<seq<nat>, PipeError>)
    ensures r == if ppRank < 0 || ppRank >= Ranks(cfg) then Err(BadRank)
                 else match CountsOf(cfg)
                      case Err(e) => Err(e)
                      case Ok(counts) => StageIds(counts, cfg.layers, ppRank, vpStage)
  {
    if ppRank < 0 || ppRank >= Ranks(cfg) {
      return Err(BadRank);
    }
    var counts := BuildStageLayerCounts(cfg);
    if counts.Err? {
      return Err(counts.error);
    }
    r := ResolveStageIds(counts.value, VpOf(cfg), cfg.layers, ppRank, vpStage);
  }

  // ----- the stages share out all ids

  /** Stage (p, v) stands before stage (q, w). */
  predicate StageBefore(p: nat, v: nat, q: nat, w: nat) { v < w || (v == w && p < q) }

  lemma {:induction false} RowGrows(count: (nat, nat) -> nat, v: nat, p: nat, q: nat)
    requires p < q
    ensures RowTo(count, v, p) + count(p, v) <= RowTo(count, v, q)
  {
    if p < q - 1 {
      RowGrows(count, v, p, q - 1);
    }
  }

  lemma {:induction false} RowsGrow(count: (nat, nat) -> nat, ranks: nat, v: nat, w: nat)
    requires v < w
    ensures RowsTo(count, ranks, v) + RowTo(count, v, ranks) <= RowsTo(count, ranks, w)
  {
    if v < w - 1 {
      RowsGrow(count, ranks, v, w - 1);
    }
  }

  /** The ids of an earlier stage all come before those of a later one, and no stage passes the total. */
  lemma StagesInOrder(count: (nat, nat) -> nat, ranks: nat, vp: nat, p: nat, v: nat, q: nat, w: nat)
    requires p < ranks && q < ranks && v < vp && w < vp
    ensures StageBefore(p, v, q, w) ==> StartOf(count, ranks, v, p) + count(p, v) <= StartOf(count, ranks, w, q)
    ensures StartOf(count, ranks, v, p) + count(p, v) <= RowsTo(count, ranks, vp)
  {
    RowGrows(count, v, p, ranks);
    RowsGrow(count, ranks, v, vp);
    if v < w {
      RowsGrow(count, ranks, v, w);
    } else if v == w && p < q {
      RowGrows(count, v, p, q);
    }
  }

  /** The ids of every stage, as resolved. */
  function IdsIn(counts: seq<seq<nat>>, layers: nat): (nat, nat) -> seq<nat> {
    (p: nat, v: nat) => match StageIds(counts, layers, p, Some(v)) case Ok(ids) => ids case Err(_) => []
  }

  /** The ids of the first p ranks of virtual stage v, rank after rank. */
  function RowIds(ids: (nat, nat) -> seq<nat>, v: nat, p: nat): seq<nat> {
    if p == 0 then [] else RowIds(ids, v, p - 1) + ids(p - 1, v)
  }

  /** The ids of the first v virtual stages, one after the other. */
  function AllIds(ids: (nat, nat) -> seq<nat>, ranks: nat, v: nat): seq<nat> {
    if v == 0 then [] else AllIds(ids, ranks, v - 1) + RowIds(ids, v - 1, ranks)
  }

  predicate CountsUp(list: seq<nat>, start: nat, n: nat) {
    |list| == n && forall k :: 0 <= k < n ==> list[k] == start + k
  }

  lemma RunsJoin(first: seq<nat>, more: seq<nat>, start: nat, m: nat, n: nat)
    requires CountsUp(first, start, m) && CountsUp(more, start + m, n)
    ensures CountsUp(first + more, start, m + n)
  {
  }

  /** A stage's ids count up from where StartOf says. */
  ghost predicate StagesCountUp(ids: (nat, nat) -> seq<nat>, count: (nat, nat) -> nat, ranks: nat, vp: nat) {
    forall p: nat, v: nat {:trigger ids(p, v)} :: p < ranks && v < vp ==>
        CountsUp(ids(p, v), StartOf(count, ranks, v, p), count(p, v))
  }

  lemma {:induction false} RowConsecutive(ids: (nat, nat) -> seq<nat>, count: (nat, nat) -> nat, ranks: nat, vp: nat,
                                          v: nat, p: nat)
    requires StagesCountUp(ids, count, ranks, vp) && v < vp && p <= ranks
    ensures CountsUp(RowIds(ids, v, p), RowsTo(count, ranks, v), RowTo(count, v, p))
  {
    if p > 0 {
      RowConsecutive(ids, count, ranks, vp, v, p - 1);
      RunsJoin(RowIds(ids, v, p - 1), ids(p - 1, v), RowsTo(count, ranks, v), RowTo(count, v, p - 1), count(p - 1, v));
    }
  }

  lemma {:induction false} RowsConsecutive(ids: (nat, nat) -> seq<nat>, count: (nat, nat) -> nat, ranks: nat, vp: nat,
                                           v: nat)
    requires StagesCountUp(ids, count, ranks, vp) && v <= vp
    ensures CountsUp(AllIds(ids, ranks, v), 0, RowsTo(count, ranks, v))
  {
    if v > 0 {
      RowsConsecutive(ids, count, ranks, vp, v - 1);
      RowConsecutive(ids, count, ranks, vp, v - 1, ranks);
      RunsJoin(AllIds(ids, ranks, v - 1), RowIds(ids, v - 1, ranks), 0, RowsTo(count, ranks, v - 1),
               RowTo(count, v - 1, ranks));
    }
  }

  /** Stage after stage, virtual stage by virtual stage, the ids count up to the total without gap or overlap. */
  lemma StagesConsecutive(counts: seq<seq<nat>>, vp: nat, layers: nat)
    requires Rectangular(counts, vp) && RowsTo(CountIn(counts), |counts|, vp) == layers
    ensures AllIds(IdsIn(counts, layers), |counts|, vp) == Range(0, layers)
  {
    var ids, count, ranks := IdsIn(counts, layers), CountIn(counts), |counts|;
    assert |counts[0]| == vp;
    forall p: nat, v: nat | p < ranks && v < vp ensures CountsUp(ids(p, v), StartOf(count, ranks, v, p), count(p, v)) {
      assert ids(p, v) == Range(StartOf(count, ranks, v, p), count(p, v));
    }
    RowsConsecutive(ids, count, ranks, vp, vp);
  }

  lemma {:induction false} RowOf(count: (nat, nat) -> nat, ranks: nat, v: nat, x: nat) returns (p: nat)
    requires x < RowTo(count, v, ranks)
    ensures p < ranks && RowTo(count, v, p) <= x < RowTo(count, v, p) + count(p, v)
  {
    if x >= RowTo(count, v, ranks - 1) {
      p := ranks - 1;
    } else {
      p := RowOf(count, ranks - 1, v, x);
    }
  }

  /** The stage an id belongs to. */
  lemma {:induction false} StageOfId(count: (nat, nat) -> nat, ranks: nat, vp: nat, id: nat) returns (p: nat, v: nat)
    requires id < RowsTo(count, ranks, vp)
    ensures p < ranks && v < vp && StartOf(count, ranks, v, p) <= id < StartOf(count, ranks, v, p) + count(p, v)
    decreases vp
  {
    if id >= RowsTo(count, ranks, vp - 1) {
      v := vp - 1;
      p := RowOf(count, ranks, v, id - RowsTo(count, ranks, v));
    } else {
      p, v := StageOfId(count, ranks, vp - 1, id);
    }
  }

  predicate InStage(counts: seq<seq<nat>>, layers: nat, p: nat, v: nat, id: nat) {
    StageIds(counts, layers, p, Some(v)).Ok? && id in StageIds(counts, layers, p, Some(v)).value
  }

  /** Every layer id below the total is in the range of exactly one stage. */
  lemma EveryLayerOneStage(counts: seq<seq<nat>>, vp: nat, layers: nat, id: nat) returns (p: nat, v: nat)
    requires Rectangular(counts, vp) && RowsTo(CountIn(counts), |counts|, vp) == layers && id < layers
    ensures p < |counts| && v < vp && InStage(counts, layers, p, v, id)
    ensures forall q: nat, w: nat :: q < |counts| && w < vp && InStage(counts, layers, q, w, id) ==> q == p && w == v
  {
    var count, ranks := CountIn(counts), |counts|;
    p, v := StageOfId(count, ranks, vp, id);
    assert Range(StartOf(count, ranks, v, p), count(p, v))[id - StartOf(count, ranks, v, p)] == id;
    forall q: nat, w: nat | q < ranks && w < vp && InStage(counts, layers, q, w, id) ensures q == p && w == v
    {
      StagesInOrder(count, ranks, vp, p, v, q, w);
      StagesInOrder(count, ranks, vp, q, w, p, v);
    }
  }

  // ----- what a split configuration means

  /** Settings that do not exclude each other, with positive sizes within the number of layers. */
  predicate Sane(cfg: Split) {
    && VpOf(cfg) > 0 && !((cfg.first.Some? || cfg.last.Some?) && (cfg.accountEmbed || cfg.accountLoss))
    && (cfg.first.Some? ==> cfg.first.value > 0) && (cfg.last.Some? ==> cfg.last.value > 0)
    && OrZero(cfg.first) + OrZero(cfg.last) <= cfg.layers
  }

  /** The embedding and the loss each count as a layer of the stage they are in. */
  function Slots(cfg: Split, counts: seq<seq<nat>>, p: nat, v: nat): nat
    requires p < |counts| && v < |counts[p]|
  {
    counts[p][v] + (if cfg.accountEmbed && p == 0 && v == 0 then 1 else 0)
    + (if cfg.accountLoss && p == |counts| - 1 && v == |counts[p]| - 1 then 1 else 0)
  }

  /** The rank's stages are of one size and have so many layers together. */
  predicate RankHas(cfg: Split, counts: seq<seq<nat>>, p: nat, size: int)
    requires p < |counts|
  {
    forall v :: 0 <= v < |counts[p]| ==> Slots(cfg, counts, p, v) * |counts[p]| == size
  }

  predicate EndRank(cfg: Split, p: nat) {
    (p == 0 && cfg.first.Some?) || (p == Ranks(cfg) - 1 && cfg.last.Some?)
  }

  /**
   A table with a row per rank and a stage per virtual stage: a rank with a size of its own
   has that many layers, the other ranks share the rest equally, and so do a rank's stages.
   */
  ghost predicate SharedAsSet(cfg: Split, counts: seq<seq<nat>>) {
    var n, vp := Ranks(cfg), VpOf(cfg);
    && vp > 0 && Rectangular(counts, vp) && |counts| == n
    && (cfg.last.Some? ==> RankHas(cfg, counts, n - 1, cfg.last.value))
    && (cfg.first.Some? && (n > 1 || cfg.last.None?) ==> RankHas(cfg, counts, 0, cfg.first.value))
    && (EndsGiven(cfg) ==> forall p, v :: 0 <= p < n && 0 <= v < vp && !EndRank(cfg, p) ==>
          (Slots(cfg, counts, p, v) * vp) * Middle(cfg) == cfg.layers - OrZero(cfg.first) - OrZero(cfg.last))
    && (!EndsGiven(cfg) ==> forall p, v :: 0 <= p < n && 0 <= v < vp ==>
          (Slots(cfg, counts, p, v) * vp) * n == Effective(cfg))
  }

  lemma RankSlots(cfg: Split, counts: seq<seq<nat>>, p: nat, v: nat)
    requires Sane(cfg) && SharedAsSet(cfg, counts) && p < Ranks(cfg) && v < VpOf(cfg)
    ensures SplitError(cfg).None? && Slots(cfg, counts, p, v) * VpOf(cfg) == PerRank(cfg, p)
    ensures PerRank(cfg, p) % VpOf(cfg) == 0 && PerRank(cfg, p) / VpOf(cfg) == Slots(cfg, counts, p, v)
    ensures StageCount(cfg, p, v) == counts[p][v]
  {
    NoSplitError(cfg, counts);
    var x := Slots(cfg, counts, p, v) * VpOf(cfg);
    if EndsGiven(cfg) && !EndRank(cfg, p) {
      DivModUnique(ToDistribute(cfg), x, 0, Middle(cfg));
    } else if !EndsGiven(cfg) {
      DivModUnique(Effective(cfg), x, 0, Ranks(cfg));
    }
    DivModUnique(PerRank(cfg, p), Slots(cfg, counts, p, v), 0, VpOf(cfg));
  }

  lemma NoSplitError(cfg: Split, counts: seq<seq<nat>>)
    requires Sane(cfg) && SharedAsSet(cfg, counts)
    ensures SplitError(cfg).None?
  {
    if EndsGiven(cfg) && Middle(cfg) > 0 {
      var p := if cfg.first.None? then 0 else if cfg.last.None? then Ranks(cfg) - 1 else 1;
      assert !EndRank(cfg, p);
      DivModUnique(ToDistribute(cfg), Slots(cfg, counts, p, 0) * VpOf(cfg), 0, Middle(cfg));
    } else if !EndsGiven(cfg) {
      DivModUnique(Effective(cfg), Slots(cfg, counts, 0, 0) * VpOf(cfg), 0, Ranks(cfg));
    }
  }

  lemma TableSlots(cfg: Split, p: nat, v: nat)
    requires Accepted(cfg) && p < Ranks(cfg) && v < VpOf(cfg)
    ensures Slots(cfg, Table(cfg), p, v) * VpOf(cfg) == PerRank(cfg, p)
    ensures EndsGiven(cfg) && !EndRank(cfg, p) ==> PerRank(cfg, p) * Middle(cfg) == ToDistribute(cfg)
    ensures !EndsGiven(cfg) ==> PerRank(cfg, p) * Ranks(cfg) == Effective(cfg)
  {
    assert Table(cfg)[p][v] == StageCount(cfg, p, v);
    DivModParts(PerRank(cfg, p), VpOf(cfg));
    if EndsGiven(cfg) && !EndRank(cfg, p) {
      DivModParts(ToDistribute(cfg), Middle(cfg));
    } else if !EndsGiven(cfg) {
      DivModParts(Effective(cfg), Ranks(cfg));
    }
  }

  lemma TableShares(cfg: Split)
    requires Accepted(cfg)
    ensures Sane(cfg) && SharedAsSet(cfg, Table(cfg))
  {
    forall p: nat, v: nat | p < Ranks(cfg) && v < VpOf(cfg)
      ensures Slots(cfg, Table(cfg), p, v) * VpOf(cfg) == PerRank(cfg, p)
      ensures EndsGiven(cfg) && !EndRank(cfg, p) ==> PerRank(cfg, p) * Middle(cfg) == ToDistribute(cfg)
      ensures !EndsGiven(cfg) ==> PerRank(cfg, p) * Ranks(cfg) == Effective(cfg)
    {
      TableSlots(cfg, p, v);
    }
  }

  /** The table is the one way to share the layers out as configured; a configuration with none is refused. */
  lemma TableIff(cfg: Split, counts: seq<seq<nat>>)
    ensures CountsOf(cfg) == Ok(counts) <==> Sane(cfg) && SharedAsSet(cfg, counts)
  {
    if CountsOf(cfg) == Ok(counts) {
      TableShares(cfg);
    }
    if Sane(cfg) && SharedAsSet(cfg, counts) {
      NoSplitError(cfg, counts);
      forall p: nat | p < Ranks(cfg) ensures PerRank(cfg, p) % VpOf(cfg) == 0 {
        RankSlots(cfg, counts, p, 0);
      }
      forall p: nat, v: nat | p < Ranks(cfg) && v < VpOf(cfg) ensures StageCount(cfg, p, v) == counts[p][v] {
        RankSlots(cfg, counts, p, v);
      }
      SameTable(cfg, counts);
    }
  }

  lemma SameTable(cfg: Split, counts: seq<seq<nat>>)
    requires Accepted(cfg) && Rectangular(counts, VpOf(cfg)) && |counts| == Ranks(cfg)
    requires forall p: nat, v: nat :: p < Ranks(cfg) && v < VpOf(cfg) ==> StageCount(cfg, p, v) == counts[p][v]
    ensures counts == Table(cfg)
  {
    forall p | 0 <= p < |counts| ensures counts[p] == Table(cfg)[p] {
    }
  }

  // ----- when a split configuration accounts for all layers

  function PerTo(cfg: Split, p: nat): int
    requires SplitError(cfg).None?
  {
    if p == 0 then 0 else PerTo(cfg, p - 1) + PerRank(cfg, p - 1)
  }

  function TakenFromRank(cfg: Split, p: nat): int {
    (if cfg.accountEmbed && p == 0 then 1 else 0) + (if cfg.accountLoss && p == Ranks(cfg) - 1 then 1 else 0)
  }

  lemma {:induction false} ColumnIs(cfg: Split, p: nat, v: nat)
    requires Accepted(cfg) && p < Ranks(cfg) && v <= VpOf(cfg)
    ensures ColumnTo(CountIn(Table(cfg)), p, v)
         == v * (PerRank(cfg, p) / VpOf(cfg))
            - (if cfg.accountEmbed && p == 0 && v > 0 then 1 else 0)
            - (if cfg.accountLoss && p == Ranks(cfg) - 1 && v == VpOf(cfg) then 1 else 0)
  {
    if v > 0 {
      ColumnIs(cfg, p, v - 1);
      assert CountIn(Table(cfg))(p, v - 1) == StageCount(cfg, p, v - 1);
      Arithmetic.Distribute(v - 1, 1, PerRank(cfg, p) / VpOf(cfg));
    }
  }

  lemma ExactQuotient(x: int, n: pos)
    requires x % n == 0
    ensures n * (x / n) == x
  {
  }

  lemma WholeColumn(cfg: Split, p: nat)
    requires Accepted(cfg) && p < Ranks(cfg)
    ensures ColumnTo(CountIn(Table(cfg)), p, VpOf(cfg)) == PerRank(cfg, p) - TakenFromRank(cfg, p)
  {
    ColumnIs(cfg, p, VpOf(cfg));
    ExactQuotient(PerRank(cfg, p), VpOf(cfg));
  }

  /** Every rank's column has the rank's layers but for those counted for the embedding and the loss. */
  ghost predicate ColumnsMatch(cfg: Split, count: (nat, nat) -> nat, vp: nat)
    requires SplitError(cfg).None?
  {
    forall p: nat :: p < Ranks(cfg) ==> ColumnTo(count, p, vp) == PerRank(cfg, p) - TakenFromRank(cfg, p)
  }

  lemma {:induction false} ColumnsAre(cfg: Split, count: (nat, nat) -> nat, vp: nat, p: nat)
    requires SplitError(cfg).None? && ColumnsMatch(cfg, count, vp) && p <= Ranks(cfg)
    ensures ColumnsTo(count, p, vp)
         == PerTo(cfg, p) - (if cfg.accountEmbed && p > 0 then 1 else 0)
            - (if cfg.accountLoss && p == Ranks(cfg) then 1 else 0)
  {
    if p > 0 {
      ColumnsAre(cfg, count, vp, p - 1);
      assert ColumnTo(count, p - 1, vp) == PerRank(cfg, p - 1) - TakenFromRank(cfg, p - 1);
    }
  }

  lemma TableColumns(cfg: Split)
    requires Accepted(cfg)
    ensures SplitError(cfg).None? && ColumnsMatch(cfg, CountIn(Table(cfg)), VpOf(cfg))
  {
    forall p: nat | p < Ranks(cfg)
      ensures ColumnTo(CountIn(Table(cfg)), p, VpOf(cfg)) == PerRank(cfg, p) - TakenFromRank(cfg, p)
    {
      WholeColumn(cfg, p);
    }
  }

  lemma {:induction false} EvenSplit(cfg: Split, p: nat)
    requires SplitError(cfg).None? && !EndsGiven(cfg)
    ensures PerTo(cfg, p) == p * (Effective(cfg) / Ranks(cfg))
  {
    if p > 0 {
      EvenSplit(cfg, p - 1);
      Arithmetic.Distribute(p - 1, 1, Effective(cfg) / Ranks(cfg));
    }
  }

  function MiddleLayers(cfg: Split): int { if Middle(cfg) > 0 then ToDistribute(cfg) / Middle(cfg) else 0 }

  lemma {:induction false} UnevenSplit(cfg: Split, p: nat)
    requires SplitError(cfg).None? && EndsGiven(cfg) && 0 < p < Ranks(cfg)
    ensures PerTo(cfg, p)
            == (if cfg.first.Some? then cfg.first.value else MiddleLayers(cfg)) + (p - 1) * MiddleLayers(cfg)
  {
    if p > 1 {
      UnevenSplit(cfg, p - 1);
      Arithmetic.Distribute(p - 2, 1, MiddleLayers(cfg));
    } else {
      assert PerTo(cfg, 0) == 0;
    }
  }

  lemma UnevenTotal(cfg: Split)
    requires SplitError(cfg).None? && EndsGiven(cfg) && Ranks(cfg) > 1
    ensures PerTo(cfg, Ranks(cfg)) == OrZero(cfg.first) + OrZero(cfg.last) + Middle(cfg) * MiddleLayers(cfg)
  {
    var n, mid := Ranks(cfg), MiddleLayers(cfg);
    UnevenSplit(cfg, n - 1);
    Arithmetic.Distribute(n - 2, 1, mid);
    Arithmetic.Distribute(n - 1, 1, mid);
  }

  /** First and last stage sizes leave nothing over. */
  predicate EndsFit(cfg: Split) { Middle(cfg) > 0 || (Middle(cfg) == 0 && ToDistribute(cfg) == 0) }

  lemma PerTotal(cfg: Split)
    requires SplitError(cfg).None?
    ensures !EndsGiven(cfg) ==> PerTo(cfg, Ranks(cfg)) == Effective(cfg)
    ensures EndsGiven(cfg) ==> (PerTo(cfg, Ranks(cfg)) == cfg.layers <==> EndsFit(cfg))
  {
    var n := Ranks(cfg);
    if !EndsGiven(cfg) {
      EvenSplit(cfg, n);
      Arithmetic.DivModParts(Effective(cfg), n);
    } else if n > 1 {
      UnevenTotal(cfg);
      if Middle(cfg) > 0 {
        Arithmetic.DivModParts(ToDistribute(cfg), Middle(cfg));
      }
    } else {
      assert PerTo(cfg, 0) == 0;
      assert PerTo(cfg, 1) == PerRank(cfg, 0);
    }
  }

  /** The stage counts add up to the number of layers unless fixed first and last stages leave layers to no one. */
  lemma TotalIffEndsFit(cfg: Split)
    requires Accepted(cfg)
    ensures RowsTo(CountIn(Table(cfg)), Ranks(cfg), VpOf(cfg)) == cfg.layers <==> !EndsGiven(cfg) || EndsFit(cfg)
  {
    SumEitherWay(CountIn(Table(cfg)), Ranks(cfg), VpOf(cfg));
    TableColumns(cfg);
    ColumnsAre(cfg, CountIn(Table(cfg)), VpOf(cfg), Ranks(cfg));
    PerTotal(cfg);
  }
}
