/** The cost optimizer: a tier recommendation with its overlay and citations. */
module Optimizer {
  import opened Options
  import opened Decimals
  import opened Bags
  import opened Learning

  datatype Task =
    | DocumentClassification | RequirementsExtraction | ArchitectureDecisions | RoutineCodeGeneration
    | ComplexAiSecurityDomain | CodeReview | ShortcutDetection | AcceptanceVerification | JudgmentOracleReview

  datatype RiskLevel = LowRisk | MediumRisk | HighRisk

  datatype Tier = CostEfficient | MidQuality | HighQuality | Frontier

  // A recommended tier, or none while a hold lasts.
  datatype Advice = Use(tier: Tier) | Hold

  datatype Overlay = NoOverlay | BudgetHold | ToolDenyHold | ReworkBump

  datatype Flags = Flags(cheapFirst: bool, frontierForHigh: bool, useCache: bool)

  // A published row; the metric is in millionths.
  datatype PublishedBucket = PublishedBucket(signal: Signal, key: nat, events: int, metric: Option<nat>, id: nat)

  // Task and risk are None when unknown; a tool is its position in the tool list.
  datatype Input = Input(task: Option<Task>, risk: Option<RiskLevel>, ambiguityHigh: bool, flags: Flags, tool: Option<nat>,
                         stopped: bool, buckets: seq<PublishedBucket>)

  datatype Recommendation = Recommendation(base: Tier, clamped: Tier, advice: Advice, overlay: Overlay, cacheHint: bool,
                                           multipleReviewers: bool, modelDiversity: bool, cited: seq<PublishedBucket>)

  datatype OptimizerError = UnknownTask | UnknownRisk | UnknownTool

  const TOOL_KEYS := 13
  const COST_INFERENCE := 0 // cost:model_inference
  const COST_REWORK := 7 // cost:rework

  function Rank(t: Tier): nat {
    match t
    case CostEfficient => 0
    case MidQuality => 1
    case HighQuality => 2
    case Frontier => 3
  }

  function PolicyTier(t: Task): Tier {
    match t
    case DocumentClassification => CostEfficient
    case RequirementsExtraction => MidQuality
    case ArchitectureDecisions => Frontier
    case RoutineCodeGeneration => CostEfficient
    case ComplexAiSecurityDomain => Frontier
    case CodeReview => MidQuality
    case ShortcutDetection => HighQuality
    case AcceptanceVerification => HighQuality
    case JudgmentOracleReview => MidQuality
  }

  predicate FrontierFloor(t: Task) {
    t in {ArchitectureDecisions, ComplexAiSecurityDomain}
  }

  predicate HighFloor(t: Task) {
    t in {ShortcutDetection, AcceptanceVerification}
  }

  predicate IsReview(t: Task) {
    t in {CodeReview, ShortcutDetection, AcceptanceVerification, JudgmentOracleReview}
  }

  function BaseTier(t: Task, ambiguityHigh: bool): Tier {
    if t == DocumentClassification && ambiguityHigh then MidQuality else PolicyTier(t)
  }

  function Demote(t: Tier): Tier {
    match t
    case CostEfficient => CostEfficient
    case MidQuality => CostEfficient
    case HighQuality => MidQuality
    case Frontier => HighQuality
  }

  function Promote(t: Tier): Tier {
    match t
    case CostEfficient => MidQuality
    case MidQuality => HighQuality
    case HighQuality => Frontier
    case Frontier => Frontier
  }

  function AtLeast(t: Tier, floor: Tier): Tier {
    if Rank(t) < Rank(floor) then floor else t
  }

  // ---- bucket searches ----

  // Half or more of the calls of the tool were denied.
  predicate DenyHit(b: PublishedBucket, tool: nat) {
    && b.signal == ToolReliability && b.key == tool && b.events > 0 && b.metric.Some?
    && NotBelow(Quotient(b.metric.value, b.events), Decimal(500_000, 0))
  }

  predicate IsCost(b: PublishedBucket, key: nat) {
    b.signal == CostAndLatency && b.key == key
  }

  function FirstHit(bs: seq<PublishedBucket>, tool: nat): Option<PublishedBucket> {
    if bs == [] then None
    else if DenyHit(bs[0], tool) then Some(bs[0])
    else FirstHit(bs[1..], tool)
  }

  function FirstCost(bs: seq<PublishedBucket>, key: nat): Option<PublishedBucket> {
    if bs == [] then None
    else if IsCost(bs[0], key) then Some(bs[0])
    else FirstCost(bs[1..], key)
  }

  // The two cost rows, if the mean rework cost is at least the mean inference cost.
  predicate ReworkHeavy(rework: PublishedBucket, inference: PublishedBucket) {
    && rework.events > 0 && inference.events > 0 && rework.metric.Some? && inference.metric.Some?
    && NotBelow(Quotient(rework.metric.value, rework.events), Quotient(inference.metric.value, inference.events))
  }

  /** Below four times ten to the 21 calls, the rounded quotient says exactly that half or more were denied; the metric
      counts denials in millionths. */
  lemma DenyHitMeans(b: PublishedBucket, tool: nat)
    requires b.events < 4 * MANY_CALLS
    ensures DenyHit(b, tool) <==>
              b.signal == ToolReliability && b.key == tool && b.events > 0 && b.metric.Some?
              && 2 * b.metric.value >= 1_000_000 * b.events
  {
    hide HalfEven, Shift;
    assert Pow10(0) == 1;
    if b.events > 0 && b.metric.Some? && b.metric.value > 0 {
      var a, p := b.metric.value, Pow10(Shift(b.metric.value, b.events, 0));
      if a < 500_000 * b.events {
        FewDenials(a, b.events, p);
      }
      RoundedAtLeast(a, b.events, 500_000, p);
    }
  }

  const MANY_CALLS: nat := 1_000_000_000_000_000_000_000 // ten to the 21

  lemma FewDenials(a: nat, events: nat, p: nat)
    requires a < 500_000 * events && events < 4 * MANY_CALLS && a * p * 10 >= CONTEXT * events
    ensures events < 2 * p
  {
    MulLe(a, 500_000 * events, p);
    assert 500_000 * events * p * 10 == (5_000_000 * p) * events;
    if 5_000_000 * p < CONTEXT {
      ScaleLess(5_000_000 * p, CONTEXT, events);
    }
  }

  /** Where the inference sum times the number of rework calls has at most 27 digits, the two rounded means compare as
      the exact ones do. In any case the test holds when the exact rework mean is at least the exact inference mean. */
  lemma ReworkHeavyMeans(rework: PublishedBucket, inference: PublishedBucket)
    requires rework.metric.Some? && inference.metric.Some? && rework.events > 0 && inference.events > 0
    ensures rework.metric.value * inference.events >= inference.metric.value * rework.events ==> ReworkHeavy(rework, inference)
    ensures inference.metric.value * rework.events < TENTH ==>
              (ReworkHeavy(rework, inference)
               <==> rework.metric.value * inference.events >= inference.metric.value * rework.events)
  {
    hide Quotient, NotBelow;
    var a, b, c, d := rework.metric.value, rework.events, inference.metric.value, inference.events;
    if a * d >= c * b {
      QuotientGrows(a, b, c, d);
    } else if c * b < TENTH {
      QuotientSeparates(a, b, c, d);
    }
  }

  function ReworkPair(t: Task, bs: seq<PublishedBucket>): Option<(PublishedBucket, PublishedBucket)> {
    var rework, inference := FirstCost(bs, COST_REWORK), FirstCost(bs, COST_INFERENCE);
    if IsReview(t) && rework.Some? && inference.Some? && ReworkHeavy(rework.value, inference.value) then
      Some((rework.value, inference.value))
    else None
  }

  method FindHit(bs: seq<PublishedBucket>, tool: nat) returns (hit: Option<PublishedBucket>)
    ensures hit == FirstHit(bs, tool)
  {
    hide DenyHit;
    for i := 0 to |bs|
      invariant FirstHit(bs, tool) == FirstHit(bs[i..], tool)
    {
      assert bs[i..][1..] == bs[i + 1..];
      if DenyHit(bs[i], tool) {
        return Some(bs[i]);
      }
    }
    return None;
  }

  method FindCost(bs: seq<PublishedBucket>, key: nat) returns (found: Option<PublishedBucket>)
    ensures found == FirstCost(bs, key)
  {
    for i := 0 to |bs|
      invariant FirstCost(bs, key) == FirstCost(bs[i..], key)
    {
      assert bs[i..][1..] == bs[i + 1..];
      if IsCost(bs[i], key) {
        return Some(bs[i]);
      }
    }
    return None;
  }

  // ---- the recommendation ----

  // The floor a cheap-first demotion may not go below.
  function Floored(t: Task, ambiguityHigh: bool, tier: Tier): Tier {
    if FrontierFloor(t) then AtLeast(tier, Frontier)
    else if HighFloor(t) then AtLeast(tier, HighQuality)
    else if t == DocumentClassification && ambiguityHigh then AtLeast(tier, MidQuality)
    else tier
  }

  function Clamp(t: Task, risk: RiskLevel, ambiguityHigh: bool, flags: Flags): Tier {
    var base := BaseTier(t, ambiguityHigh);
    if flags.cheapFirst && risk == LowRisk then Floored(t, ambiguityHigh, Demote(base))
    else if flags.frontierForHigh && risk == HighRisk then if t == CodeReview then Frontier else Promote(base)
    else base
  }

  function Overlaid(inp: Input, t: Task, clamped: Tier): (Overlay, seq<PublishedBucket>, Advice) {
    var hit := if inp.tool.Some? then FirstHit(inp.buckets, inp.tool.value) else None;
    var pair := ReworkPair(t, inp.buckets);
    if inp.stopped then (BudgetHold, [], Hold)
    else if hit.Some? then (ToolDenyHold, [hit.value], Hold)
    else if pair.Some? then (ReworkBump, [pair.value.0, pair.value.1], Use(Promote(clamped)))
    else (NoOverlay, [], Use(clamped))
  }

  predicate InputOk(inp: Input) {
    inp.task.Some? && inp.risk.Some? && (inp.tool.Some? ==> inp.tool.value < TOOL_KEYS)
  }

  function Recommended(inp: Input): Recommendation
    requires InputOk(inp)
  {
    var t := inp.task.value;
    var clamped := Clamp(t, inp.risk.value, inp.ambiguityHigh, inp.flags);
    var (overlay, cited, advice) := Overlaid(inp, t, clamped);
    Recommendation(BaseTier(t, inp.ambiguityHigh), clamped, advice, overlay, inp.flags.useCache,
                   t == JudgmentOracleReview, t == JudgmentOracleReview, cited)
  }

  method EvaluateRecommendation(inp: Input) returns (r: Result<Recommendation, OptimizerError>)
    ensures r.Ok? <==> InputOk(inp)
    ensures r.Ok? ==> r.value == Recommended(inp)
    ensures r.Err? ==> r.error == if inp.task.None? then UnknownTask else if inp.risk.None? then UnknownRisk else UnknownTool
  {
    hide FirstHit, FirstCost, ReworkHeavy;
    if inp.task.None? {
      return Err(UnknownTask);
    }
    if inp.risk.None? {
      return Err(UnknownRisk);
    }
    if inp.tool.Some? && inp.tool.value >= TOOL_KEYS {
      return Err(UnknownTool);
    }
    var t, risk := inp.task.value, inp.risk.value;
    var base := BaseTier(t, inp.ambiguityHigh);
    var clamped := base;
    if inp.flags.cheapFirst && risk == LowRisk {
      clamped := Demote(clamped);
      clamped := Floored(t, inp.ambiguityHigh, clamped);
    }
    if inp.flags.frontierForHigh && risk == HighRisk {
      if t == CodeReview {
        clamped := Frontier;
      } else {
        clamped := Promote(clamped);
      }
    }
    var judgment := t == JudgmentOracleReview;
    if inp.stopped {
      return Ok(Recommendation(base, clamped, Hold, BudgetHold, inp.flags.useCache, judgment, judgment, []));
    }
    if inp.tool.Some? {
      var hit := FindHit(inp.buckets, inp.tool.value);
      if hit.Some? {
        return Ok(Recommendation(base, clamped, Hold, ToolDenyHold, inp.flags.useCache, judgment, judgment, [hit.value]));
      }
    }
    if IsReview(t) {
      var rework := FindCost(inp.buckets, COST_REWORK);
      var inference := FindCost(inp.buckets, COST_INFERENCE);
      if rework.Some? && inference.Some? && ReworkHeavy(rework.value, inference.value) {
        return Ok(Recommendation(base, clamped, Use(Promote(clamped)), ReworkBump, inp.flags.useCache, judgment, judgment,
                                 [rework.value, inference.value]));
      }
    }
    return Ok(Recommendation(base, clamped, Use(clamped), NoOverlay, inp.flags.useCache, judgment, judgment, []));
  }

  // ---- what the stored row must satisfy ----

  // The latest aggregate run: its stored count and its published buckets.
  datatype AggregateRun = AggregateRun(count: nat, buckets: seq<PublishedBucket>)

  // What the repository passes on; without a run there is nothing to pass on or to count.
  function PublishedView(latest: Option<AggregateRun>): seq<PublishedBucket> {
    if latest.None? then [] else latest.value.buckets
  }

  function PublishedCount(latest: Option<AggregateRun>): nat {
    if latest.None? then 0 else latest.value.count
  }

  // The CHECKs of cost_optimizer_runs on overlay, tiers, citations, judgment and the aggregate run.
  predicate RunChecks(inp: Input, latest: Option<AggregateRun>, r: Recommendation)
    requires InputOk(inp)
  {
    && ((latest.None? && PublishedCount(latest) == 0 && |r.cited| == 0) || latest.Some?)
    && (r.advice.Hold? <==> r.overlay in {BudgetHold, ToolDenyHold})
    && (r.overlay == NoOverlay ==> r.advice == Use(r.clamped))
    && (r.overlay == ReworkBump ==> !r.advice.Hold?)
    && ((r.overlay in {NoOverlay, BudgetHold} && |r.cited| == 0) || (r.overlay == ToolDenyHold && |r.cited| == 1)
        || (r.overlay == ReworkBump && |r.cited| == 2))
    && (r.overlay == ToolDenyHold ==> inp.tool.Some?)
    && (inp.task == Some(JudgmentOracleReview) ==> r.multipleReviewers && r.modelDiversity)
    && (inp.task != Some(JudgmentOracleReview) ==> !r.multipleReviewers && !r.modelDiversity)
  }

  // count(*) of the citations of one class and key.
  function CitedUnder(cited: seq<PublishedBucket>, signal: Signal, key: nat): nat {
    |set i | 0 <= i < |cited| && cited[i].signal == signal && cited[i].key == key|
  }

  // The citation guard: every citation is a published row, and they have the shape of the overlay.
  predicate CitationsOk(inp: Input, r: Recommendation) {
    && (forall b :: b in r.cited ==> b in inp.buckets)
    && (r.overlay == ToolDenyHold ==> inp.tool.Some? && CitedUnder(r.cited, ToolReliability, inp.tool.value) == 1)
    && (r.overlay == ReworkBump ==>
          && CitedUnder(r.cited, CostAndLatency, COST_REWORK) == 1
          && CitedUnder(r.cited, CostAndLatency, COST_INFERENCE) == 1)
  }

  lemma {:induction false} FirstHitIsHit(bs: seq<PublishedBucket>, tool: nat)
    ensures match FirstHit(bs, tool)
            case Some(b) => b in bs && DenyHit(b, tool)
            case None => forall b :: b in bs ==> !DenyHit(b, tool)
  {
    hide DenyHit;
    if bs != [] {
      FirstHitIsHit(bs[1..], tool);
      assert bs == [bs[0]] + bs[1..];
    }
  }

  lemma {:induction false} FirstCostIsCost(bs: seq<PublishedBucket>, key: nat)
    ensures match FirstCost(bs, key)
            case Some(b) => b in bs && IsCost(b, key)
            case None => forall b :: b in bs ==> !IsCost(b, key)
  {
    if bs != [] {
      FirstCostIsCost(bs[1..], key);
      assert bs == [bs[0]] + bs[1..];
    }
  }

  lemma CitedOnce(b: PublishedBucket)
    ensures CitedUnder([b], b.signal, b.key) == 1
  {
    assert (set i | 0 <= i < |[b]| && [b][i].signal == b.signal && [b][i].key == b.key) == {0};
  }

  lemma CitedOnceEach(b: PublishedBucket, c: PublishedBucket)
    requires b.key != c.key
    ensures CitedUnder([b, c], b.signal, b.key) == 1 && CitedUnder([b, c], c.signal, c.key) == 1
  {
    var cited := [b, c];
    assert (set i | 0 <= i < |cited| && cited[i].signal == b.signal && cited[i].key == b.key) == {0};
    assert (set i | 0 <= i < |cited| && cited[i].signal == c.signal && cited[i].key == c.key) == {1};
  }

  lemma NothingFound(inp: Input)
    requires InputOk(inp)
    ensures inp.buckets == [] ==> Recommended(inp).cited == []
  {
  }

  /** Over the buckets of any aggregate run, or of none, the recommendation can be stored: its row passes the CHECKs and
      its citations pass the citation guard. */
  lemma RecommendationCanBeStored(inp: Input, latest: Option<AggregateRun>)
    requires InputOk(inp) && inp.buckets == PublishedView(latest)
    ensures RunChecks(inp, latest, Recommended(inp)) && CitationsOk(inp, Recommended(inp))
  {
    hide FirstHit, FirstCost, ReworkHeavy, NotBelow, CitedUnder, Clamp, BaseTier;
    var r := Recommended(inp);
    if inp.tool.Some? {
      FirstHitIsHit(inp.buckets, inp.tool.value);
    }
    FirstCostIsCost(inp.buckets, COST_REWORK);
    FirstCostIsCost(inp.buckets, COST_INFERENCE);
    NothingFound(inp);
    if r.overlay == ToolDenyHold {
      CitedOnce(r.cited[0]);
    } else if r.overlay == ReworkBump {
      CitedOnceEach(r.cited[0], r.cited[1]);
    }
  }

  /** Work with a floor is held or done at its floor or above: frontier for architecture and complex security work,
      high quality for shortcut detection and acceptance verification. */
  lemma FloorsHold(inp: Input)
    requires InputOk(inp)
    ensures var advice := Recommended(inp).advice;
            && (FrontierFloor(inp.task.value) ==> advice in {Hold, Use(Frontier)})
            && (HighFloor(inp.task.value) ==> advice in {Hold, Use(HighQuality), Use(Frontier)})
  {
    hide FirstHit, ReworkPair;
    match inp.task.value
    case ArchitectureDecisions =>
    case ComplexAiSecurityDomain =>
    case ShortcutDetection =>
    case AcceptanceVerification =>
    case _ =>
  }

  // ---- the order of the buckets ----

  // At most one bucket for each class and key, as one snapshot has.
  predicate OnePerKey(bs: seq<PublishedBucket>) {
    forall b, c :: b in bs && c in bs && b.signal == c.signal && b.key == c.key ==> b == c
  }

  lemma SameSearches(a: seq<PublishedBucket>, b: seq<PublishedBucket>)
    requires multiset(a) == multiset(b) && OnePerKey(a)
    ensures forall tool :: FirstHit(a, tool) == FirstHit(b, tool)
    ensures forall key :: FirstCost(a, key) == FirstCost(b, key)
  {
    hide FirstHit, FirstCost, NotBelow;
    BagMembers(a, b);
    forall tool ensures FirstHit(a, tool) == FirstHit(b, tool) {
      FirstHitIsHit(a, tool);
      FirstHitIsHit(b, tool);
    }
    forall key ensures FirstCost(a, key) == FirstCost(b, key) {
      FirstCostIsCost(a, key);
      FirstCostIsCost(b, key);
    }
  }

  /** With at most one bucket per class and key, the order of the buckets does not matter. */
  lemma RecommendationIgnoresOrder(inp: Input, buckets: seq<PublishedBucket>)
    requires InputOk(inp) && multiset(inp.buckets) == multiset(buckets) && OnePerKey(inp.buckets)
    ensures Recommended(inp.(buckets := buckets)) == Recommended(inp)
  {
    hide FirstHit, FirstCost, ReworkHeavy, Clamp, BaseTier, OnePerKey;
    SameSearches(inp.buckets, buckets);
  }
}
