/** The optimizer's recommendation as tables: the tier of each task, the clamp by risk, and when each overlay applies. */
module OptimizerRules {
  import opened Options
  import opened Learning
  import opened Optimizer

  /** The policy tier of each task; a document classification of high ambiguity takes the next one. */
  lemma BaseMeans(inp: Input)
    requires InputOk(inp)
    ensures Recommended(inp).base ==
            match inp.task.value
            case DocumentClassification => if inp.ambiguityHigh then MidQuality else CostEfficient
            case RequirementsExtraction => MidQuality
            case ArchitectureDecisions => Frontier
            case RoutineCodeGeneration => CostEfficient
            case ComplexAiSecurityDomain => Frontier
            case CodeReview => MidQuality
            case ShortcutDetection => HighQuality
            case AcceptanceVerification => HighQuality
            case JudgmentOracleReview => MidQuality
  {
    hide Clamp, Overlaid;
  }

  /** Cheap first at low risk goes one tier down, short of the floors; frontier first at high risk goes one tier up, and
      a code review to the top; anything else keeps its tier. */
  lemma ClampMeans(inp: Input)
    requires InputOk(inp)
    ensures var r, t := Recommended(inp), inp.task.value;
            r.clamped ==
            if inp.flags.cheapFirst && inp.risk.value == LowRisk then
              match t
              case ArchitectureDecisions => Frontier
              case ComplexAiSecurityDomain => Frontier
              case ShortcutDetection => HighQuality
              case AcceptanceVerification => HighQuality
              case DocumentClassification => if inp.ambiguityHigh then MidQuality else CostEfficient
              case _ => CostEfficient
            else if inp.flags.frontierForHigh && inp.risk.value == HighRisk then
              match t
              case DocumentClassification => if inp.ambiguityHigh then HighQuality else MidQuality
              case RequirementsExtraction => HighQuality
              case RoutineCodeGeneration => MidQuality
              case JudgmentOracleReview => HighQuality
              case _ => Frontier
            else r.base
  {
    hide Overlaid;
  }

  /** One tier down or up, and no further than the ends. */
  lemma TierSteps(t: Tier)
    ensures Demote(t) == if t == Frontier then HighQuality else if t == HighQuality then MidQuality else CostEfficient
    ensures Promote(t) == if t == CostEfficient then MidQuality else if t == MidQuality then HighQuality else Frontier
  {
  }

  // The first bucket at which the tool is denied too often.
  predicate FirstDenied(bs: seq<PublishedBucket>, tool: nat, i: int) {
    0 <= i < |bs| && DenyHit(bs[i], tool) && forall j :: 0 <= j < i ==> !DenyHit(bs[j], tool)
  }

  // The first cost row of the key.
  predicate FirstRow(bs: seq<PublishedBucket>, key: nat, i: int) {
    && 0 <= i < |bs| && bs[i].signal == CostAndLatency && bs[i].key == key
    && forall j :: 0 <= j < i ==> bs[j].signal != CostAndLatency || bs[j].key != key
  }

  lemma {:induction false} FirstHitIs(bs: seq<PublishedBucket>, tool: nat)
    ensures match FirstHit(bs, tool)
            case Some(b) => exists i :: FirstDenied(bs, tool, i) && bs[i] == b
            case None => forall b :: b in bs ==> !DenyHit(b, tool)
  {
    hide DenyHit;
    if bs != [] {
      FirstHitIs(bs[1..], tool);
      if DenyHit(bs[0], tool) {
        assert FirstDenied(bs, tool, 0);
      } else if FirstHit(bs[1..], tool).Some? {
        var i :| FirstDenied(bs[1..], tool, i) && bs[1..][i] == FirstHit(bs[1..], tool).value;
        assert forall j :: 0 < j < i + 1 ==> bs[j] == bs[1..][j - 1];
        assert FirstDenied(bs, tool, i + 1);
      }
    }
  }

  lemma {:induction false} FirstCostIs(bs: seq<PublishedBucket>, key: nat)
    ensures match FirstCost(bs, key)
            case Some(b) => exists i :: FirstRow(bs, key, i) && bs[i] == b
            case None => forall b :: b in bs ==> b.signal != CostAndLatency || b.key != key
  {
    if bs != [] {
      FirstCostIs(bs[1..], key);
      if IsCost(bs[0], key) {
        assert FirstRow(bs, key, 0);
      } else if FirstCost(bs[1..], key).Some? {
        var i :| FirstRow(bs[1..], key, i) && bs[1..][i] == FirstCost(bs[1..], key).value;
        assert forall j :: 0 < j < i + 1 ==> bs[j] == bs[1..][j - 1];
        assert FirstRow(bs, key, i + 1);
      }
    }
  }

  lemma OneFirstRow(bs: seq<PublishedBucket>, key: nat, i: int)
    requires FirstRow(bs, key, i)
    ensures FirstCost(bs, key) == Some(bs[i])
  {
    FirstCostIs(bs, key);
    assert bs[i] in bs;
    var k :| FirstRow(bs, key, k) && bs[k] == FirstCost(bs, key).value;
    assert k == i;
  }

  predicate Reviewing(t: Task) {
    t == CodeReview || t == ShortcutDetection || t == AcceptanceVerification || t == JudgmentOracleReview
  }

  // The first rework row and the first inference row, which make the rework heavy.
  predicate HeavyRows(bs: seq<PublishedBucket>, i: int, j: int) {
    FirstRow(bs, 7, i) && FirstRow(bs, 0, j) && ReworkHeavy(bs[i], bs[j])
  }

  predicate Held(inp: Input) {
    inp.stopped || (inp.tool.Some? && exists b :: b in inp.buckets && DenyHit(b, inp.tool.value))
  }

  /** A stopped budget holds; else a bucket that denies the tool too often; else a review whose rework is heavy goes one
      tier above the clamp; else the clamp stands. */
  lemma OverlayMeans(inp: Input)
    requires InputOk(inp)
    ensures var r, bs := Recommended(inp), inp.buckets;
            && (r.overlay == BudgetHold <==> inp.stopped)
            && (r.overlay == ToolDenyHold <==> !inp.stopped && Held(inp))
            && (r.overlay == ReworkBump <==>
                  !Held(inp) && Reviewing(inp.task.value) && exists i, j :: HeavyRows(bs, i, j))
            && (r.advice == Hold <==> Held(inp))
            && (r.overlay == NoOverlay ==> r.advice == Use(r.clamped))
            && (r.overlay == ReworkBump ==>
                  r.advice == Use(match r.clamped
                                  case CostEfficient => MidQuality
                                  case MidQuality => HighQuality
                                  case HighQuality => Frontier
                                  case Frontier => Frontier))
  {
    hide Clamp, BaseTier, DenyHit, ReworkHeavy, FirstHit, FirstCost;
    Searches(inp);
  }

  // What the three searches find.
  lemma Searches(inp: Input)
    ensures inp.tool.Some? ==>
              (FirstHit(inp.buckets, inp.tool.value).Some? <==> exists b :: b in inp.buckets && DenyHit(b, inp.tool.value))
    ensures forall t :: ReworkPair(t, inp.buckets).Some? <==> Reviewing(t) && exists i, j :: HeavyRows(inp.buckets, i, j)
  {
    hide DenyHit, ReworkHeavy, FirstHit, FirstCost;
    var bs := inp.buckets;
    if inp.tool.Some? {
      FirstHitIs(bs, inp.tool.value);
      if i :| FirstDenied(bs, inp.tool.value, i) {
        assert bs[i] in bs;
      }
    }
    FirstCostIs(bs, 7);
    FirstCostIs(bs, 0);
    forall i, j | HeavyRows(bs, i, j)
      ensures FirstCost(bs, 7) == Some(bs[i]) && FirstCost(bs, 0) == Some(bs[j])
    {
      OneFirstRow(bs, 7, i);
      OneFirstRow(bs, 0, j);
    }
    if FirstCost(bs, 7).Some? && FirstCost(bs, 0).Some? && ReworkHeavy(FirstCost(bs, 7).value, FirstCost(bs, 0).value) {
      var i :| FirstRow(bs, 7, i) && bs[i] == FirstCost(bs, 7).value;
      var j :| FirstRow(bs, 0, j) && bs[j] == FirstCost(bs, 0).value;
      assert HeavyRows(bs, i, j);
    }
  }

  /** A denial cites the first bucket that denies the tool, heavy rework the first rework and the first inference row, and
      nothing else is cited. The cache hint repeats its flag, and judgment work alone asks for several and diverse
      reviewers. */
  lemma CitationsMean(inp: Input)
    requires InputOk(inp)
    ensures var r, bs := Recommended(inp), inp.buckets;
            && (r.overlay == ToolDenyHold ==>
                  inp.tool.Some? && exists i :: FirstDenied(bs, inp.tool.value, i) && r.cited == [bs[i]])
            && (r.overlay == ReworkBump ==> exists i, j :: HeavyRows(bs, i, j) && r.cited == [bs[i], bs[j]])
            && (r.overlay == NoOverlay || r.overlay == BudgetHold ==> r.cited == [])
            && r.cacheHint == inp.flags.useCache
            && r.multipleReviewers == r.modelDiversity == (inp.task == Some(JudgmentOracleReview))
  {
    hide Clamp, BaseTier, DenyHit, ReworkHeavy, FirstHit, FirstCost;
    var bs := inp.buckets;
    if inp.tool.Some? {
      FirstHitIs(bs, inp.tool.value);
    }
    FirstCostIs(bs, 7);
    FirstCostIs(bs, 0);
    if Recommended(inp).overlay == ReworkBump {
      var i :| FirstRow(bs, 7, i) && bs[i] == FirstCost(bs, 7).value;
      var j :| FirstRow(bs, 0, j) && bs[j] == FirstCost(bs, 0).value;
      assert HeavyRows(bs, i, j);
    }
  }

  /** An input is accepted exactly when its task and risk are known and its tool, if any, is one of the thirteen. */
  lemma InputMeans(inp: Input)
    ensures InputOk(inp) <==> inp.task.Some? && inp.risk.Some? && (inp.tool.None? || inp.tool.value <= 12)
  {
  }
}
