/** What each line adds to a forecast, what makes the inputs acceptable, and what the digests are taken of. */
module CostForecastLines {
  import opened Options
  import opened Decimals
  import opened Bags
  import opened CostForecast
  import opened CostForecastLaws

  // ---- what a line adds ----

  // The amount in micro-dollars: at most 999,999,999,999.999999.
  predicate InRange(raw: Raw) {
    raw.Some? && 0 <= raw.value <= 999_999_999_999_999_999
  }

  predicate PositiveInRange(raw: Raw) {
    raw.Some? && 1 <= raw.value <= 999_999_999_999_999_999
  }

  /** Without lines every forecast is nothing. */
  lemma NothingForecast(i: ForecastInput, c: Component, today: bool)
    requires i.ledger == [] && i.assumptions == [] && i.models == []
    ensures Forecast(i, c, today) == 0
  {
  }

  /** A ledger event adds its amount to its own component, and to today's forecast only if it occurred on the day of
      the forecast. */
  lemma EventAdds(i: ForecastInput, l: LedgerLine, c: Component, today: bool)
    requires i.asOf.Some? && InRange(l.amount) && l.occurredAt.Some?
    ensures Forecast(i.(ledger := i.ledger + [l]), c, today) - Forecast(i, c, today) ==
              if l.component == Some(c)
                 && (today ==> l.occurredAt.value / 86_400_000_000 == i.asOf.value / 86_400_000_000)
              then l.amount.value else 0
  {
    hide Assumed, ModelCost;
    assert (i.ledger + [l])[..|i.ledger|] == i.ledger;
  }

  /** A declared assumption adds its total, or what it declares for today, to its own component; model inference is
      priced from its lines instead. */
  lemma AssumptionAdds(i: ForecastInput, l: Assumption, c: Component, today: bool)
    requires InRange(l.total) && InRange(l.today)
    ensures Forecast(i.(assumptions := i.assumptions + [l]), c, today) - Forecast(i, c, today) ==
              if l.component == Some(c) && c != ModelInference then (if today then l.today.value else l.total.value) else 0
  {
    hide Incurred, ModelCost;
    assert (i.assumptions + [l])[..|i.assumptions|] == i.assumptions;
  }

  predicate InIntegerRange(n: Option<int>) {
    n.Some? && 0 <= n.value <= 2_147_483_647
  }

  /** A model line adds to model inference, and to nothing else, its tokens at its rates per thousand, rounded half up
      to a micro-dollar. */
  lemma ModelLineAdds(i: ForecastInput, l: ModelLine, c: Component, today: bool)
    requires InIntegerRange(l.input) && InIntegerRange(l.output)
    requires InIntegerRange(l.todayInput) && InIntegerRange(l.todayOutput)
    requires InRange(l.inputRate) && InRange(l.outputRate)
    ensures Forecast(i.(models := i.models + [l]), c, today) - Forecast(i, c, today) ==
              if c != ModelInference then 0
              else if today then
                HalfUp(l.todayInput.value * l.inputRate.value + l.todayOutput.value * l.outputRate.value, 1000)
              else HalfUp(l.input.value * l.inputRate.value + l.output.value * l.outputRate.value, 1000)
  {
    hide Incurred, Assumed, CostOf, HalfUp;
    assert (i.models + [l])[..|i.models|] == i.models;
    CostOfIsExact(l, today);
  }

  // ---- what is acceptable ----

  // "sha256:" and sixty-four hexadecimal digits.
  predicate HexDigest(s: string) {
    |s| == 71 && s[..7] == "sha256:" && forall k :: 7 <= k < 71 ==> s[k] in "0123456789abcdef"
  }

  lemma Sha256Means(s: string)
    ensures IsSha256(s) <==> HexDigest(s)
  {
  }

  predicate SumsInRange(lines: seq<LedgerLine>, asOf: int) {
    forall c: Component ::
      && Incurred(lines, c, None) <= 999_999_999_999_999_999
      && Incurred(lines, c, Some(asOf / 86_400_000_000)) <= 999_999_999_999_999_999
  }

  /** A ledger is accepted exactly when it has 1 to 50,000 events with distinct ids, each of a known component, with
      the database's provenance, a digest, a time not after the forecast's, and an amount in range, and no component's
      total, in all or today, leaves the range. */
  lemma LedgerAccepted(lines: seq<LedgerLine>, asOf: int)
    ensures LedgerOk(lines, asOf) <==>
            && 1 <= |lines| <= 50_000
            && (forall j, k :: 0 <= j < k < |lines| ==> lines[j].eventId != lines[k].eventId)
            && (forall l :: l in lines ==>
                  && l.component.Some? && l.provenance == "db_bound_incurred_cost_events" && HexDigest(l.digest)
                  && l.occurredAt.Some? && l.occurredAt.value <= asOf && InRange(l.amount))
            && SumsInRange(lines, asOf)
  {
    hide IsSha256, HexDigest;
    forall s: string ensures IsSha256(s) <==> HexDigest(s) {
      Sha256Means(s);
    }
  }

  /** Assumptions are accepted exactly when there are eight, for distinct components, each with the reported
      provenance, amounts in range, no more today than in all, and none for model inference. */
  lemma AssumptionsAccepted(lines: seq<Assumption>)
    ensures AssumptionsOk(lines) <==>
            && |lines| == 8
            && (forall j, k :: 0 <= j < k < |lines| ==> lines[j].component != lines[k].component)
            && forall l :: l in lines ==>
                 && l.component.Some? && l.provenance == "reported_cost_forecast_assumption"
                 && InRange(l.total) && InRange(l.today) && l.today.value <= l.total.value
                 && (l.component == Some(ModelInference) ==> l.total.value == 0 && l.today.value == 0)
  {
  }

  /** Model lines are accepted exactly when there are at most 128, with distinct route digests, token counts in range
      and no more today than in all, rates in range and not both zero where there are tokens, and a total in range. */
  lemma ModelsAccepted(lines: seq<ModelLine>)
    ensures ModelsOk(lines) <==>
            && |lines| <= 128
            && (forall j, k :: 0 <= j < k < |lines| ==> lines[j].routeHash != lines[k].routeHash)
            && (forall l :: l in lines ==>
                  && HexDigest(l.routeHash)
                  && InIntegerRange(l.input) && InIntegerRange(l.output)
                  && InIntegerRange(l.todayInput) && InIntegerRange(l.todayOutput)
                  && l.todayInput.value <= l.input.value && l.todayOutput.value <= l.output.value
                  && InRange(l.inputRate) && InRange(l.outputRate)
                  && (l.inputRate.value > 0 || l.outputRate.value > 0 || (l.input.value == 0 && l.output.value == 0)))
            && ModelCost(lines, false) <= 999_999_999_999_999_999 && ModelCost(lines, true) <= 999_999_999_999_999_999
  {
    hide ModelCost, IsSha256, HexDigest;
    forall s: string ensures IsSha256(s) <==> HexDigest(s) {
      Sha256Means(s);
    }
  }

  /** Beyond its lists an input is accepted exactly when it has a time, a known stop reason, CI minutes in range,
      positive budgets and limits in range, and forecasts in range, one by one and all together. */
  lemma InputAccepted(i: ForecastInput)
    ensures Accepts(i) <==>
            && i.asOf.Some? && AssumptionsOk(i.assumptions) && LedgerOk(i.ledger, i.asOf.value) && ModelsOk(i.models)
            && (i.stopReason == "ok" || i.stopReason == "no_budget" || i.stopReason == "budget_exceeded"
                || i.stopReason == "daily_budget_exceeded")
            && InIntegerRange(i.ciMinutesToday)
            && PositiveInRange(i.budgetTotal) && PositiveInRange(i.budgetDaily)
            && PositiveInRange(i.policy.maxTotalModel) && PositiveInRange(i.policy.maxDailyModel)
            && PositiveInRange(i.policy.maxCloud) && PositiveInRange(i.policy.maxCiMinutes)
            && (forall c: Component, today: bool :: Forecast(i, c, today) <= 999_999_999_999_999_999)
            && (forall today: bool :: AllCost(i, today) <= 999_999_999_999_999_999)
  {
    hide AssumptionsOk, LedgerOk, ModelsOk, Forecast, AllCost;
  }

  // ---- what the digests are taken of ----

  lemma LedgerInOrder(lines: seq<LedgerLine>, asOf: int)
    requires LedgerOk(lines, asOf)
    ensures var sorted := Sorted(lines, EventId);
            multiset(sorted) == multiset(lines)
            && forall j, k :: 0 <= j < k < |sorted| ==> sorted[j].eventId < sorted[k].eventId
  {
    hide Sorted, LedgerLineOk, Incurred;
    var sorted := Sorted(lines, EventId);
    SortedSorts(lines, EventId);
    assert DistinctBy(lines, EventId);
    DistinctInBag(lines, sorted, EventId);
    forall j, k | 0 <= j < k < |sorted| ensures sorted[j].eventId < sorted[k].eventId {
      assert EventId(sorted[j]) != EventId(sorted[k]) && !Before(EventId(sorted[k]), EventId(sorted[j]));
    }
  }

  lemma {:induction false} AssumedOnce(lines: seq<Assumption>, k: nat, c: Component, today: bool)
    requires k <= |lines| && DistinctComponents(lines)
    requires k < |lines| ==> lines[k].component == Some(c)
    requires k == |lines| ==> !Mentions(lines, c)
    ensures Assumed(lines, c, today) ==
              if k < |lines| then Amount(if today then lines[k].today else lines[k].total) else 0
  {
    hide Amount;
    if lines != [] {
      var n := |lines| - 1;
      assert lines[n] in lines && lines[..n] <= lines;
      AssumedOnce(lines[..n], if k < n then k else n, c, today);
    }
  }

  lemma AssumedInMaterial(lines: seq<Assumption>, l: Assumption)
    requires AssumptionsOk(lines) && l in lines
    ensures l.component.Some? && l.total.Some? && l.today.Some?
    ensures (l.component.value, l.total.value, l.today.value) in AssumptionMaterial(lines)
  {
    hide Assumed;
    var c := l.component.value;
    var k :| 0 <= k < |lines| && lines[k] == l;
    AssumedOnce(lines, k, c, false);
    AssumedOnce(lines, k, c, true);
    InComponents(c);
    var n :| 0 <= n < |COMPONENTS| && COMPONENTS[n] == c;
    assert AssumptionMaterial(lines)[n] == (c, l.total.value, l.today.value);
  }

  /** The digests are taken of the ledger in strictly increasing order of its event ids, of each component in the order
      of its name with what it was assumed to cost, and of the model lines as given. */
  lemma MaterialMeans(i: ForecastInput)
    requires Accepts(i)
    ensures var d := Decide(i);
            && multiset(d.ledgerMaterial) == multiset(i.ledger)
            && (forall j, k :: 0 <= j < k < |d.ledgerMaterial| ==> d.ledgerMaterial[j].eventId < d.ledgerMaterial[k].eventId)
            && |d.assumptionMaterial| == 8
            && (forall k :: 0 <= k < 8 ==>
                  d.assumptionMaterial[k].0 == [CiCd, CloudRuntime, HumanReview, ModelInference, Monitoring, Rework,
                                                StorageRetrieval, ToolExecution][k])
            && (forall l :: l in i.assumptions ==> (l.component.value, l.total.value, l.today.value) in d.assumptionMaterial)
            && d.priceMaterial == i.models
  {
    hide LedgerOk, AssumptionsOk, ModelsOk, Forecast, AllCost, Dimensions, ReasonOf, Sorted;
    LedgerInOrder(i.ledger, i.asOf.value);
    forall l | l in i.assumptions
      ensures l.component.Some? && l.total.Some? && l.today.Some?
              && (l.component.value, l.total.value, l.today.value) in AssumptionMaterial(i.assumptions)
    {
      AssumedInMaterial(i.assumptions, l);
    }
  }
}
