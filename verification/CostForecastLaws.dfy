/** What forecasts keep: independence of order, a gate that only closes, exact totals. */
module CostForecastLaws {
  import opened Options
  import opened Decimals
  import opened Bags
  import opened CostForecast

  // ---- a line's cost is exact ----

  lemma FitIsExact(n: nat)
    requires n < CONTEXT
    ensures Fit(n) == n
  {
  }

  // Dividing at most 28 digits by a thousand loses nothing.
  lemma ThousandthIsExact(n: nat)
    requires n < CONTEXT
    ensures Quantized(Quotient(n, 1000), 0) == HalfUp(n, 1000)
  {
    hide HalfEven, HalfUp, Shift;
    SmallPowers();
    if n > 0 {
      ThousandShift(n);
      ThousandParts(n, Pow10(Shift(n, 1000, 0) - 3));
    } else {
      HalfUpOfZero(1000);
      HalfUpOfZero(1);
    }
  }

  lemma ThousandShift(n: nat)
    requires 0 < n < CONTEXT
    ensures var e := Shift(n, 1000, 0); e >= 3 && Pow10(e) == 1000 * Pow10(e - 3)
  {
    hide Shift;
    var e := Shift(n, 1000, 0);
    var p := Pow10(e);
    MulLe(n, CONTEXT - 1, p);
    assert CONTEXT * p * 10 > CONTEXT * 1000;
    assert Pow10(3) == 1000 && Pow10(2) == 100;
    if e < 3 {
      Pow10Grows(e, 2);
    }
    Pow10Sum(3, e - 3);
  }

  lemma ThousandParts(n: nat, t: nat)
    requires t > 0
    ensures HalfUp(HalfEven(n * (1000 * t), 1000) * 1, 1000 * t) == HalfUp(n, 1000)
  {
    hide HalfEven, HalfUp;
    assert n * (1000 * t) == (n * t) * 1000;
    HalfEvenExact(1000, n * t);
    HalfUpScaled(n, 1000, t);
  }

  function ExactCost(input: nat, output: nat, inputRate: nat, outputRate: nat): nat {
    input * inputRate + output * outputRate
  }

  /** Every step of a line's cost fits the 28 digits, so the line is the exact token cost, rounded half up once. */
  lemma LineCostIsExact(input: nat, output: nat, inputRate: nat, outputRate: nat)
    requires input <= INTEGER_MAX && output <= INTEGER_MAX && inputRate < MONEY && outputRate < MONEY
    ensures LineCost(input, output, inputRate, outputRate) == HalfUp(ExactCost(input, output, inputRate, outputRate), 1000)
  {
    hide Fit, Quotient, Quantized, HalfUp;
    MulLe(input, INTEGER_MAX, inputRate);
    MulLe(output, INTEGER_MAX, outputRate);
    FitIsExact(input * inputRate);
    FitIsExact(output * outputRate);
    FitIsExact(input * inputRate + output * outputRate);
    ThousandthIsExact(input * inputRate + output * outputRate);
  }

  // ---- totals ----

  function ExactLine(l: ModelLine, today: bool): nat {
    ExactCost(Tokens(if today then l.todayInput else l.input), Tokens(if today then l.todayOutput else l.output),
              Amount(l.inputRate), Amount(l.outputRate))
  }

  // The unrounded token cost, in thousandths of a micro-dollar.
  function ExactModelCost(lines: seq<ModelLine>, today: bool): nat {
    if lines == [] then 0
    else ExactModelCost(lines[..|lines| - 1], today) + ExactLine(lines[|lines| - 1], today)
  }

  lemma CostOfIsExact(l: ModelLine, today: bool)
    ensures CostOf(l, today) == HalfUp(ExactLine(l, today), 1000)
    ensures 1000 * CostOf(l, today) - 500 <= ExactLine(l, today) <= 1000 * CostOf(l, today) + 500
  {
    hide LineCost, ExactCost;
    LineCostIsExact(Tokens(if today then l.todayInput else l.input), Tokens(if today then l.todayOutput else l.output),
                    Amount(l.inputRate), Amount(l.outputRate));
    HalfUpIs(ExactLine(l, today), 1000, CostOf(l, today));
  }

  lemma {:induction false} ModelCostIsClose(lines: seq<ModelLine>, today: bool)
    ensures ExactModelCost(lines, today) - 500 * |lines| <= 1000 * ModelCost(lines, today)
              <= ExactModelCost(lines, today) + 500 * |lines|
  {
    hide CostOf, ExactLine;
    if lines != [] {
      ModelCostIsClose(lines[..|lines| - 1], today);
      CostOfIsExact(lines[|lines| - 1], today);
    }
  }

  // All that was incurred, and all that is assumed, whatever the component.
  function TotalIncurred(lines: seq<LedgerLine>, day: Option<int>): nat {
    if lines == [] then 0
    else
      var last := lines[|lines| - 1];
      TotalIncurred(lines[..|lines| - 1], day)
      + if last.component.Some? && Counts(last, last.component.value, day) then Amount(last.amount) else 0
  }

  function TotalAssumed(lines: seq<Assumption>, today: bool): nat {
    if lines == [] then 0
    else
      var last := lines[|lines| - 1];
      TotalAssumed(lines[..|lines| - 1], today) + Amount(if today then last.today else last.total)
  }

  function ChargedTo(l: LedgerLine, c: Component, day: Option<int>): nat {
    if Counts(l, c, day) then Amount(l.amount) else 0
  }

  // A line is charged to its own component and to no other.
  lemma ChargedOnce(l: LedgerLine, day: Option<int>)
    ensures (if l.component.Some? && Counts(l, l.component.value, day) then Amount(l.amount) else 0) ==
              ChargedTo(l, CiCd, day) + ChargedTo(l, CloudRuntime, day) + ChargedTo(l, HumanReview, day)
              + ChargedTo(l, ModelInference, day) + ChargedTo(l, Monitoring, day) + ChargedTo(l, Rework, day)
              + ChargedTo(l, StorageRetrieval, day) + ChargedTo(l, ToolExecution, day)
  {
    match l.component
    case None =>
    case Some(c) =>
      match c
      case CiCd =>
      case CloudRuntime =>
      case HumanReview =>
      case ModelInference =>
      case Monitoring =>
      case Rework =>
      case StorageRetrieval =>
      case ToolExecution =>
  }

  lemma IncurredLast(lines: seq<LedgerLine>, c: Component, day: Option<int>)
    requires lines != []
    ensures Incurred(lines, c, day) == Incurred(lines[..|lines| - 1], c, day) + ChargedTo(lines[|lines| - 1], c, day)
  {
  }

  lemma {:induction false} IncurredAddsUp(lines: seq<LedgerLine>, day: Option<int>)
    ensures TotalIncurred(lines, day) ==
              Incurred(lines, CiCd, day) + Incurred(lines, CloudRuntime, day) + Incurred(lines, HumanReview, day)
              + Incurred(lines, ModelInference, day) + Incurred(lines, Monitoring, day) + Incurred(lines, Rework, day)
              + Incurred(lines, StorageRetrieval, day) + Incurred(lines, ToolExecution, day)
  {
    hide Incurred, ChargedTo, Counts, Amount;
    if lines == [] {
      NoneIncurred(day);
    } else {
      IncurredAddsUp(lines[..|lines| - 1], day);
      ChargedOnce(lines[|lines| - 1], day);
      forall c: Component
        ensures Incurred(lines, c, day) == Incurred(lines[..|lines| - 1], c, day) + ChargedTo(lines[|lines| - 1], c, day)
      {
        IncurredLast(lines, c, day);
      }
    }
  }

  lemma NoneIncurred(day: Option<int>)
    ensures forall c: Component :: Incurred([], c, day) == 0
  {
  }

  lemma {:induction false} AssumedAddsUp(lines: seq<Assumption>, today: bool)
    requires forall l :: l in lines ==> AssumptionOk(l)
    ensures TotalAssumed(lines, today) ==
              Assumed(lines, CiCd, today) + Assumed(lines, CloudRuntime, today) + Assumed(lines, HumanReview, today)
              + Assumed(lines, Monitoring, today) + Assumed(lines, Rework, today)
              + Assumed(lines, StorageRetrieval, today) + Assumed(lines, ToolExecution, today)
  {
    if lines != [] {
      var last := lines[|lines| - 1];
      assert last in lines;
      assert last.component == Some(ModelInference) ==> Amount(last.today) == 0 && Amount(last.total) == 0;
      AssumedAddsUp(lines[..|lines| - 1], today);
      match lines[|lines| - 1].component
      case None =>
      case Some(c) =>
        match c
        case CiCd =>
        case CloudRuntime =>
        case HumanReview =>
        case ModelInference =>
        case Monitoring =>
        case Rework =>
        case StorageRetrieval =>
        case ToolExecution =>
    }
  }

  /** The all-cost forecast is the ledger sum plus the assumptions plus the priced model lines, to the micro-dollar; the
      model part is within half a micro-dollar a line, so within 64, of the exact token cost. */
  lemma TotalsAreExact(i: ForecastInput, today: bool)
    requires Accepts(i)
    ensures AllCost(i, today) ==
              TotalIncurred(i.ledger, if today then Today(i) else None) + TotalAssumed(i.assumptions, today)
              + ModelCost(i.models, today)
    ensures ExactModelCost(i.models, today) - 64_000 <= 1000 * ModelCost(i.models, today)
              <= ExactModelCost(i.models, today) + 64_000
  {
    hide TotalIncurred, TotalAssumed, Incurred, Assumed, ModelCost, ExactModelCost, LedgerOk;
    IncurredAddsUp(i.ledger, if today then Today(i) else None);
    AssumedAddsUp(i.assumptions, today);
    ModelCostIsClose(i.models, today);
  }

  lemma {:induction false} IncurredTodayIsLess(lines: seq<LedgerLine>, c: Component, day: Option<int>)
    ensures Incurred(lines, c, day) <= Incurred(lines, c, None)
  {
    if lines != [] {
      IncurredTodayIsLess(lines[..|lines| - 1], c, day);
    }
  }

  lemma {:induction false} AssumedTodayIsLess(lines: seq<Assumption>, c: Component)
    requires forall l :: l in lines ==> AssumptionOk(l)
    ensures Assumed(lines, c, true) <= Assumed(lines, c, false)
  {
    if lines != [] {
      assert lines[|lines| - 1] in lines;
      AssumedTodayIsLess(lines[..|lines| - 1], c);
    }
  }

  // ---- pricing grows with tokens and rates ----

  predicate LineRaised(l: ModelLine, m: ModelLine) {
    && Tokens(l.input) <= Tokens(m.input) && Tokens(l.output) <= Tokens(m.output)
    && Tokens(l.todayInput) <= Tokens(m.todayInput) && Tokens(l.todayOutput) <= Tokens(m.todayOutput)
    && Amount(l.inputRate) <= Amount(m.inputRate) && Amount(l.outputRate) <= Amount(m.outputRate)
  }

  lemma MulGrows(a: nat, b: nat, c: nat, d: nat)
    requires a <= c && b <= d
    ensures a * b <= c * d
  {
  }

  lemma CostGrows(l: ModelLine, m: ModelLine, today: bool)
    requires LineRaised(l, m)
    ensures CostOf(l, today) <= CostOf(m, today)
  {
    hide CostOf, HalfUp, Tokens, Amount;
    CostOfIsExact(l, today);
    CostOfIsExact(m, today);
    MulGrows(Tokens(if today then l.todayInput else l.input), Amount(l.inputRate),
             Tokens(if today then m.todayInput else m.input), Amount(m.inputRate));
    MulGrows(Tokens(if today then l.todayOutput else l.output), Amount(l.outputRate),
             Tokens(if today then m.todayOutput else m.output), Amount(m.outputRate));
    HalfUpGrows(ExactLine(l, today), ExactLine(m, today), 1000);
  }

  lemma CostTodayIsLess(l: ModelLine)
    requires ModelLineOk(l)
    ensures CostOf(l, true) <= CostOf(l, false)
  {
    hide IsSha256;
    var m := l.(todayInput := l.input, todayOutput := l.output);
    TodayAsTotal(l, m);
    CostGrows(l, m, true);
  }

  lemma TodayAsTotal(l: ModelLine, m: ModelLine)
    requires m == l.(todayInput := l.input, todayOutput := l.output)
    ensures CostOf(m, true) == CostOf(l, false)
  {
  }

  lemma {:induction false} ModelTodayIsLess(lines: seq<ModelLine>)
    requires forall l :: l in lines ==> ModelLineOk(l)
    ensures ModelCost(lines, true) <= ModelCost(lines, false)
  {
    hide CostOf, ModelLineOk;
    if lines != [] {
      assert lines[|lines| - 1] in lines;
      CostTodayIsLess(lines[|lines| - 1]);
      ModelTodayIsLess(lines[..|lines| - 1]);
    }
  }

  /** No component's daily forecast exceeds its total forecast, nor the all-cost one. */
  lemma DailyWithinTotal(i: ForecastInput)
    requires Accepts(i)
    ensures forall c: Component :: Forecast(i, c, true) <= Forecast(i, c, false)
    ensures AllCost(i, true) <= AllCost(i, false)
  {
    hide Incurred, Assumed, ModelCost, LedgerOk, AssumptionOk, ModelLineOk;
    ModelTodayIsLess(i.models);
    forall c: Component ensures Forecast(i, c, true) <= Forecast(i, c, false) {
      IncurredTodayIsLess(i.ledger, c, Today(i));
      AssumedTodayIsLess(i.assumptions, c);
    }
  }

  // ---- order does not matter ----

  function Charge(c: Component, day: Option<int>): LedgerLine -> nat {
    (l: LedgerLine) => if Counts(l, c, day) then Amount(l.amount) else 0
  }

  function Share(c: Component, today: bool): Assumption -> nat {
    (l: Assumption) => if l.component == Some(c) then Amount(if today then l.today else l.total) else 0
  }

  function Price(today: bool): ModelLine -> nat {
    (l: ModelLine) => CostOf(l, today)
  }

  lemma {:induction false} IncurredIsSum(lines: seq<LedgerLine>, c: Component, day: Option<int>)
    ensures Incurred(lines, c, day) == Sum(lines, Charge(c, day))
  {
    hide Counts, Amount;
    if lines != [] {
      IncurredIsSum(lines[..|lines| - 1], c, day);
    }
  }

  lemma {:induction false} AssumedIsSum(lines: seq<Assumption>, c: Component, today: bool)
    ensures Assumed(lines, c, today) == Sum(lines, Share(c, today))
  {
    hide Amount;
    if lines != [] {
      AssumedIsSum(lines[..|lines| - 1], c, today);
    }
  }

  lemma {:induction false} ModelCostIsSum(lines: seq<ModelLine>, today: bool)
    ensures ModelCost(lines, today) == Sum(lines, Price(today))
  {
    hide CostOf;
    if lines != [] {
      ModelCostIsSum(lines[..|lines| - 1], today);
    }
  }

  // The same lines in any order.
  predicate Reordered(i: ForecastInput, j: ForecastInput) {
    && j == i.(ledger := j.ledger, assumptions := j.assumptions, models := j.models)
    && multiset(i.ledger) == multiset(j.ledger)
    && multiset(i.assumptions) == multiset(j.assumptions)
    && multiset(i.models) == multiset(j.models)
  }

  lemma SameSums(i: ForecastInput, j: ForecastInput)
    requires Reordered(i, j)
    ensures forall c: Component, day: Option<int> :: Incurred(i.ledger, c, day) == Incurred(j.ledger, c, day)
    ensures forall c: Component, today: bool :: Assumed(i.assumptions, c, today) == Assumed(j.assumptions, c, today)
    ensures forall today: bool :: ModelCost(i.models, today) == ModelCost(j.models, today)
  {
    hide Incurred, Assumed, ModelCost, Charge, Share, Price, Sum;
    forall c: Component, day: Option<int> ensures Incurred(i.ledger, c, day) == Incurred(j.ledger, c, day) {
      IncurredIsSum(i.ledger, c, day);
      IncurredIsSum(j.ledger, c, day);
      SumOfBag(i.ledger, j.ledger, Charge(c, day));
    }
    forall c: Component, today: bool ensures Assumed(i.assumptions, c, today) == Assumed(j.assumptions, c, today) {
      AssumedIsSum(i.assumptions, c, today);
      AssumedIsSum(j.assumptions, c, today);
      SumOfBag(i.assumptions, j.assumptions, Share(c, today));
    }
    forall today: bool ensures ModelCost(i.models, today) == ModelCost(j.models, today) {
      ModelCostIsSum(i.models, today);
      ModelCostIsSum(j.models, today);
      SumOfBag(i.models, j.models, Price(today));
    }
  }

  function ComponentOf(l: Assumption): Option<Component> {
    l.component
  }

  function RouteOf(l: ModelLine): string {
    l.routeHash
  }

  lemma SameLedgerOk(a: seq<LedgerLine>, b: seq<LedgerLine>, asOf: int)
    requires multiset(a) == multiset(b) && LedgerOk(a, asOf)
    requires forall c: Component, day: Option<int> :: Incurred(a, c, day) == Incurred(b, c, day)
    ensures LedgerOk(b, asOf)
  {
    hide Incurred, LedgerLineOk;
    BagMembers(a, b);
    DistinctInBag(a, b, EventId);
  }

  lemma SameAssumptionsOk(a: seq<Assumption>, b: seq<Assumption>)
    requires multiset(a) == multiset(b) && AssumptionsOk(a)
    ensures AssumptionsOk(b)
  {
    hide AssumptionOk;
    BagMembers(a, b);
    DistinctInBag(a, b, ComponentOf);
  }

  lemma SameModelsOk(a: seq<ModelLine>, b: seq<ModelLine>)
    requires multiset(a) == multiset(b) && ModelsOk(a)
    requires forall today: bool :: ModelCost(a, today) == ModelCost(b, today)
    ensures ModelsOk(b)
  {
    hide ModelLineOk, ModelCost;
    BagMembers(a, b);
    DistinctInBag(a, b, RouteOf);
  }

  lemma SameForecast(i: ForecastInput, j: ForecastInput)
    requires Reordered(i, j)
    ensures forall c: Component, today: bool :: Forecast(i, c, today) == Forecast(j, c, today)
    ensures forall today: bool :: AllCost(i, today) == AllCost(j, today)
  {
    hide Incurred, Assumed, ModelCost;
    SameSums(i, j);
  }

  lemma ReorderedIsAccepted(i: ForecastInput, j: ForecastInput)
    requires Reordered(i, j) && Accepts(i)
    ensures Accepts(j)
  {
    hide LedgerOk, AssumptionsOk, ModelsOk, Incurred, Assumed, ModelCost, Forecast, AllCost;
    SameSums(i, j);
    SameLedgerOk(i.ledger, j.ledger, i.asOf.value);
    SameAssumptionsOk(i.assumptions, j.assumptions);
    SameModelsOk(i.models, j.models);
    SameForecast(i, j);
  }

  /** Reordering the ledger, assumption or model lines changes neither whether a forecast succeeds nor any part of the
      decision, the material hashed for ledger and assumptions included; only the price material keeps its order. */
  lemma ForecastIgnoresOrder(i: ForecastInput, j: ForecastInput)
    requires Reordered(i, j)
    ensures Accepts(i) <==> Accepts(j)
    ensures Accepts(i) ==> Decide(j) == Decide(i).(priceMaterial := j.models)
  {
    hide LedgerOk, AssumptionsOk, ModelsOk, Incurred, Assumed, ModelCost, Forecast, AllCost, Accepts, DimensionOf, Sorted;
    if Accepts(i) {
      ReorderedIsAccepted(i, j);
      SameMaterial(i, j);
    } else if Accepts(j) {
      ReorderedIsAccepted(j, i);
    }
  }

  lemma EventsTell(lines: seq<LedgerLine>)
    requires DistinctEvents(lines)
    ensures KeyTells(lines, EventId)
  {
  }

  lemma SameMaterial(i: ForecastInput, j: ForecastInput)
    requires Reordered(i, j) && Accepts(i) && Accepts(j)
    ensures Sorted(i.ledger, EventId) == Sorted(j.ledger, EventId)
    ensures AssumptionMaterial(i.assumptions) == AssumptionMaterial(j.assumptions)
    ensures Dimensions(i) == Dimensions(j)
  {
    hide AssumptionsOk, ModelsOk, Incurred, Assumed, ModelCost, Forecast, AllCost, DimensionOf;
    SameSums(i, j);
    SameForecast(i, j);
    EventsTell(i.ledger);
    SortForgetsOrder(i.ledger, j.ledger, EventId);
  }

  // ---- the gate only closes as costs rise ----

  predicate EventRaised(l: LedgerLine, m: LedgerLine) {
    l.component == m.component && l.occurredAt == m.occurredAt && Amount(l.amount) <= Amount(m.amount)
  }

  predicate AssumptionRaised(l: Assumption, m: Assumption) {
    l.component == m.component && Amount(l.total) <= Amount(m.total) && Amount(l.today) <= Amount(m.today)
  }

  // Line by line no cheaper, with perhaps more ledger events and model lines at the end.
  predicate Dearer(i: ForecastInput, j: ForecastInput) {
    && i.policy == j.policy && i.budgetTotal == j.budgetTotal && i.budgetDaily == j.budgetDaily
    && i.asOf == j.asOf && i.stopReason == j.stopReason
    && Tokens(i.ciMinutesToday) <= Tokens(j.ciMinutesToday)
    && |i.ledger| <= |j.ledger| && (forall k :: 0 <= k < |i.ledger| ==> EventRaised(i.ledger[k], j.ledger[k]))
    && |i.assumptions| == |j.assumptions|
    && (forall k :: 0 <= k < |i.assumptions| ==> AssumptionRaised(i.assumptions[k], j.assumptions[k]))
    && |i.models| <= |j.models| && (forall k :: 0 <= k < |i.models| ==> LineRaised(i.models[k], j.models[k]))
  }

  lemma {:induction false} IncurredRaised(a: seq<LedgerLine>, b: seq<LedgerLine>, c: Component, day: Option<int>)
    requires |a| <= |b| && forall k :: 0 <= k < |a| ==> EventRaised(a[k], b[k])
    ensures Incurred(a, c, day) <= Incurred(b, c, day)
  {
    hide Amount;
    if a != [] {
      var n := |a| - 1;
      IncurredRaised(a[..n], b[..n], c, day);
      assert EventRaised(a[n], b[n]);
      IncurredNext(b, n, c, day);
    }
  }

  lemma {:induction false} AssumedRaised(a: seq<Assumption>, b: seq<Assumption>, c: Component, today: bool)
    requires |a| == |b| && forall k :: 0 <= k < |a| ==> AssumptionRaised(a[k], b[k])
    ensures Assumed(a, c, today) <= Assumed(b, c, today)
  {
    hide Amount;
    if a != [] {
      var n := |a| - 1;
      AssumedRaised(a[..n], b[..n], c, today);
      assert AssumptionRaised(a[n], b[n]);
    }
  }

  lemma {:induction false} ModelCostRaised(a: seq<ModelLine>, b: seq<ModelLine>, today: bool)
    requires |a| <= |b| && forall k :: 0 <= k < |a| ==> LineRaised(a[k], b[k])
    ensures ModelCost(a, today) <= ModelCost(b, today)
  {
    hide CostOf, LineRaised;
    if a != [] {
      var n := |a| - 1;
      ModelCostRaised(a[..n], b[..n], today);
      CostGrows(a[n], b[n], today);
      ModelCostNext(b, n, today);
    }
  }

  lemma ForecastRaised(i: ForecastInput, j: ForecastInput, today: bool)
    requires Dearer(i, j)
    ensures forall c: Component :: Forecast(i, c, today) <= Forecast(j, c, today)
    ensures AllCost(i, today) <= AllCost(j, today)
  {
    hide Incurred, Assumed, ModelCost, EventRaised, AssumptionRaised, LineRaised, Tokens;
    ModelCostRaised(i.models, j.models, today);
    forall c: Component ensures Forecast(i, c, today) <= Forecast(j, c, today) {
      IncurredRaised(i.ledger, j.ledger, c, if today then Today(i) else None);
      AssumedRaised(i.assumptions, j.assumptions, c, today);
    }
  }

  // A row of the decision: a named value against a named limit, its exact percentage rounded once, and what follows.
  predicate Shows(d: Dimension, code: DimensionCode, value: nat, limit: nat, approvalAbove: int) {
    && d.code == code && d.value == value && d.limit == limit && limit > 0
    && d.utilization == HalfUp(1_000_000 * value, limit)
    && (value < limit ==> d.utilization <= 1_000_000) && (value >= limit ==> d.utilization >= 1_000_000)
    && (d.within <==> value < limit)
    && (d.approval <==> d.utilization * 100 > approvalAbove)
    && (d.result == LimitReachedOrExceeded <==> value >= limit)
    && (d.result == ApprovalRequired <==> value < limit && d.utilization * 100 > approvalAbove)
    && (d.result == WithinLimit <==> value < limit && d.utilization * 100 <= approvalAbove)
  }

  lemma ShowsOwn(code: DimensionCode, value: nat, limit: nat, approvalAbove: int)
    requires value < MONEY && 0 < limit < MONEY
    ensures Shows(DimensionOf(code, value, limit, approvalAbove), code, value, limit, approvalAbove)
  {
    hide Quotient, Quantized, HalfUp;
    PercentIsExact(value, limit);
    PercentSides(value, limit);
  }

  /** The decision shows six values against six limits, in this order: all cost in all and today against the two
      budgets, model cost in all and today and cloud cost in all against the policy's three, and the CI minutes. */
  lemma DecisionShows(i: ForecastInput)
    requires Accepts(i)
    ensures var ds, p := Decide(i).dimensions, i.policy;
            && |ds| == 6
            && Shows(ds[0], AllCostTotal, AllCost(i, false), i.budgetTotal.value, p.approvalAbove)
            && Shows(ds[1], AllCostDaily, AllCost(i, true), i.budgetDaily.value, p.approvalAbove)
            && Shows(ds[2], ModelCostTotal, Forecast(i, ModelInference, false), p.maxTotalModel.value, p.approvalAbove)
            && Shows(ds[3], ModelCostDaily, Forecast(i, ModelInference, true), p.maxDailyModel.value, p.approvalAbove)
            && Shows(ds[4], CloudSpendTotal, Forecast(i, CloudRuntime, false), p.maxCloud.value, p.approvalAbove)
            && Shows(ds[5], CiMinutesDaily, 1_000_000 * i.ciMinutesToday.value, p.maxCiMinutes.value, p.approvalAbove)
  {
    hide LedgerOk, AssumptionsOk, ModelsOk, Forecast, AllCost, Sorted, AssumptionMaterial, DimensionOf, HalfUp, Shows;
    var p := i.policy;
    ShowsOwn(AllCostTotal, AllCost(i, false), i.budgetTotal.value, p.approvalAbove);
    ShowsOwn(AllCostDaily, AllCost(i, true), i.budgetDaily.value, p.approvalAbove);
    ShowsOwn(ModelCostTotal, Forecast(i, ModelInference, false), p.maxTotalModel.value, p.approvalAbove);
    ShowsOwn(ModelCostDaily, Forecast(i, ModelInference, true), p.maxDailyModel.value, p.approvalAbove);
    ShowsOwn(CloudSpendTotal, Forecast(i, CloudRuntime, false), p.maxCloud.value, p.approvalAbove);
    ShowsOwn(CiMinutesDaily, 1_000_000 * i.ciMinutesToday.value, p.maxCiMinutes.value, p.approvalAbove);
  }

  // Each of the six values is strictly below its limit.
  predicate BelowLimits(i: ForecastInput)
    requires Accepts(i)
  {
    && AllCost(i, false) < i.budgetTotal.value && AllCost(i, true) < i.budgetDaily.value
    && Forecast(i, ModelInference, false) < i.policy.maxTotalModel.value
    && Forecast(i, ModelInference, true) < i.policy.maxDailyModel.value
    && Forecast(i, CloudRuntime, false) < i.policy.maxCloud.value
    && 1_000_000 * i.ciMinutesToday.value < i.policy.maxCiMinutes.value
  }

  // No exact percentage, rounded half up to four places, is above the approval threshold.
  predicate BelowApproval(i: ForecastInput)
    requires Accepts(i)
  {
    var above := i.policy.approvalAbove;
    && 100 * HalfUp(1_000_000 * AllCost(i, false), i.budgetTotal.value) <= above
    && 100 * HalfUp(1_000_000 * AllCost(i, true), i.budgetDaily.value) <= above
    && 100 * HalfUp(1_000_000 * Forecast(i, ModelInference, false), i.policy.maxTotalModel.value) <= above
    && 100 * HalfUp(1_000_000 * Forecast(i, ModelInference, true), i.policy.maxDailyModel.value) <= above
    && 100 * HalfUp(1_000_000 * Forecast(i, CloudRuntime, false), i.policy.maxCloud.value) <= above
    && 100 * HalfUp(1_000_000 * (1_000_000 * i.ciMinutesToday.value), i.policy.maxCiMinutes.value) <= above
  }

  /** The gate is open if and only if nothing stopped, each of the six values is strictly below its limit and none of
      their six percentages is above the approval threshold; the reason names the first of the three that fails. */
  lemma OpenGateMeans(i: ForecastInput)
    requires Accepts(i)
    ensures var d := Decide(i);
            && (d.gateEligible <==> i.stopReason == "ok" && BelowLimits(i) && BelowApproval(i))
            && (d.allWithin <==> BelowLimits(i)) && (d.approvalRequired <==> !BelowApproval(i))
            && (d.reason == CostStopActive <==> i.stopReason != "ok")
            && (d.reason == OverLimit <==> i.stopReason == "ok" && !BelowLimits(i))
            && (d.reason == NeedsApproval <==> i.stopReason == "ok" && BelowLimits(i) && !BelowApproval(i))
            && (d.reason == WithinRecordedPolicy <==> d.gateEligible)
  {
    hide LedgerOk, AssumptionsOk, ModelsOk, Forecast, AllCost, Sorted, AssumptionMaterial, DimensionOf, HalfUp;
    DecisionShows(i);
    SixRows(Decide(i).dimensions);
  }

  lemma SixRows(ds: seq<Dimension>)
    requires |ds| == 6
    ensures AllWithin(ds) <==>
              ds[0].within && ds[1].within && ds[2].within && ds[3].within && ds[4].within && ds[5].within
    ensures SomeApproval(ds) <==>
              ds[0].approval || ds[1].approval || ds[2].approval || ds[3].approval || ds[4].approval || ds[5].approval
  {
  }

  lemma PercentRaised(v: nat, w: nat, limit: nat)
    requires v <= w && limit > 0
    ensures HalfUp(1_000_000 * v, limit) <= HalfUp(1_000_000 * w, limit)
  {
    hide HalfUp;
    HalfUpGrows(1_000_000 * v, 1_000_000 * w, limit);
  }

  /** Adding ledger events or model lines, or raising amounts, tokens, rates or CI minutes, never opens the gate. */
  lemma GateOnlyCloses(i: ForecastInput, j: ForecastInput)
    requires Accepts(i) && Accepts(j) && Dearer(i, j)
    requires Decide(j).gateEligible
    ensures Decide(i).gateEligible
  {
    hide LedgerOk, AssumptionsOk, ModelsOk, Forecast, AllCost, Decide, EventRaised, AssumptionRaised, LineRaised, HalfUp;
    ForecastRaised(i, j, false);
    ForecastRaised(i, j, true);
    OpenGateMeans(i);
    OpenGateMeans(j);
    PercentRaised(AllCost(i, false), AllCost(j, false), i.budgetTotal.value);
    PercentRaised(AllCost(i, true), AllCost(j, true), i.budgetDaily.value);
    PercentRaised(Forecast(i, ModelInference, false), Forecast(j, ModelInference, false), i.policy.maxTotalModel.value);
    PercentRaised(Forecast(i, ModelInference, true), Forecast(j, ModelInference, true), i.policy.maxDailyModel.value);
    PercentRaised(Forecast(i, CloudRuntime, false), Forecast(j, CloudRuntime, false), i.policy.maxCloud.value);
    PercentRaised(1_000_000 * i.ciMinutesToday.value, 1_000_000 * j.ciMinutesToday.value, i.policy.maxCiMinutes.value);
  }

  // ---- both answers occur ----

  function Zeros(n: nat): (s: string)
    ensures |s| == n && forall i :: 0 <= i < n ==> s[i] == '0'
  {
    if n == 0 then "" else Zeros(n - 1) + "0"
  }

  function Digest(): string {
    "sha256:" + Zeros(64)
  }

  function Idle(c: Component): Assumption {
    Assumption(Some(c), Some(0), Some(0), ASSUMPTION_PROVENANCE)
  }

  // One event of the given amount against limits of a dollar.
  function Small(amount: nat): ForecastInput {
    var dollar := Some(1_000_000);
    ForecastInput(Policy(dollar, dollar, dollar, dollar, 100_000_000), dollar, dollar,
                  [LedgerLine(1, Some(CiCd), Some(amount), Some(0), Digest(), LEDGER_PROVENANCE)],
                  [Idle(CiCd), Idle(CloudRuntime), Idle(HumanReview), Idle(ModelInference), Idle(Monitoring), Idle(Rework),
                   Idle(StorageRetrieval), Idle(ToolExecution)], [], Some(0), "ok", Some(0))
  }

  lemma SmallIncurred(amount: nat, c: Component, day: Option<int>)
    requires amount < MONEY && (day.Some? ==> day.value == 0)
    ensures Incurred(Small(amount).ledger, c, day) == if c == CiCd then amount else 0
  {
    var lines := Small(amount).ledger;
    assert lines[..0] == [];
    assert 0 / DAY == 0;
  }

  lemma {:induction false} NothingAssumedOf(lines: seq<Assumption>, c: Component, today: bool)
    requires forall l :: l in lines ==> l.total == Some(0) && l.today == Some(0)
    ensures Assumed(lines, c, today) == 0
  {
    if lines != [] {
      assert lines[|lines| - 1] in lines;
      NothingAssumedOf(lines[..|lines| - 1], c, today);
    }
  }

  lemma SmallForecast(amount: nat, c: Component, today: bool)
    requires amount < MONEY
    ensures Forecast(Small(amount), c, today) == if c == CiCd then amount else 0
  {
    hide Incurred, Assumed, Digest;
    assert 0 / DAY == 0;
    SmallIncurred(amount, c, if today then Today(Small(amount)) else None);
    NothingAssumedOf(Small(amount).assumptions, c, today);
  }

  lemma SmallLedgerOk(amount: nat)
    requires amount < MONEY
    ensures LedgerOk(Small(amount).ledger, 0)
  {
    hide Incurred, IsSha256, Idle;
    DigestIsSha256();
    assert 0 / DAY == 0;
    forall c: Component
      ensures Incurred(Small(amount).ledger, c, None) < MONEY && Incurred(Small(amount).ledger, c, Some(0)) < MONEY
    {
      SmallIncurred(amount, c, None);
      SmallIncurred(amount, c, Some(0));
    }
  }

  lemma SmallAssumptionsOk(amount: nat)
    ensures AssumptionsOk(Small(amount).assumptions)
  {
    hide IsSha256, Digest;
  }

  lemma SmallIsAccepted(amount: nat)
    requires amount < MONEY
    ensures Accepts(Small(amount)) && AllCost(Small(amount), false) == AllCost(Small(amount), true) == amount
  {
    hide Forecast, LedgerOk, AssumptionsOk, Digest, Idle, Incurred, Assumed;
    var i := Small(amount);
    SmallLedgerOk(amount);
    SmallAssumptionsOk(amount);
    forall c: Component, today: bool ensures Forecast(i, c, today) == if c == CiCd then amount else 0 {
      SmallForecast(amount, c, today);
    }
  }

  lemma DigestIsSha256()
    ensures IsSha256(Digest())
  {
    assert Digest()[..7] == "sha256:";
  }

  /** Both answers occur: with nothing spent the gate is open, and with the whole budget spent it is closed. */
  lemma GateOpensAndCloses()
    ensures Accepts(Small(0)) && Decide(Small(0)).gateEligible
    ensures Accepts(Small(1_000_000)) && !Decide(Small(1_000_000)).gateEligible
  {
    hide Incurred, Assumed, Forecast, IsSha256, Accepts, AllCost, Decide, HalfUp;
    SmallIsAccepted(0);
    SmallIsAccepted(1_000_000);
    OpenGateMeans(Small(0));
    OpenGateMeans(Small(1_000_000));
    SmallForecast(0, ModelInference, false);
    SmallForecast(0, ModelInference, true);
    SmallForecast(0, CloudRuntime, false);
    HalfUpOfZero(1_000_000);
  }
}
