/** The deterministic cost forecast: validation loops, totals, limits and the gate. Money is in micro-dollars. */
module CostForecast {
  import opened Options
  import opened Decimals
  import opened Bags

  datatype Component =
    | CiCd | CloudRuntime | HumanReview | ModelInference | Monitoring | Rework | StorageRetrieval | ToolExecution

  // In the order of their names.
  const COMPONENTS: seq<Component> :=
    [CiCd, CloudRuntime, HumanReview, ModelInference, Monitoring, Rework, StorageRetrieval, ToolExecution]

  const ASSUMPTION_PROVENANCE := "reported_cost_forecast_assumption"
  const LEDGER_PROVENANCE := "db_bound_incurred_cost_events"
  const STOP_REASONS := {"ok", "no_budget", "budget_exceeded", "daily_budget_exceeded"}
  const INTEGER_MAX := 2_147_483_647
  const MAX_LEDGER_LINES := 50_000
  const MAX_MODEL_LINES := 128
  const DAY := 86_400_000_000 // microseconds

  // A value offered as money: None unless it is a finite decimal of at most six places; else in millionths.
  type Raw = Option<int>

  // Event ids are numbered in the order of their text; times are UTC microseconds, None without a time zone.
  datatype LedgerLine = LedgerLine(eventId: nat, component: Option<Component>, amount: Raw, occurredAt: Option<int>,
                                   digest: string, provenance: string)

  datatype Assumption = Assumption(component: Option<Component>, total: Raw, today: Raw, provenance: string)

  // Token counts are None when they are not integers.
  datatype ModelLine = ModelLine(routeHash: string, input: Option<int>, output: Option<int>, todayInput: Option<int>,
                                 todayOutput: Option<int>, inputRate: Raw, outputRate: Raw)

  datatype Policy = Policy(maxTotalModel: Raw, maxDailyModel: Raw, maxCloud: Raw, maxCiMinutes: Raw, approvalAbove: int)

  datatype ForecastInput = ForecastInput(policy: Policy, budgetTotal: Raw, budgetDaily: Raw, ledger: seq<LedgerLine>,
                                         assumptions: seq<Assumption>, models: seq<ModelLine>,
                                         ciMinutesToday: Option<int>, stopReason: string, asOf: Option<int>)

  datatype DimensionCode = AllCostTotal | AllCostDaily | ModelCostTotal | ModelCostDaily | CloudSpendTotal | CiMinutesDaily

  datatype ResultCode = LimitReachedOrExceeded | ApprovalRequired | WithinLimit

  // The utilization is in ten-thousandths of a percent.
  datatype Dimension = Dimension(code: DimensionCode, value: nat, limit: nat, utilization: nat, within: bool,
                                 approval: bool, result: ResultCode)

  datatype Reason = CostStopActive | OverLimit | NeedsApproval | WithinRecordedPolicy

  // The decision, with the material of its digests instead of the digests.
  datatype Decision = Decision(reason: Reason, dimensions: seq<Dimension>, allWithin: bool, approvalRequired: bool,
                               gateEligible: bool, ledgerMaterial: seq<LedgerLine>,
                               assumptionMaterial: seq<(Component, nat, nat)>, priceMaterial: seq<ModelLine>)

  datatype ForecastError =
    | NaiveTime | NotMoney | NotAnInteger | UnknownStopReason
    | ComponentsNotOnceEach | BadProvenance | TodayExceedsTotal | ModelInferenceIsDerived
    | NoHistory | TooManyEvents | DuplicateEvent | UnknownComponent | FutureDated
    | TooManyModels | RouteHashNotUnique | UnpricedTokens

  // ---- money and integers ----

  predicate IsMoney(raw: Raw) {
    raw.Some? && 0 <= raw.value < MONEY
  }

  predicate IsPositive(raw: Raw) {
    IsMoney(raw) && raw.value > 0
  }

  function Amount(raw: Raw): nat {
    if IsMoney(raw) then raw.value else 0
  }

  predicate IsBounded(n: Option<int>) {
    n.Some? && 0 <= n.value <= INTEGER_MAX
  }

  function Tokens(n: Option<int>): nat {
    if IsBounded(n) then n.value else 0
  }

  predicate IsSha256(s: string) {
    |s| == 71 && s[..7] == "sha256:"
    && forall i :: 7 <= i < 71 ==> '0' <= s[i] <= '9' || 'a' <= s[i] <= 'f'
  }

  // ---- what makes each list acceptable, whatever its order ----

  predicate LedgerLineOk(l: LedgerLine, asOf: int) {
    && l.component.Some? && l.provenance == LEDGER_PROVENANCE && IsSha256(l.digest)
    && l.occurredAt.Some? && l.occurredAt.value <= asOf && IsMoney(l.amount)
  }

  predicate Counts(l: LedgerLine, c: Component, day: Option<int>) {
    l.component == Some(c) && (day.Some? ==> l.occurredAt.Some? && l.occurredAt.value / DAY == day.value)
  }

  // What was incurred for a component, in all or on one day.
  function Incurred(lines: seq<LedgerLine>, c: Component, day: Option<int>): nat {
    if lines == [] then 0
    else
      var last := lines[|lines| - 1];
      Incurred(lines[..|lines| - 1], c, day) + if Counts(last, c, day) then Amount(last.amount) else 0
  }

  predicate DistinctEvents(lines: seq<LedgerLine>) {
    forall i, j :: 0 <= i < j < |lines| ==> lines[i].eventId != lines[j].eventId
  }

  predicate LedgerOk(lines: seq<LedgerLine>, asOf: int) {
    && 0 < |lines| <= MAX_LEDGER_LINES
    && DistinctEvents(lines)
    && (forall l :: l in lines ==> LedgerLineOk(l, asOf))
    && (forall c: Component :: Incurred(lines, c, None) < MONEY && Incurred(lines, c, Some(asOf / DAY)) < MONEY)
  }

  predicate AssumptionOk(l: Assumption) {
    && l.component.Some? && l.provenance == ASSUMPTION_PROVENANCE && IsMoney(l.total) && IsMoney(l.today)
    && l.today.value <= l.total.value
    && (l.component == Some(ModelInference) ==> l.total.value == 0)
  }

  predicate DistinctComponents(lines: seq<Assumption>) {
    forall i, j :: 0 <= i < j < |lines| ==> lines[i].component != lines[j].component
  }

  predicate AssumptionsOk(lines: seq<Assumption>) {
    && |lines| == |COMPONENTS| && DistinctComponents(lines) && forall l :: l in lines ==> AssumptionOk(l)
  }

  function Assumed(lines: seq<Assumption>, c: Component, today: bool): nat {
    if lines == [] then 0
    else
      var last := lines[|lines| - 1];
      Assumed(lines[..|lines| - 1], c, today)
      + if last.component == Some(c) then Amount(if today then last.today else last.total) else 0
  }

  predicate ModelLineOk(l: ModelLine) {
    && IsSha256(l.routeHash)
    && IsBounded(l.input) && IsBounded(l.output) && IsBounded(l.todayInput) && IsBounded(l.todayOutput)
    && l.todayInput.value <= l.input.value && l.todayOutput.value <= l.output.value
    && IsMoney(l.inputRate) && IsMoney(l.outputRate)
    && (l.inputRate.value == 0 && l.outputRate.value == 0 ==> l.input.value == 0 && l.output.value == 0)
  }

  // Tokens times rates per thousand, each step rounded by the context, then to a micro-dollar.
  function LineCost(input: nat, output: nat, inputRate: nat, outputRate: nat): nat {
    Quantized(Quotient(Fit(Fit(input * inputRate) + Fit(output * outputRate)), 1000), 0)
  }

  function CostOf(l: ModelLine, today: bool): nat {
    LineCost(Tokens(if today then l.todayInput else l.input), Tokens(if today then l.todayOutput else l.output),
             Amount(l.inputRate), Amount(l.outputRate))
  }

  function ModelCost(lines: seq<ModelLine>, today: bool): nat {
    if lines == [] then 0 else ModelCost(lines[..|lines| - 1], today) + CostOf(lines[|lines| - 1], today)
  }

  predicate DistinctRoutes(lines: seq<ModelLine>) {
    forall i, j :: 0 <= i < j < |lines| ==> lines[i].routeHash != lines[j].routeHash
  }

  predicate ModelsOk(lines: seq<ModelLine>) {
    && |lines| <= MAX_MODEL_LINES && DistinctRoutes(lines) && (forall l :: l in lines ==> ModelLineOk(l))
    && ModelCost(lines, false) < MONEY && ModelCost(lines, true) < MONEY
  }

  // ---- the forecast ----

  function Today(i: ForecastInput): Option<int> {
    if i.asOf.Some? then Some(i.asOf.value / DAY) else None
  }

  function Forecast(i: ForecastInput, c: Component, today: bool): nat {
    Incurred(i.ledger, c, if today then Today(i) else None)
    + if c == ModelInference then ModelCost(i.models, today) else Assumed(i.assumptions, c, today)
  }

  function AllCost(i: ForecastInput, today: bool): nat {
    Forecast(i, CiCd, today) + Forecast(i, CloudRuntime, today) + Forecast(i, HumanReview, today)
    + Forecast(i, ModelInference, today) + Forecast(i, Monitoring, today) + Forecast(i, Rework, today)
    + Forecast(i, StorageRetrieval, today) + Forecast(i, ToolExecution, today)
  }

  predicate Accepts(i: ForecastInput) {
    && i.asOf.Some? && IsPositive(i.budgetTotal) && IsPositive(i.budgetDaily) && i.stopReason in STOP_REASONS
    && IsBounded(i.ciMinutesToday)
    && AssumptionsOk(i.assumptions) && LedgerOk(i.ledger, i.asOf.value) && ModelsOk(i.models)
    && (forall c: Component :: Forecast(i, c, false) < MONEY && Forecast(i, c, true) < MONEY)
    && AllCost(i, false) < MONEY && AllCost(i, true) < MONEY
    && IsPositive(i.policy.maxTotalModel) && IsPositive(i.policy.maxDailyModel)
    && IsPositive(i.policy.maxCloud) && IsPositive(i.policy.maxCiMinutes)
  }

  // value / limit * 100 to four places, half up; the threshold is in millionths of a percent.
  function DimensionOf(code: DimensionCode, value: nat, limit: nat, approvalAbove: int): Dimension
    requires limit > 0
  {
    var utilization := Quantized(Quotient(value, limit), 6);
    var within, approval := value < limit, utilization * 100 > approvalAbove;
    Dimension(code, value, limit, utilization, within, approval,
              if !within then LimitReachedOrExceeded else if approval then ApprovalRequired else WithinLimit)
  }

  function EventId(l: LedgerLine): Key {
    (l.eventId, 0)
  }

  function AssumptionMaterial(lines: seq<Assumption>): seq<(Component, nat, nat)> {
    seq(|COMPONENTS|, k requires 0 <= k < |COMPONENTS| =>
      (COMPONENTS[k], Assumed(lines, COMPONENTS[k], false), Assumed(lines, COMPONENTS[k], true)))
  }

  // ---- ledger lines ----

  // What each refusal of the ledger says is so.
  ghost predicate LedgerFault(lines: seq<LedgerLine>, asOf: int, e: ForecastError) {
    match e
    case NoHistory => lines == []
    case TooManyEvents => |lines| > MAX_LEDGER_LINES
    case DuplicateEvent => !DistinctEvents(lines)
    case UnknownComponent => exists l :: l in lines && l.component.None?
    case BadProvenance => exists l :: l in lines && (l.provenance != LEDGER_PROVENANCE || !IsSha256(l.digest))
    case NaiveTime => exists l :: l in lines && l.occurredAt.None?
    case FutureDated => exists l :: l in lines && l.occurredAt.Some? && l.occurredAt.value > asOf
    case NotMoney =>
      (exists l :: l in lines && !IsMoney(l.amount))
      || (exists c: Component, day :: Incurred(lines, c, day) >= MONEY)
    case _ => false
  }

  lemma {:induction false} IncurredGrows(lines: seq<LedgerLine>, n: nat, c: Component, day: Option<int>)
    requires n <= |lines|
    ensures Incurred(lines[..n], c, day) <= Incurred(lines, c, day)
  {
    if n == |lines| {
      assert lines[..n] == lines;
    } else {
      IncurredGrows(lines[..|lines| - 1], n, c, day);
      assert lines[..|lines| - 1][..n] == lines[..n];
    }
  }

  lemma IncurredNext(lines: seq<LedgerLine>, n: nat, c: Component, day: Option<int>)
    requires n < |lines|
    ensures Incurred(lines[..n + 1], c, day) ==
              Incurred(lines[..n], c, day) + if Counts(lines[n], c, day) then Amount(lines[n].amount) else 0
    ensures Incurred(lines[..n + 1], c, day) <= Incurred(lines, c, day)
  {
    assert lines[..n + 1][..n] == lines[..n];
    IncurredGrows(lines, n + 1, c, day);
  }

  predicate LineFault(l: LedgerLine, asOf: int, e: ForecastError) {
    match e
    case UnknownComponent => l.component.None?
    case BadProvenance => l.provenance != LEDGER_PROVENANCE || !IsSha256(l.digest)
    case NaiveTime => l.occurredAt.None?
    case FutureDated => l.occurredAt.Some? && l.occurredAt.value > asOf
    case NotMoney => !IsMoney(l.amount)
    case _ => false
  }

  lemma LineFaultIsLedgerFault(lines: seq<LedgerLine>, n: nat, asOf: int, e: ForecastError)
    requires n < |lines| && LineFault(lines[n], asOf, e)
    ensures LedgerFault(lines, asOf, e) && !LedgerOk(lines, asOf)
  {
    assert lines[n] in lines;
  }

  // The checks of one line, in their order.
  method CheckLine(l: LedgerLine, asOf: int) returns (error: Option<ForecastError>)
    ensures error.None? <==> LedgerLineOk(l, asOf)
    ensures error.Some? ==> LineFault(l, asOf, error.value)
  {
    if l.component.None? {
      return Some(UnknownComponent);
    }
    if l.provenance != LEDGER_PROVENANCE || !IsSha256(l.digest) {
      return Some(BadProvenance);
    }
    if l.occurredAt.None? {
      return Some(NaiveTime);
    }
    if l.occurredAt.value > asOf {
      return Some(FutureDated);
    }
    if !IsMoney(l.amount) {
      return Some(NotMoney);
    }
    return None;
  }

  type Totals = map<Component, nat>

  const ZEROES: Totals :=
    map[CiCd := 0, CloudRuntime := 0, HumanReview := 0, ModelInference := 0, Monitoring := 0, Rework := 0,
        StorageRetrieval := 0, ToolExecution := 0]

  ghost predicate AreIncurred(totals: Totals, lines: seq<LedgerLine>, day: Option<int>) {
    forall c: Component :: c in totals && totals[c] == Incurred(lines, c, day)
  }

  // One more line, whose component is charged.
  lemma Charged(totals: Totals, after: Totals, lines: seq<LedgerLine>, n: nat, day: Option<int>)
    requires n < |lines| && AreIncurred(totals, lines[..n], day) && lines[n].component.Some? && IsMoney(lines[n].amount)
    requires after == if Counts(lines[n], lines[n].component.value, day)
                      then totals[lines[n].component.value := totals[lines[n].component.value] + lines[n].amount.value]
                      else totals
    ensures AreIncurred(after, lines[..n + 1], day)
    ensures forall c: Component :: after[c] <= Incurred(lines, c, day)
  {
    hide Incurred;
    forall c: Component ensures c in after && after[c] == Incurred(lines[..n + 1], c, day) <= Incurred(lines, c, day) {
      IncurredNext(lines, n, c, day);
    }
  }

  /** Accepts a ledger exactly when it is acceptable, whatever the order of its lines, and sums it by component. */
  method ValidateLedger(lines: seq<LedgerLine>, asOf: int) returns (r: Result<(Totals, Totals), ForecastError>)
    ensures r.Ok? <==> LedgerOk(lines, asOf)
    ensures r.Ok? ==> AreIncurred(r.value.0, lines, None) && AreIncurred(r.value.1, lines, Some(asOf / DAY))
    ensures r.Err? ==> LedgerFault(lines, asOf, r.error)
  {
    hide IsSha256, Incurred, Counts;
    if lines == [] {
      return Err(NoHistory);
    }
    if |lines| > MAX_LEDGER_LINES {
      return Err(TooManyEvents);
    }
    var seen: set<nat> := {};
    var day := asOf / DAY;
    var totals: Totals, today: Totals := ZEROES, ZEROES;
    NothingIncurred(lines, None);
    NothingIncurred(lines, Some(day));
    for i := 0 to |lines|
      invariant seen == set j | 0 <= j < i :: lines[j].eventId
      invariant DistinctEvents(lines[..i])
      invariant forall l :: l in lines[..i] ==> LedgerLineOk(l, asOf)
      invariant AreIncurred(totals, lines[..i], None) && AreIncurred(today, lines[..i], Some(day))
      invariant forall c: Component :: totals[c] < MONEY && today[c] < MONEY
    {
      var line := lines[i];
      if line.eventId in seen {
        return Err(DuplicateEvent);
      }
      seen := seen + {line.eventId};
      var error := CheckLine(line, asOf);
      if error.Some? {
        LineFaultIsLedgerFault(lines, i, asOf, error.value);
        return Err(error.value);
      }
      var c := line.component.value;
      ghost var before, beforeToday := totals, today;
      totals := totals[c := totals[c] + line.amount.value];
      CountsAlways(line, c);
      Charged(before, totals, lines, i, None);
      if totals[c] >= MONEY {
        return Err(NotMoney);
      }
      if line.occurredAt.value / DAY == day {
        today := today[c := today[c] + line.amount.value];
        CountsToday(line, c, day);
        Charged(beforeToday, today, lines, i, Some(day));
        if today[c] >= MONEY {
          return Err(NotMoney);
        }
      } else {
        CountsToday(line, c, day);
        Charged(beforeToday, today, lines, i, Some(day));
      }
      assert lines[..i + 1] == lines[..i] + [line];
    }
    assert lines[..|lines|] == lines;
    return Ok((totals, today));
  }

  lemma NothingIncurred(lines: seq<LedgerLine>, day: Option<int>)
    ensures AreIncurred(ZEROES, lines[..0], day)
  {
    forall c: Component ensures c in ZEROES && ZEROES[c] == 0 {
      match c
      case CiCd =>
      case CloudRuntime =>
      case HumanReview =>
      case ModelInference =>
      case Monitoring =>
      case Rework =>
      case StorageRetrieval =>
      case ToolExecution =>
    }
  }

  lemma CountsAlways(l: LedgerLine, c: Component)
    ensures Counts(l, c, None) <==> l.component == Some(c)
  {
  }

  lemma CountsToday(l: LedgerLine, c: Component, day: int)
    requires l.component == Some(c) && l.occurredAt.Some?
    ensures Counts(l, c, Some(day)) <==> l.occurredAt.value / DAY == day
  {
  }

  // ---- assumptions ----

  ghost predicate AssumptionFault(lines: seq<Assumption>, e: ForecastError) {
    match e
    case ComponentsNotOnceEach =>
      |lines| != |COMPONENTS| || !DistinctComponents(lines) || exists l :: l in lines && l.component.None?
    case BadProvenance => exists l :: l in lines && l.provenance != ASSUMPTION_PROVENANCE
    case NotMoney => exists l :: l in lines && (!IsMoney(l.total) || !IsMoney(l.today))
    case TodayExceedsTotal => exists l :: l in lines && Amount(l.today) > Amount(l.total)
    case ModelInferenceIsDerived =>
      exists l :: l in lines && l.component == Some(ModelInference) && (Amount(l.total) != 0 || Amount(l.today) != 0)
    case _ => false
  }

  // The amounts stored under each component, in all and today.
  type ByComponent = map<Component, (nat, nat)>

  predicate Mentions(lines: seq<Assumption>, c: Component) {
    exists l :: l in lines && l.component == Some(c)
  }

  ghost predicate AreAssumed(stored: ByComponent, lines: seq<Assumption>) {
    && (forall c: Component :: c in stored <==> Mentions(lines, c))
    && (forall c: Component :: Assumed(lines, c, false) == if c in stored then stored[c].0 else 0)
    && (forall c: Component :: Assumed(lines, c, true) == if c in stored then stored[c].1 else 0)
  }

  lemma AssumedNext(lines: seq<Assumption>, n: nat, c: Component, today: bool)
    requires n < |lines|
    ensures Assumed(lines[..n + 1], c, today) ==
              Assumed(lines[..n], c, today)
              + if lines[n].component == Some(c) then Amount(if today then lines[n].today else lines[n].total) else 0
  {
    assert lines[..n + 1][..n] == lines[..n];
  }

  lemma Stored(stored: ByComponent, lines: seq<Assumption>, n: nat, c: Component)
    requires n < |lines| && AreAssumed(stored, lines[..n]) && lines[n].component == Some(c) && c !in stored
    ensures AreAssumed(stored[c := (Amount(lines[n].total), Amount(lines[n].today))], lines[..n + 1])
  {
    hide Assumed;
    var after := stored[c := (Amount(lines[n].total), Amount(lines[n].today))];
    forall d: Component
      ensures Assumed(lines[..n + 1], d, false) == if d in after then after[d].0 else 0
      ensures Assumed(lines[..n + 1], d, true) == if d in after then after[d].1 else 0
    {
      AssumedNext(lines, n, d, false);
      AssumedNext(lines, n, d, true);
    }
    assert lines[..n + 1] == lines[..n] + [lines[n]];
    forall d: Component ensures d in after <==> Mentions(lines[..n + 1], d) {
      assert Mentions(lines[..n], d) ==> Mentions(lines[..n + 1], d);
    }
  }

  lemma RepeatsComponent(lines: seq<Assumption>, n: nat, c: Component)
    requires n < |lines| && lines[n].component == Some(c) && Mentions(lines[..n], c)
    ensures !DistinctComponents(lines)
  {
  }

  lemma StillDistinct(lines: seq<Assumption>, n: nat, c: Component)
    requires n < |lines| && lines[n].component == Some(c) && !Mentions(lines[..n], c) && DistinctComponents(lines[..n])
    ensures DistinctComponents(lines[..n + 1])
  {
  }

  /** Accepts the assumptions exactly when each component appears once with amounts in range, whatever the order. */
  method ValidateAssumptions(lines: seq<Assumption>) returns (r: Result<ByComponent, ForecastError>)
    ensures r.Ok? <==> AssumptionsOk(lines)
    ensures r.Ok? ==> AreAssumed(r.value, lines)
    ensures r.Err? ==> AssumptionFault(lines, r.error)
  {
    hide Assumed;
    if |lines| != |COMPONENTS| {
      return Err(ComponentsNotOnceEach);
    }
    var stored: ByComponent := map[];
    NothingAssumed(lines);
    for i := 0 to |lines|
      invariant AreAssumed(stored, lines[..i])
      invariant DistinctComponents(lines[..i])
      invariant forall l :: l in lines[..i] ==> AssumptionOk(l)
    {
      var line := lines[i];
      assert line in lines;
      if line.component.None? {
        return Err(ComponentsNotOnceEach);
      }
      var c := line.component.value;
      if c in stored {
        RepeatsComponent(lines, i, c);
        return Err(ComponentsNotOnceEach);
      }
      if line.provenance != ASSUMPTION_PROVENANCE {
        return Err(BadProvenance);
      }
      if !IsMoney(line.total) || !IsMoney(line.today) {
        return Err(NotMoney);
      }
      if line.today.value > line.total.value {
        return Err(TodayExceedsTotal);
      }
      if c == ModelInference && (line.total.value != 0 || line.today.value != 0) {
        return Err(ModelInferenceIsDerived);
      }
      Stored(stored, lines, i, c);
      stored := stored[c := (line.total.value, line.today.value)];
      assert lines[..i + 1] == lines[..i] + [line];
      StillDistinct(lines, i, c);
    }
    assert lines[..|lines|] == lines;
    return Ok(stored);
  }

  lemma NothingAssumed(lines: seq<Assumption>)
    ensures AreAssumed(map[], lines[..0])
  {
  }

  // ---- model lines ----

  ghost predicate ModelFault(lines: seq<ModelLine>, e: ForecastError) {
    match e
    case TooManyModels => |lines| > MAX_MODEL_LINES
    case RouteHashNotUnique => !DistinctRoutes(lines) || exists l :: l in lines && !IsSha256(l.routeHash)
    case NotAnInteger =>
      exists l :: l in lines && !(IsBounded(l.input) && IsBounded(l.output) && IsBounded(l.todayInput) && IsBounded(l.todayOutput))
    case TodayExceedsTotal =>
      exists l :: l in lines && (Tokens(l.todayInput) > Tokens(l.input) || Tokens(l.todayOutput) > Tokens(l.output))
    case NotMoney =>
      (exists l :: l in lines && (!IsMoney(l.inputRate) || !IsMoney(l.outputRate)))
      || ModelCost(lines, false) >= MONEY || ModelCost(lines, true) >= MONEY
    case UnpricedTokens =>
      exists l :: l in lines && (Tokens(l.input) > 0 || Tokens(l.output) > 0) && Amount(l.inputRate) == 0 && Amount(l.outputRate) == 0
    case _ => false
  }

  lemma {:induction false} ModelCostGrows(lines: seq<ModelLine>, n: nat, today: bool)
    requires n <= |lines|
    ensures ModelCost(lines[..n], today) <= ModelCost(lines, today)
  {
    hide CostOf;
    if n == |lines| {
      assert lines[..n] == lines;
    } else {
      ModelCostGrows(lines[..|lines| - 1], n, today);
      assert lines[..|lines| - 1][..n] == lines[..n];
    }
  }

  lemma ModelCostNext(lines: seq<ModelLine>, n: nat, today: bool)
    requires n < |lines|
    ensures ModelCost(lines[..n + 1], today) == ModelCost(lines[..n], today) + CostOf(lines[n], today) <= ModelCost(lines, today)
  {
    hide CostOf;
    assert lines[..n + 1][..n] == lines[..n];
    ModelCostGrows(lines, n + 1, today);
  }

  predicate ModelLineFault(l: ModelLine, e: ForecastError) {
    match e
    case NotAnInteger => !(IsBounded(l.input) && IsBounded(l.output) && IsBounded(l.todayInput) && IsBounded(l.todayOutput))
    case TodayExceedsTotal => Tokens(l.todayInput) > Tokens(l.input) || Tokens(l.todayOutput) > Tokens(l.output)
    case NotMoney => !IsMoney(l.inputRate) || !IsMoney(l.outputRate)
    case UnpricedTokens =>
      (Tokens(l.input) > 0 || Tokens(l.output) > 0) && Amount(l.inputRate) == 0 && Amount(l.outputRate) == 0
    case _ => false
  }

  // The checks of one model line after its route hash, in their order.
  method CheckModelLine(l: ModelLine) returns (error: Option<ForecastError>)
    ensures error.None? && IsSha256(l.routeHash) <==> ModelLineOk(l)
    ensures error.Some? ==> ModelLineFault(l, error.value)
  {
    hide IsSha256;
    if !IsBounded(l.input) || !IsBounded(l.output) || !IsBounded(l.todayInput) || !IsBounded(l.todayOutput) {
      return Some(NotAnInteger);
    }
    if l.todayInput.value > l.input.value || l.todayOutput.value > l.output.value {
      return Some(TodayExceedsTotal);
    }
    if !IsMoney(l.inputRate) || !IsMoney(l.outputRate) {
      return Some(NotMoney);
    }
    if (l.input.value != 0 || l.output.value != 0 || l.todayInput.value != 0 || l.todayOutput.value != 0)
       && l.inputRate.value == 0 && l.outputRate.value == 0 {
      return Some(UnpricedTokens);
    }
    return None;
  }

  lemma ModelLineFaultIsFault(lines: seq<ModelLine>, n: nat, e: ForecastError)
    requires n < |lines| && ModelLineFault(lines[n], e)
    ensures ModelFault(lines, e) && !ModelsOk(lines)
  {
    hide IsSha256, CostOf, ModelCost;
    assert lines[n] in lines;
  }

  lemma OkIsHashed(l: ModelLine)
    ensures ModelLineOk(l) ==> IsSha256(l.routeHash)
  {
  }

  lemma NothingPriced(lines: seq<ModelLine>)
    ensures ModelCost(lines[..0], false) == ModelCost(lines[..0], true) == 0
  {
  }

  /** Accepts the model lines exactly when they are acceptable, whatever their order, and prices what remains. */
  method ModelRemaining(lines: seq<ModelLine>) returns (r: Result<(nat, nat, seq<ModelLine>), ForecastError>)
    ensures r.Ok? <==> ModelsOk(lines)
    ensures r.Ok? ==> r.value == (ModelCost(lines, false), ModelCost(lines, true), lines)
    ensures r.Err? ==> ModelFault(lines, r.error)
  {
    hide IsSha256, CostOf, ModelCost, Tokens, Amount, ModelLineFault, ModelLineOk;
    NothingPriced(lines);
    if |lines| > MAX_MODEL_LINES {
      return Err(TooManyModels);
    }
    var total, today := 0, 0;
    var material: seq<ModelLine> := [];
    var seen: set<string> := {};
    for i := 0 to |lines|
      invariant total == ModelCost(lines[..i], false) < MONEY && today == ModelCost(lines[..i], true) < MONEY
      invariant material == lines[..i]
      invariant seen == set j | 0 <= j < i :: lines[j].routeHash
      invariant DistinctRoutes(lines[..i])
      invariant forall l :: l in lines[..i] ==> ModelLineOk(l)
    {
      var line := lines[i];
      assert line in lines;
      OkIsHashed(line);
      if !IsSha256(line.routeHash) || line.routeHash in seen {
        return Err(RouteHashNotUnique);
      }
      seen := seen + {line.routeHash};
      var error := CheckModelLine(line);
      if error.Some? {
        ModelLineFaultIsFault(lines, i, error.value);
        return Err(error.value);
      }
      ModelCostNext(lines, i, false);
      ModelCostNext(lines, i, true);
      total := total + CostOf(line, false);
      if total >= MONEY {
        return Err(NotMoney);
      }
      today := today + CostOf(line, true);
      if today >= MONEY {
        return Err(NotMoney);
      }
      material := material + [line];
      assert lines[..i + 1] == lines[..i] + [line];
    }
    assert lines[..|lines|] == lines;
    return Ok((total, today, material));
  }

  // ---- the decision ----

  function Dimensions(i: ForecastInput): seq<Dimension>
    requires Accepts(i)
  {
    DimensionsOf(i, AllCost(i, false), AllCost(i, true), Forecast(i, ModelInference, false),
                 Forecast(i, ModelInference, true), Forecast(i, CloudRuntime, false))
  }

  predicate AllWithin(ds: seq<Dimension>) {
    forall k :: 0 <= k < |ds| ==> ds[k].within
  }

  predicate SomeApproval(ds: seq<Dimension>) {
    exists k :: 0 <= k < |ds| && ds[k].approval
  }

  function ReasonOf(stopReason: string, ds: seq<Dimension>): Reason {
    if stopReason != "ok" then CostStopActive
    else if !AllWithin(ds) then OverLimit
    else if SomeApproval(ds) then NeedsApproval
    else WithinRecordedPolicy
  }

  function Decide(i: ForecastInput): Decision
    requires Accepts(i)
  {
    var ds := Dimensions(i);
    Decision(ReasonOf(i.stopReason, ds), ds, AllWithin(ds), SomeApproval(ds),
             ReasonOf(i.stopReason, ds) == WithinRecordedPolicy,
             Sorted(i.ledger, EventId), AssumptionMaterial(i.assumptions), i.models)
  }

  ghost predicate AreForecast(totals: Totals, i: ForecastInput, n: nat, today: bool)
    requires n <= |COMPONENTS|
  {
    forall c :: c in COMPONENTS[..n] ==> c in totals && totals[c] == Forecast(i, c, today) < MONEY
  }

  // Eight lines for distinct components leave none out.
  lemma AssumedOf(stored: ByComponent, lines: seq<Assumption>, c: Component)
    requires AssumptionsOk(lines) && AreAssumed(stored, lines)
    ensures c in stored
  {
    if !Mentions(lines, c) {
      NamesEach(lines, |lines|);
      FewOthers(c);
      forall k | 0 <= k < |lines| ensures lines[k].component in Others(c) {
        assert lines[k] in lines;
        assert lines[k].component == Some(lines[k].component.value) && lines[k].component.value != c;
      }
      SubsetIsNoLarger(Named(lines, |lines|), Others(c));
    }
  }

  function Named(lines: seq<Assumption>, n: nat): set<Option<Component>>
    requires n <= |lines|
  {
    set k | 0 <= k < n :: lines[k].component
  }

  function Others(c: Component): set<Option<Component>> {
    {Some(CiCd), Some(CloudRuntime), Some(HumanReview), Some(ModelInference), Some(Monitoring), Some(Rework),
     Some(StorageRetrieval), Some(ToolExecution)} - {Some(c)}
  }

  lemma FewOthers(c: Component)
    ensures |Others(c)| == 7 && forall d: Component :: d != c ==> Some(d) in Others(c)
  {
  }

  lemma {:induction false} SubsetIsNoLarger<T>(a: set<T>, b: set<T>)
    requires a <= b
    ensures |a| <= |b|
  {
    if a != {} {
      var x :| x in a;
      SubsetIsNoLarger(a - {x}, b - {x});
    }
  }

  lemma {:induction false} NamesEach(lines: seq<Assumption>, n: nat)
    requires DistinctComponents(lines) && n <= |lines|
    ensures |Named(lines, n)| == n
  {
    if n > 0 {
      NamesEach(lines, n - 1);
      assert lines[n - 1].component !in Named(lines, n - 1);
      assert Named(lines, n) == Named(lines, n - 1) + {lines[n - 1].component};
    }
  }

  ghost predicate AllForecast(totals: Totals, today: Totals, i: ForecastInput) {
    && (forall c: Component :: c in totals && totals[c] == Forecast(i, c, false) < MONEY)
    && (forall c: Component :: c in today && today[c] == Forecast(i, c, true) < MONEY)
  }

  // The component loop, on what the three validations returned.
  method ForecastComponents(i: ForecastInput, assumed: ByComponent, incurred: (Totals, Totals), models: (nat, nat))
    returns (r: Result<(Totals, Totals), ForecastError>)
    requires i.asOf.Some? && AssumptionsOk(i.assumptions) && AreAssumed(assumed, i.assumptions)
    requires AreIncurred(incurred.0, i.ledger, None) && AreIncurred(incurred.1, i.ledger, Today(i))
    requires models == (ModelCost(i.models, false), ModelCost(i.models, true))
    ensures r.Ok? <==> forall c: Component :: Forecast(i, c, false) < MONEY && Forecast(i, c, true) < MONEY
    ensures r.Ok? ==> AllForecast(r.value.0, r.value.1, i)
    ensures r.Ok? ==> SumOf(r.value.0) == AllCost(i, false) && SumOf(r.value.1) == AllCost(i, true)
    ensures r.Err? ==> r.error == NotMoney
  {
    hide AssumptionsOk, Incurred, Assumed, ModelCost;
    var totals: Totals, today: Totals := map[], map[];
    for k := 0 to |COMPONENTS|
      invariant AreForecast(totals, i, k, false) && AreForecast(today, i, k, true)
    {
      var c := COMPONENTS[k];
      AssumedOf(assumed, i.assumptions, c);
      var extraTotal, extraToday := assumed[c].0, assumed[c].1;
      if c == ModelInference {
        extraTotal, extraToday := models.0, models.1;
      }
      totals := totals[c := incurred.0[c] + extraTotal];
      assert totals[c] == Forecast(i, c, false);
      if totals[c] >= MONEY {
        return Err(NotMoney);
      }
      today := today[c := incurred.1[c] + extraToday];
      assert today[c] == Forecast(i, c, true);
      if today[c] >= MONEY {
        return Err(NotMoney);
      }
      OneMoreComponent(totals, today, i, k);
    }
    AllComponents(totals, today, i);
    return Ok((totals, today));
  }

  // The six limits, each with its value.
  function DimensionsOf(i: ForecastInput, total: nat, daily: nat, modelTotal: nat, modelDaily: nat, cloud: nat): seq<Dimension>
    requires IsPositive(i.budgetTotal) && IsPositive(i.budgetDaily) && IsBounded(i.ciMinutesToday)
    requires IsPositive(i.policy.maxTotalModel) && IsPositive(i.policy.maxDailyModel)
    requires IsPositive(i.policy.maxCloud) && IsPositive(i.policy.maxCiMinutes)
  {
    var p := i.policy;
    [DimensionOf(AllCostTotal, total, i.budgetTotal.value, p.approvalAbove),
     DimensionOf(AllCostDaily, daily, i.budgetDaily.value, p.approvalAbove),
     DimensionOf(ModelCostTotal, modelTotal, p.maxTotalModel.value, p.approvalAbove),
     DimensionOf(ModelCostDaily, modelDaily, p.maxDailyModel.value, p.approvalAbove),
     DimensionOf(CloudSpendTotal, cloud, p.maxCloud.value, p.approvalAbove),
     DimensionOf(CiMinutesDaily, 1_000_000 * i.ciMinutesToday.value, p.maxCiMinutes.value, p.approvalAbove)]
  }

  // The error names the first thing that is wrong; past the three lists only an amount can be.
  ghost predicate FirstFault(i: ForecastInput, e: ForecastError) {
    if i.asOf.None? then e == NaiveTime
    else if !IsPositive(i.budgetTotal) || !IsPositive(i.budgetDaily) then e == NotMoney
    else if i.stopReason !in STOP_REASONS then e == UnknownStopReason
    else if !IsBounded(i.ciMinutesToday) then e == NotAnInteger
    else if !AssumptionsOk(i.assumptions) then AssumptionFault(i.assumptions, e)
    else if !LedgerOk(i.ledger, i.asOf.value) then LedgerFault(i.ledger, i.asOf.value, e)
    else if !ModelsOk(i.models) then ModelFault(i.models, e)
    else e == NotMoney
  }

  /** Succeeds exactly on acceptable inputs, and then decides as Decide, which no loop or order enters; otherwise the
      error is the first fault. */
  method DeriveForecast(i: ForecastInput) returns (r: Result<Decision, ForecastError>)
    ensures r.Ok? <==> Accepts(i)
    ensures r.Ok? ==> r.value == Decide(i)
    ensures r.Err? ==> FirstFault(i, r.error)
  {
    hide LedgerOk, AssumptionsOk, ModelsOk, Incurred, Assumed, ModelCost, Sorted, DimensionOf, AssumptionMaterial,
         Forecast, AreAssumed, AreIncurred, AllWithin, SomeApproval, LedgerFault, AssumptionFault, ModelFault;
    if i.asOf.None? {
      return Err(NaiveTime);
    }
    if !IsPositive(i.budgetTotal) || !IsPositive(i.budgetDaily) {
      return Err(NotMoney);
    }
    if i.stopReason !in STOP_REASONS {
      return Err(UnknownStopReason);
    }
    if !IsBounded(i.ciMinutesToday) {
      return Err(NotAnInteger);
    }
    var assumed := ValidateAssumptions(i.assumptions);
    if assumed.Err? {
      return Err(assumed.error);
    }
    var incurred := ValidateLedger(i.ledger, i.asOf.value);
    if incurred.Err? {
      return Err(incurred.error);
    }
    var models := ModelRemaining(i.models);
    if models.Err? {
      return Err(models.error);
    }
    var forecast := ForecastComponents(i, assumed.value, incurred.value, (models.value.0, models.value.1));
    if forecast.Err? {
      return Err(forecast.error);
    }
    var totals, today := forecast.value.0, forecast.value.1;
    var total, daily := SumOf(totals), SumOf(today);
    var p := i.policy;
    if total >= MONEY || daily >= MONEY || !IsPositive(p.maxTotalModel) || !IsPositive(p.maxDailyModel)
       || !IsPositive(p.maxCloud) || !IsPositive(p.maxCiMinutes) {
      return Err(NotMoney);
    }
    var dimensions := DimensionsOf(i, total, daily, totals[ModelInference], today[ModelInference], totals[CloudRuntime]);
    var reason := ReasonOf(i.stopReason, dimensions);
    return Ok(Decision(reason, dimensions, AllWithin(dimensions), SomeApproval(dimensions),
                       reason == WithinRecordedPolicy, Sorted(i.ledger, EventId), AssumptionMaterial(i.assumptions), models.value.2));
  }

  function SumOf(t: Totals): nat
    requires forall c: Component :: c in t
  {
    t[CiCd] + t[CloudRuntime] + t[HumanReview] + t[ModelInference] + t[Monitoring] + t[Rework]
    + t[StorageRetrieval] + t[ToolExecution]
  }

  lemma OneMoreComponent(totals: Totals, today: Totals, i: ForecastInput, n: nat)
    requires n < |COMPONENTS| && AreForecast(totals, i, n, false) && AreForecast(today, i, n, true)
    requires var c := COMPONENTS[n]; c in totals && totals[c] == Forecast(i, c, false) < MONEY
    requires var c := COMPONENTS[n]; c in today && today[c] == Forecast(i, c, true) < MONEY
    ensures AreForecast(totals, i, n + 1, false) && AreForecast(today, i, n + 1, true)
  {
    hide Forecast;
    assert COMPONENTS[..n + 1] == COMPONENTS[..n] + [COMPONENTS[n]];
  }

  lemma AllComponents(totals: Totals, today: Totals, i: ForecastInput)
    requires AreForecast(totals, i, |COMPONENTS|, false) && AreForecast(today, i, |COMPONENTS|, true)
    ensures AllForecast(totals, today, i)
    ensures SumOf(totals) == AllCost(i, false) && SumOf(today) == AllCost(i, true)
  {
    hide Forecast;
    assert COMPONENTS[..|COMPONENTS|] == COMPONENTS;
    forall c: Component ensures c in COMPONENTS {
      InComponents(c);
    }
  }

  lemma InComponents(c: Component)
    ensures c in COMPONENTS
  {
  }
}
