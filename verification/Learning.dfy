/** Cross-project learning: grouped counts over source tables, the bucket validator, and the bucket table's CHECKs.

    A bucket key is its position in the list of its signal class; a value outside the list has a position beyond it. */
module Learning {
  import opened Options
  import opened Bags

  datatype Signal =
    | EvalFailureRates | ReviewerMissPatterns | CostAndLatency | ToolReliability | ConnectorFailures
    | FailureModes | SecuritySafe | OtherSignal

  const SIGNALS :=
    [EvalFailureRates, ReviewerMissPatterns, CostAndLatency, ToolReliability, ConnectorFailures, FailureModes, SecuritySafe]

  const COST_KEYS := 8 // then five latency keys
  const EXPECTED_BUCKET_COUNT := 62

  function Size(s: Signal): nat {
    match s
    case EvalFailureRates => 11
    case ReviewerMissPatterns => 3
    case CostAndLatency => 13
    case ToolReliability => 13
    case ConnectorFailures => 12
    case FailureModes => 8
    case SecuritySafe => 2
    case OtherSignal => 0
  }

  datatype Unit = Usd | Milliseconds | CountUnit | OtherUnit

  // The metric is in millionths.
  datatype Bucket = Bucket(signal: Signal, key: nat, events: int, projects: int, tenants: int, metric: Option<int>, unit: Unit)

  datatype LearningError =
    | UnknownSignalClass | UnknownBucketKey | NegativeCount | CountShape | UnknownMetricUnit | MetricUnit | MetricShape

  // ---- the validator, and the CHECKs of the table, which were written apart ----

  function SumNullRule(b: Bucket, bounded: bool): Option<LearningError> {
    if b.events == 0 then if b.metric.Some? then Some(MetricShape) else None
    else if b.metric.None? || b.metric.value < 0 then Some(MetricShape)
    else if bounded && b.metric.value > b.events * 1_000_000 then Some(MetricShape)
    else None
  }

  function ValidateMetric(b: Bucket): Option<LearningError> {
    match b.signal
    case CostAndLatency =>
      if b.unit != (if b.key < COST_KEYS then Usd else Milliseconds) then Some(MetricUnit) else SumNullRule(b, false)
    case EvalFailureRates => if b.unit != CountUnit then Some(MetricUnit) else SumNullRule(b, true)
    case ToolReliability => if b.unit != CountUnit then Some(MetricUnit) else SumNullRule(b, true)
    case OtherSignal => Some(UnknownSignalClass)
    case _ => if b.unit != CountUnit || b.metric.Some? then Some(MetricShape) else None
  }

  function ValidateBucket(b: Bucket): Result<Bucket, LearningError> {
    if b.signal == OtherSignal then Err(UnknownSignalClass)
    else if b.key >= Size(b.signal) then Err(UnknownBucketKey)
    else if b.events < 0 || b.projects < 0 || b.tenants < 0 then Err(NegativeCount)
    else if b.tenants > b.projects || b.projects > b.events then Err(CountShape)
    else if b.unit == OtherUnit then Err(UnknownMetricUnit)
    else if ValidateMetric(b).Some? then Err(ValidateMetric(b).value)
    else Ok(b)
  }

  // (n_events = 0 AND metric_sum IS NULL) OR (n_events > 0 AND metric_sum IS NOT NULL AND metric_sum >= 0)
  predicate SumCheck(b: Bucket) {
    (b.events == 0 && b.metric.None?) || (b.events > 0 && b.metric.Some? && b.metric.value >= 0)
  }

  predicate MetricShapeCheck(b: Bucket) {
    || (b.signal == CostAndLatency && b.key < COST_KEYS && b.unit == Usd && SumCheck(b))
    || (b.signal == CostAndLatency && COST_KEYS <= b.key < Size(CostAndLatency) && b.unit == Milliseconds && SumCheck(b))
    || (b.signal in {EvalFailureRates, ToolReliability} && b.unit == CountUnit && SumCheck(b)
        && (b.events > 0 ==> b.metric.value <= b.events * 1_000_000))
    || (b.signal in {ReviewerMissPatterns, ConnectorFailures, FailureModes, SecuritySafe}
        && b.unit == CountUnit && b.metric.None?)
  }

  predicate BucketChecks(b: Bucket) {
    && b.signal in SIGNALS && b.key < Size(b.signal)
    && b.events >= 0 && b.projects >= 0 && b.tenants >= 0
    && b.tenants <= b.projects && b.projects <= b.events
    && b.unit in {Usd, Milliseconds, CountUnit}
    && MetricShapeCheck(b)
  }

  lemma SignalsAreKnown(s: Signal)
    ensures s in SIGNALS <==> s != OtherSignal
  {
  }

  /** The validator accepts exactly the rows that the table's CHECKs accept. */
  lemma ValidatorIsTheChecks(b: Bucket)
    ensures ValidateBucket(b).Ok? <==> BucketChecks(b)
  {
    SignalsAreKnown(b.signal);
  }

  // ---- the source queries ----

  // One source row; `amount` is summed for cost and latency, `flagged` counted for failed evaluations and denied calls.
  datatype Event = Event(key: nat, project: nat, tenant: nat, amount: nat, flagged: bool)

  datatype Sources = Sources(qualifications: seq<Event>, reviews: seq<Event>, costs: seq<Event>, latencies: seq<Event>,
                             toolCalls: seq<Event>, secrets: seq<Event>, monitors: seq<Event>, deploys: seq<Event>,
                             failures: seq<Event>, findings: seq<Event>)

  // The table whose rows a key groups. The three connector tables have keys of their own.
  function TableOf(src: Sources, s: Signal, key: nat): seq<Event> {
    match s
    case EvalFailureRates => src.qualifications
    case ReviewerMissPatterns => src.reviews
    case CostAndLatency => if key < COST_KEYS then src.costs else src.latencies
    case ToolReliability => src.toolCalls
    case ConnectorFailures => if key < 4 then src.secrets else if key < 10 then src.monitors else src.deploys
    case FailureModes => src.failures
    case SecuritySafe => src.findings
    case OtherSignal => []
  }

  function IfKey(key: nat): Event -> Option<Event> {
    (e: Event) => if e.key == key then Some(e) else None
  }

  // GROUP BY, then the row of the fixed key list: an empty group when nothing joins.
  function Group(src: Sources, s: Signal, key: nat): seq<Event> {
    Collect(TableOf(src, s, key), IfKey(key))
  }

  function Projects(g: seq<Event>): set<nat> {
    set e | e in g :: e.project
  }

  function Tenants(g: seq<Event>): set<nat> {
    set e | e in g :: e.tenant
  }

  function AmountOf(e: Event): nat {
    e.amount
  }

  function FlagOf(e: Event): nat {
    if e.flagged then 1_000_000 else 0
  }

  function RowOf(src: Sources, s: Signal, key: nat): Bucket {
    var g := Group(src, s, key);
    Bucket(s, key, |g|, |Projects(g)|, |Tenants(g)|,
           if g == [] then None
           else if s == CostAndLatency then Some(Sum(g, AmountOf))
           else if s in {EvalFailureRates, ToolReliability} then Some(Sum(g, FlagOf))
           else None,
           if s == CostAndLatency then if key < COST_KEYS then Usd else Milliseconds else CountUnit)
  }

  function Query(src: Sources, s: Signal): seq<Bucket> {
    seq(Size(s), k requires 0 <= k < Size(s) => RowOf(src, s, k))
  }

  // Every query of a READ COMMITTED transaction has a snapshot of its own; `at` gives the sources it sees.
  type Snapshots = Signal -> Sources

  function SourceRows(at: Snapshots): seq<Bucket> {
    Query(at(EvalFailureRates), EvalFailureRates) + Query(at(ReviewerMissPatterns), ReviewerMissPatterns)
    + Query(at(CostAndLatency), CostAndLatency) + Query(at(ToolReliability), ToolReliability)
    + Query(at(ConnectorFailures), ConnectorFailures) + Query(at(FailureModes), FailureModes)
    + Query(at(SecuritySafe), SecuritySafe)
  }

  // A project id fixes its tenant, within each table.
  predicate TenantFixed(events: seq<Event>) {
    forall e, f :: e in events && f in events && e.project == f.project ==> e.tenant == f.tenant
  }

  predicate TenantsFixed(src: Sources) {
    && TenantFixed(src.qualifications) && TenantFixed(src.reviews) && TenantFixed(src.costs) && TenantFixed(src.latencies)
    && TenantFixed(src.toolCalls) && TenantFixed(src.secrets) && TenantFixed(src.monitors) && TenantFixed(src.deploys)
    && TenantFixed(src.failures) && TenantFixed(src.findings)
  }

  predicate AlwaysFixed(at: Snapshots) {
    forall s: Signal :: TenantsFixed(at(s))
  }

  // ---- the counts have the right shape ----

  lemma {:induction false} DistinctCounts(g: seq<Event>)
    requires TenantFixed(g)
    ensures |Tenants(g)| <= |Projects(g)| <= |g|
  {
    if g != [] {
      var init, e := g[..|g| - 1], g[|g| - 1];
      DistinctCounts(init);
      assert g == init + [e];
      assert Projects(g) == Projects(init) + {e.project};
      assert Tenants(g) == Tenants(init) + {e.tenant};
      if e.project in Projects(init) {
        var f :| f in init && f.project == e.project;
        assert f in g && e in g;
        assert Tenants(g) == Tenants(init) && Projects(g) == Projects(init);
      }
    }
  }

  lemma GroupIsPart(src: Sources, s: Signal, key: nat)
    requires TenantsFixed(src)
    ensures TenantFixed(Group(src, s, key))
  {
    hide Collect;
    var t, g := TableOf(src, s, key), Group(src, s, key);
    forall e | e in g ensures e in t {
      CollectMembers(t, IfKey(key), e);
    }
    assert TenantFixed(t);
  }

  lemma {:induction false} FlagsBounded(g: seq<Event>)
    ensures Sum(g, FlagOf) <= |g| * 1_000_000
  {
    if g != [] {
      FlagsBounded(g[..|g| - 1]);
    }
  }

  lemma RowIsValid(src: Sources, s: Signal, key: nat)
    requires TenantsFixed(src) && key < Size(s)
    ensures ValidateBucket(RowOf(src, s, key)).Ok?
  {
    hide Group, Projects, Tenants, Sum;
    var g := Group(src, s, key);
    GroupIsPart(src, s, key);
    DistinctCounts(g);
    FlagsBounded(g);
  }

  // The position of a key among all of them.
  function Offset(s: Signal): nat {
    match s
    case EvalFailureRates => 0
    case ReviewerMissPatterns => 11
    case CostAndLatency => 14
    case ToolReliability => 27
    case ConnectorFailures => 40
    case FailureModes => 52
    case SecuritySafe => 60
    case OtherSignal => 62
  }

  function Position(b: Bucket): nat {
    Offset(b.signal) + b.key
  }

  lemma PositionTells(b: Bucket, c: Bucket)
    requires b.key < Size(b.signal) && c.key < Size(c.signal)
    ensures Position(b) < EXPECTED_BUCKET_COUNT
    ensures Position(b) == Position(c) ==> b.signal == c.signal && b.key == c.key
  {
  }

  /** The seven queries return 62 rows, the k-th for the k-th key of the universe, and every one passes the validator, so
      also the table's CHECKs. */
  lemma SourceRowsAreTheUniverse(at: Snapshots)
    requires AlwaysFixed(at)
    ensures |SourceRows(at)| == EXPECTED_BUCKET_COUNT
    ensures forall k :: 0 <= k < EXPECTED_BUCKET_COUNT ==>
              Position(SourceRows(at)[k]) == k && BucketChecks(SourceRows(at)[k])
  {
    hide RowOf, ValidateBucket, BucketChecks, AlwaysFixed;
    forall k | 0 <= k < EXPECTED_BUCKET_COUNT
      ensures Position(SourceRows(at)[k]) == k && BucketChecks(SourceRows(at)[k])
    {
      RowAt(at, k);
    }
  }

  // The class whose keys include position k.
  function SignalAt(k: nat): Signal {
    if k < 11 then EvalFailureRates
    else if k < 14 then ReviewerMissPatterns
    else if k < 27 then CostAndLatency
    else if k < 40 then ToolReliability
    else if k < 52 then ConnectorFailures
    else if k < 60 then FailureModes
    else SecuritySafe
  }

  lemma RowAt(at: Snapshots, k: nat)
    requires AlwaysFixed(at) && k < EXPECTED_BUCKET_COUNT
    ensures |SourceRows(at)| == EXPECTED_BUCKET_COUNT
    ensures Position(SourceRows(at)[k]) == k && BucketChecks(SourceRows(at)[k])
  {
    hide Group, ValidateBucket, BucketChecks, TenantsFixed;
    var s := SignalAt(k);
    var key := k - Offset(s);
    assert SourceRows(at)[k] == RowOf(at(s), s, key);
    RowIsValid(at(s), s, key);
    ValidatorIsTheChecks(RowOf(at(s), s, key));
  }

  // ---- a committed snapshot ----

  function KeyOf(b: Bucket): (Signal, nat) {
    (b.signal, b.key)
  }

  // The cardinality guard, the unique key, and the CHECKs of the rows of one run.
  predicate Snapshot(rows: seq<Bucket>) {
    |rows| == EXPECTED_BUCKET_COUNT && DistinctBy(rows, KeyOf) && forall b :: b in rows ==> BucketChecks(b)
  }

  lemma {:induction false} FullSet(s: set<nat>, n: nat)
    requires forall k :: k in s ==> k < n
    ensures |s| <= n
    ensures |s| == n ==> forall k :: 0 <= k < n ==> k in s
  {
    if n > 0 {
      FullSet(s - {n - 1}, n - 1);
    } else {
      assert s == {};
    }
  }

  function Positions(rows: seq<Bucket>, n: nat): set<nat>
    requires n <= |rows|
  {
    set i | 0 <= i < n :: Position(rows[i])
  }

  lemma {:induction false} PositionsDiffer(rows: seq<Bucket>, n: nat)
    requires DistinctBy(rows, KeyOf) && n <= |rows| && forall b :: b in rows ==> b.key < Size(b.signal)
    ensures |Positions(rows, n)| == n
  {
    hide Position;
    if n > 0 {
      PositionsDiffer(rows, n - 1);
      forall i | 0 <= i < n - 1 ensures Position(rows[i]) != Position(rows[n - 1]) {
        assert KeyOf(rows[i]) != KeyOf(rows[n - 1]);
        PositionTells(rows[i], rows[n - 1]);
      }
      assert Positions(rows, n) == Positions(rows, n - 1) + {Position(rows[n - 1])};
    }
  }

  /** A committed snapshot holds every key of every class, exactly once. */
  lemma SnapshotHoldsEachKeyOnce(rows: seq<Bucket>, s: Signal, key: nat)
    requires Snapshot(rows) && key < Size(s)
    ensures exists i :: 0 <= i < |rows| && KeyOf(rows[i]) == (s, key)
                        && forall j :: 0 <= j < |rows| && KeyOf(rows[j]) == (s, key) ==> j == i
  {
    hide Position;
    var b := Bucket(s, key, 0, 0, 0, None, CountUnit);
    PositionTells(b, b);
    PositionsDiffer(rows, |rows|);
    forall k | k in Positions(rows, |rows|) ensures k < EXPECTED_BUCKET_COUNT {
      var i :| 0 <= i < |rows| && Position(rows[i]) == k;
      PositionTells(rows[i], rows[i]);
    }
    FullSet(Positions(rows, |rows|), EXPECTED_BUCKET_COUNT);
    assert Position(b) in Positions(rows, |rows|);
    var i :| 0 <= i < |rows| && Position(b) == Position(rows[i]);
    PositionTells(rows[i], b);
  }

  /** What the publisher reads, each query at its own moment, is such a snapshot. */
  lemma SourceRowsAreASnapshot(at: Snapshots)
    requires AlwaysFixed(at)
    ensures Snapshot(SourceRows(at))
  {
    hide RowOf, BucketChecks, Position, SourceRows, AlwaysFixed;
    SourceRowsAreTheUniverse(at);
    var rows := SourceRows(at);
    forall b | b in rows ensures BucketChecks(b) {
      var k :| 0 <= k < |rows| && rows[k] == b;
    }
    forall i, j | 0 <= i < j < |rows| ensures KeyOf(rows[i]) != KeyOf(rows[j]) {
      assert Position(rows[i]) != Position(rows[j]);
      SameKeySamePosition(rows[i], rows[j]);
    }
  }

  lemma SameKeySamePosition(b: Bucket, c: Bucket)
    ensures KeyOf(b) == KeyOf(c) ==> Position(b) == Position(c)
  {
  }
}
