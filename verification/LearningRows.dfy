/** What the aggregated rows count, and what each source row adds to them. */
module LearningRows {
  import opened Options
  import opened Bags
  import opened Learning

  // The source table of a key: costs before latencies, and secrets before monitors before deploys.
  function SourceTable(src: Sources, s: Signal, key: nat): seq<Event> {
    match s
    case EvalFailureRates => src.qualifications
    case ReviewerMissPatterns => src.reviews
    case CostAndLatency => if key <= 7 then src.costs else src.latencies
    case ToolReliability => src.toolCalls
    case ConnectorFailures => if key <= 3 then src.secrets else if key <= 9 then src.monitors else src.deploys
    case FailureModes => src.failures
    case SecuritySafe => src.findings
    case OtherSignal => []
  }

  // Where the rows of a key stand in their table.
  function Places(t: seq<Event>, key: nat): set<nat> {
    set i | 0 <= i < |t| && t[i].key == key
  }

  function FlaggedPlaces(t: seq<Event>, key: nat): set<nat> {
    set i | 0 <= i < |t| && t[i].key == key && t[i].flagged
  }

  lemma PlacesNext(t: seq<Event>, key: nat)
    requires t != []
    ensures var n, e := |t| - 1, t[|t| - 1];
            && |Places(t, key)| == |Places(t[..n], key)| + (if e.key == key then 1 else 0)
            && |FlaggedPlaces(t, key)| == |FlaggedPlaces(t[..n], key)| + if e.key == key && e.flagged then 1 else 0
  {
    var n := |t| - 1;
    assert Places(t, key) == Places(t[..n], key) + if t[n].key == key then {n} else {};
    assert FlaggedPlaces(t, key) == FlaggedPlaces(t[..n], key) + if t[n].key == key && t[n].flagged then {n} else {};
  }

  lemma {:induction false} GroupCounts(t: seq<Event>, key: nat)
    ensures |Collect(t, IfKey(key))| == |Places(t, key)|
    ensures Sum(Collect(t, IfKey(key)), FlagOf) == 1_000_000 * |FlaggedPlaces(t, key)|
  {
    hide Collect, Sum, Places, FlaggedPlaces;
    if t == [] {
      NothingGrouped(key);
    } else {
      GroupCounts(t[..|t| - 1], key);
      GroupNext(t, key, FlagOf);
      PlacesNext(t, key);
    }
  }

  lemma NothingGrouped(key: nat)
    ensures Collect([], IfKey(key)) == [] && Sum([], FlagOf) == 0
    ensures Places([], key) == {} && FlaggedPlaces([], key) == {}
  {
  }

  // The last row joins the group of its key.
  lemma GroupNext(t: seq<Event>, key: nat, f: Event -> nat)
    requires t != []
    ensures var before, after, e := Collect(t[..|t| - 1], IfKey(key)), Collect(t, IfKey(key)), t[|t| - 1];
            && after == (if e.key == key then before + [e] else before)
            && Sum(after, f) == Sum(before, f) + if e.key == key then f(e) else 0
  {
    var before, after, e := Collect(t[..|t| - 1], IfKey(key)), Collect(t, IfKey(key)), t[|t| - 1];
    CollectNext(t, |t| - 1, IfKey(key));
    assert t[..|t|] == t;
    if e.key == key {
      assert (before + [e])[..|before|] == before;
    }
  }

  lemma GroupHolds(t: seq<Event>, key: nat)
    ensures var g := Collect(t, IfKey(key));
            && Projects(g) == (set i | 0 <= i < |t| && t[i].key == key :: t[i].project)
            && Tenants(g) == (set i | 0 <= i < |t| && t[i].key == key :: t[i].tenant)
  {
    hide Collect;
    var g := Collect(t, IfKey(key));
    forall e ensures e in g <==> e.key == key && exists i :: 0 <= i < |t| && t[i] == e {
      CollectMembers(t, IfKey(key), e);
    }
    forall i | 0 <= i < |t| && t[i].key == key ensures t[i] in g {
    }
  }

  /** The row of a key counts the rows of its source table under that key, and their projects and tenants without
      repetition. For evaluations and tool calls the metric is the number of failed or denied ones; beside those only
      cost and latency have one; and no row has one without events. */
  lemma RowMeans(src: Sources, s: Signal, key: nat)
    ensures var r, t := RowOf(src, s, key), SourceTable(src, s, key);
            && r.signal == s && r.key == key && r.events == |Places(t, key)|
            && r.projects == |set i | 0 <= i < |t| && t[i].key == key :: t[i].project|
            && r.tenants == |set i | 0 <= i < |t| && t[i].key == key :: t[i].tenant|
            && r.unit == (if s != CostAndLatency then CountUnit else if key <= 7 then Usd else Milliseconds)
            && (r.metric.Some? <==> r.events > 0 && s in {CostAndLatency, EvalFailureRates, ToolReliability})
            && (r.metric.Some? && s != CostAndLatency ==> r.metric.value == 1_000_000 * |FlaggedPlaces(t, key)|)
  {
    hide Places, FlaggedPlaces, Collect, Sum, Projects, Tenants;
    var t := SourceTable(src, s, key);
    assert t == TableOf(src, s, key);
    GroupCounts(t, key);
    GroupHolds(t, key);
  }

  /** A cost or latency row adds its amount to the metric of its own key, and leaves the others. */
  lemma AmountAdds(src: Sources, e: Event, key: nat)
    ensures var paid := src.(costs := src.costs + [e]);
            var before, after := RowOf(src, CostAndLatency, key).metric, RowOf(paid, CostAndLatency, key).metric;
            after == if key > 7 || e.key != key then before
                     else Some((if before.Some? then before.value else 0) + e.amount)
    ensures var timed := src.(latencies := src.latencies + [e]);
            var before, after := RowOf(src, CostAndLatency, key).metric, RowOf(timed, CostAndLatency, key).metric;
            after == if key <= 7 || e.key != key then before
                     else Some((if before.Some? then before.value else 0) + e.amount)
  {
    hide Collect, Sum, Projects, Tenants;
    var costs, latencies := src.costs + [e], src.latencies + [e];
    assert costs[..|src.costs|] == src.costs && latencies[..|src.latencies|] == src.latencies;
    GroupNext(costs, key, AmountOf);
    GroupNext(latencies, key, AmountOf);
    NothingSummed();
  }

  lemma NothingSummed()
    ensures Sum([], AmountOf) == 0
  {
  }
}
