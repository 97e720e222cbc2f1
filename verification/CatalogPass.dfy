/** The populate pass is a run of the machine: what a session does, row for row, a transaction alone can do step by step. */
module CatalogPass {
  import opened CatalogTables
  import opened CatalogInvariant
  import opened CatalogSteps
  import opened CatalogCommit
  import opened CatalogRuns
  import opened CatalogItems
  import opened CatalogRules

  // ---- a transaction alone ----

  // Nobody else is there, and no trigger of its missed an asset.
  predicate Sole(s: State, x: nat) {
    && s.txns.Keys == {x} && s.txns[x].blind == {}
    && (forall a :: a in s.locks ==> s.locks[a] == x) && (forall p :: p in s.shares ==> p.1 == x)
  }

  // It is between two statements.
  predicate Lone(s: State, x: nat) {
    Sole(s, x) && s.txns[x].stage.Open? && s.txns[x].owed == {}
  }

  function Seen(s: State, x: nat): Tables
    requires x in s.txns
  {
    View(s, s.txns[x])
  }

  // The transaction sees what the session sees, at the same time.
  predicate Agrees(s: State, x: nat, m: Session) {
    Lone(s, x) && Seen(s, x) == m.tables && s.clock == m.clock
  }

  predicate SameBase(s: State, s': State) {
    s'.tables == s.tables && s'.blind == s.blind
  }

  lemma IdIsFresh(s: State, x: nat, id: nat)
    requires Lone(s, x)
    requires id !in Seen(s, x).assets && id !in Seen(s, x).vettings && id !in Seen(s, x).listings
    ensures Fresh(s, id)
  {
  }

  lemma NothingToWaitFor(s: State, x: nat, stmt: Stmt)
    requires Lone(s, x) && (stmt.AddAsset? || stmt.AddVetting? || stmt.AddListing? ==> Fresh(s, stmt.id))
    ensures Enabled(s, Execute(x, stmt))
  {
    hide Fresh, HasIdentity, View;
  }

  // ---- single steps ----

  lemma AssetStep(s: State, x: nat, id: nat, asset: Asset)
    requires Lone(s, x) && Fresh(s, id) && !HasIdentity(Seen(s, x), AssetIdentity(asset))
    ensures Enabled(s, Execute(x, AddAsset(id, asset)))
    ensures var s' := Step(s, Execute(x, AddAsset(id, asset)));
            && Lone(s', x) && SameBase(s, s') && s'.clock == s.clock + 1
            && Seen(s', x) == Seen(s, x).(assets := Seen(s, x).assets[id := asset])
  {
    hide Fresh, HasIdentity, AssetIdentity;
    NothingToWaitFor(s, x, AddAsset(id, asset));
    OverlayUpdate(s.tables.assets, s.txns[x].pending.assets, id, asset);
  }

  lemma FormStep(s: State, x: nat, stmt: Stmt)
    requires Lone(s, x) && (stmt.AddSpec? || stmt.AddScope?)
    requires stmt.parent in Seen(s, x).assets && !Vetted(Seen(s, x), stmt.parent)
    ensures Enabled(s, Execute(x, stmt))
    ensures var s' := Step(s, Execute(x, stmt));
            && Sole(s', x) && s'.txns[x] == s.txns[x].(stage := Inserting(stmt, true)) && SameBase(s, s')
            && s'.clock == s.clock + 1
  {
    hide Vetted, View;
    NothingToWaitFor(s, x, stmt);
  }

  lemma ChildStep(s: State, x: nat, t: Txn, stmt: Stmt)
    requires Sole(s, x) && t.owed == {} && t.blind == {} && s.txns[x] == t.(stage := Inserting(stmt, true))
    requires (stmt.AddSpec? || stmt.AddScope?) && !HasRow(View(s, t), ChildRow(stmt))
    ensures Enabled(s, InsertChild(x))
    ensures var s' := Step(s, InsertChild(x));
            && Sole(s', x) && s'.txns[x] == Txn(Open, WithChild(t.pending, stmt), {ChildRow(stmt)}, {}) && SameBase(s, s')
            && s'.clock == s.clock
  {
    hide HasRow, WithChild, Overlay;
    assert t.owed + {ChildRow(stmt)} == {ChildRow(stmt)};
  }

  lemma KeyStep(s: State, x: nat, row: Row)
    requires Sole(s, x) && s.txns[x].stage.Open? && s.txns[x].owed == {row} && Keyed(Seen(s, x), row)
    ensures Enabled(s, CheckKey(x, row))
    ensures var s' := Step(s, CheckKey(x, row));
            Lone(s', x) && SameBase(s, s') && s'.clock == s.clock && Seen(s', x) == Seen(s, x)
  {
    hide Keyed, Overlay;
    assert {row} - {row} == {};
  }

  lemma VettingStep(s: State, x: nat, id: nat, row: Vetting)
    requires Lone(s, x) && Fresh(s, id) && row.asset in Seen(s, x).assets && VettingGuard(Seen(s, x), row).None?
    ensures Enabled(s, Execute(x, AddVetting(id, row)))
    ensures var s' := Step(s, Execute(x, AddVetting(id, row)));
            && Sole(s', x) && s'.txns[x].stage.Open? && s'.txns[x].owed == {RecordRow(id, row.asset)} && SameBase(s, s')
            && s'.clock == s.clock + 1
            && Seen(s', x) == Seen(s, x).(vettings := Seen(s, x).vettings[id := row])
  {
    hide Fresh, VettingGuard;
    NothingToWaitFor(s, x, AddVetting(id, row));
    OverlayUpdate(s.tables.vettings, s.txns[x].pending.vettings, id, row);
    assert {} + {RecordRow(id, row.asset)} == {RecordRow(id, row.asset)};
  }

  lemma ResultStep(s: State, x: nat, record: nat, name: CheckName, passed: bool)
    requires Lone(s, x) && (record, name) !in Seen(s, x).results
    ensures Enabled(s, Execute(x, AddResult(record, name, passed)))
    ensures var s' := Step(s, Execute(x, AddResult(record, name, passed)));
            && Sole(s', x) && s'.txns[x].stage.Open? && s'.txns[x].owed == {ResultRow(record, name)} && SameBase(s, s')
            && s'.clock == s.clock + 1
            && Seen(s', x) == Seen(s, x).(results := Seen(s, x).results[(record, name) := passed])
  {
    NothingToWaitFor(s, x, AddResult(record, name, passed));
    OverlayUpdate(s.tables.results, s.txns[x].pending.results, (record, name), passed);
    assert {} + {ResultRow(record, name)} == {ResultRow(record, name)};
  }

  lemma ListingStep(s: State, x: nat, id: nat, asset: nat, record: nat)
    requires Lone(s, x) && Fresh(s, id) && ListingGuard(Seen(s, x), asset, record).None?
    ensures Enabled(s, Execute(x, AddListing(id, asset, record)))
    ensures var s' := Step(s, Execute(x, AddListing(id, asset, record)));
            && Sole(s', x) && s'.txns[x] == s.txns[x].(stage := Waiting(id, Listing(asset, record, true, s.clock)))
            && SameBase(s, s') && s'.clock == s.clock + 1
  {
    hide Fresh, ListingGuard, Overlay;
    NothingToWaitFor(s, x, AddListing(id, asset, record));
  }

  lemma StoreStep(s: State, x: nat, t: Txn, id: nat, l: Listing)
    requires Sole(s, x) && t.owed == {} && t.blind == {} && s.txns[x] == t.(stage := Waiting(id, l))
    requires !HasLive(View(s, t), l.asset)
    ensures Enabled(s, InsertListing(x))
    ensures var s' := Step(s, InsertListing(x));
            && Lone(s', x) && SameBase(s, s') && s'.clock == s.clock
            && Seen(s', x) == View(s, t).(listings := View(s, t).listings[id := l])
  {
    hide HasLive, TouchesListing;
    OverlayUpdate(s.tables.listings, t.pending.listings, id, l);
  }

  // ---- along a run ----

  function Last(run: Run): State
    requires run.Valid()
  {
    run.states[|run.events|]
  }

  // The run goes on, and nothing is committed.
  predicate GoesOn(run: Run, longer: Run) {
    && run.Valid() && longer.Valid() && run.states <= longer.states && run.events <= longer.events
    && SameBase(Last(run), Last(longer))
  }

  predicate Follows(run: Run, longer: Run, x: nat, m: Session) {
    longer.Valid() && GoesOn(run, longer) && Agrees(Last(longer), x, m)
  }

  lemma Does(run: Run, e: Event) returns (longer: Run)
    requires run.Valid() && Enabled(Last(run), e) && SameBase(Last(run), Step(Last(run), e))
    ensures longer.Valid() && GoesOn(run, longer) && Last(longer) == Step(Last(run), e)
  {
    hide Step, Enabled;
    assert Leads(Last(run), e, Step(Last(run), e));
    longer := Extends(run, e, Step(Last(run), e));
  }

  lemma GoesOnOn(a: Run, b: Run, c: Run)
    requires GoesOn(a, b) && GoesOn(b, c)
    ensures GoesOn(a, c)
  {
  }

  lemma AddsAsset(run: Run, x: nat, m: Session, id: nat, asset: Asset) returns (longer: Run)
    requires run.Valid() && Agrees(Last(run), x, m) && !HasIdentity(m.tables, AssetIdentity(asset))
    requires id !in m.tables.assets && id !in m.tables.vettings && id !in m.tables.listings
    ensures Follows(run, longer, x, Session(m.tables.(assets := m.tables.assets[id := asset]), m.next, m.clock + 1))
  {
    hide Step, Enabled, Fresh, HasIdentity, AssetIdentity, View;
    IdIsFresh(Last(run), x, id);
    AssetStep(Last(run), x, id, asset);
    longer := Does(run, Execute(x, AddAsset(id, asset)));
  }

  lemma AddsChild(run: Run, x: nat, m: Session, stmt: Stmt) returns (longer: Run)
    requires run.Valid() && Agrees(Last(run), x, m) && (stmt.AddSpec? || stmt.AddScope?)
    requires stmt.parent in m.tables.assets && m.tables.assets[stmt.parent].kind == Connector
    requires !Vetted(m.tables, stmt.parent) && !HasRow(m.tables, ChildRow(stmt))
    ensures Follows(run, longer, x, Session(WithChild(m.tables, stmt), m.next, m.clock + 1))
  {
    hide Step, Enabled, Vetted, HasRow, View, WithChild;
    var s, t, row := Last(run), Last(run).txns[x], ChildRow(stmt);
    FormStep(s, x, stmt);
    longer := Does(run, Execute(x, stmt));
    var formed := longer;
    ViewAlone(s, Last(formed), t);
    ChildStep(Last(formed), x, t, stmt);
    longer := Does(formed, InsertChild(x));
    var stored := longer;
    SeesChild(Last(formed), t, stmt);
    ViewAlone(Last(formed), Last(stored), Last(stored).txns[x]);
    ChildIsKeyed(m.tables, stmt);
    KeyStep(Last(stored), x, row);
    longer := Does(stored, CheckKey(x, row));
    GoesOnOn(run, formed, stored);
    GoesOnOn(run, stored, longer);
  }

  lemma ViewAlone(s: State, s': State, t: Txn)
    requires SameBase(s, s')
    ensures View(s', t) == View(s, t)
  {
  }

  lemma SeesChild(s: State, t: Txn, stmt: Stmt)
    requires stmt.AddSpec? || stmt.AddScope?
    ensures View(s, Txn(Open, WithChild(t.pending, stmt), {ChildRow(stmt)}, {})) == WithChild(View(s, t), stmt)
  {
    match stmt
    case AddSpec(a, spec) => OverlayUpdate(s.tables.specs, t.pending.specs, a, spec);
    case AddScope(a, tool) =>
      assert s.tables.scope + (t.pending.scope + {(a, tool)}) == s.tables.scope + t.pending.scope + {(a, tool)};
  }

  lemma ChildIsKeyed(v: Tables, stmt: Stmt)
    requires (stmt.AddSpec? || stmt.AddScope?) && stmt.parent in v.assets && v.assets[stmt.parent].kind == Connector
    ensures Keyed(WithChild(v, stmt), ChildRow(stmt))
  {
  }

  lemma AddsVetting(run: Run, x: nat, m: Session, id: nat, row: Vetting) returns (longer: Run)
    requires run.Valid() && Agrees(Last(run), x, m)
    requires row.asset in m.tables.assets && VettingGuard(m.tables, row).None?
    requires id !in m.tables.assets && id !in m.tables.vettings && id !in m.tables.listings
    ensures Follows(run, longer, x, Session(m.tables.(vettings := m.tables.vettings[id := row]), m.next, m.clock + 1))
  {
    hide Step, Enabled, Fresh, VettingGuard, View;
    IdIsFresh(Last(run), x, id);
    VettingStep(Last(run), x, id, row);
    var stored := Does(run, Execute(x, AddVetting(id, row)));
    KeyStep(Last(stored), x, RecordRow(id, row.asset));
    longer := Does(stored, CheckKey(x, RecordRow(id, row.asset)));
    GoesOnOn(run, stored, longer);
  }

  lemma AddsResult(run: Run, x: nat, m: Session, record: nat, name: CheckName, passed: bool) returns (longer: Run)
    requires run.Valid() && Agrees(Last(run), x, m)
    requires record in m.tables.vettings && (record, name) !in m.tables.results
    ensures Follows(run, longer, x,
                    Session(m.tables.(results := m.tables.results[(record, name) := passed]), m.next, m.clock + 1))
  {
    hide Step, Enabled, View;
    ResultStep(Last(run), x, record, name, passed);
    var stored := Does(run, Execute(x, AddResult(record, name, passed)));
    KeyStep(Last(stored), x, ResultRow(record, name));
    longer := Does(stored, CheckKey(x, ResultRow(record, name)));
    GoesOnOn(run, stored, longer);
  }

  lemma AddsListing(run: Run, x: nat, m: Session, asset: nat, record: nat) returns (longer: Run)
    requires run.Valid() && Agrees(Last(run), x, m)
    requires ListingGuard(m.tables, asset, record).None? && !HasLive(m.tables, asset)
    requires m.next !in m.tables.assets && m.next !in m.tables.vettings && m.next !in m.tables.listings
    ensures Follows(run, longer, x, AfterListing(m, asset, record))
  {
    hide Step, Enabled, Fresh, ListingGuard, HasLive, View;
    var s, t := Last(run), Last(run).txns[x];
    IdIsFresh(s, x, m.next);
    ListingStep(s, x, m.next, asset, record);
    var formed := Does(run, Execute(x, AddListing(m.next, asset, record)));
    ViewAlone(s, Last(formed), t);
    StoreStep(Last(formed), x, t, m.next, Listing(asset, record, true, s.clock));
    longer := Does(formed, InsertListing(x));
    GoesOnOn(run, formed, longer);
  }

  // ---- registering ----

  // The asset's tools so far.
  function WithTools(v: Tables, a: nat, tools: seq<string>): Tables {
    v.(scope := v.scope + set t | t in tools :: (a, t))
  }

  lemma OneMoreTool(v: Tables, a: nat, tools: seq<string>, n: nat)
    requires n < |tools|
    ensures WithTools(v, a, tools[..n + 1]) == WithChild(WithTools(v, a, tools[..n]), AddScope(a, tools[n]))
  {
    assert tools[..n + 1] == tools[..n] + [tools[n]];
    assert (set t | t in tools[..n + 1] :: (a, t)) == (set t | t in tools[..n] :: (a, t)) + {(a, tools[n])};
  }

  lemma {:induction false} AddsTools(run: Run, x: nat, m: Session, a: nat, tools: seq<string>, n: nat) returns (longer: Run)
    requires run.Valid() && Agrees(Last(run), x, m) && n <= |tools|
    requires a in m.tables.assets && m.tables.assets[a].kind == Connector && !Vetted(m.tables, a)
    requires forall t :: (a, t) !in m.tables.scope
    requires forall i, j :: 0 <= i < j < |tools| ==> tools[i] != tools[j]
    ensures Follows(run, longer, x, Session(WithTools(m.tables, a, tools[..n]), m.next, m.clock + n))
  {
    hide Agrees, GoesOn, WithChild, SameBase;
    if n == 0 {
      assert WithTools(m.tables, a, tools[..0]) == m.tables;
      longer := run;
      StaysHere(run);
    } else {
      var before := AddsTools(run, x, m, a, tools, n - 1);
      var mid := Session(WithTools(m.tables, a, tools[..n - 1]), m.next, m.clock + n - 1);
      longer := AddsChild(before, x, mid, AddScope(a, tools[n - 1]));
      OneMoreTool(m.tables, a, tools, n - 1);
      GoesOnOn(run, before, longer);
    }
  }

  lemma StaysHere(run: Run)
    requires run.Valid()
    ensures GoesOn(run, run)
  {
  }

  lemma NothingUnder(v: Tables, next: nat, clock: nat)
    requires WellKept(v, next, clock)
    ensures next !in v.assets && next !in v.vettings && next !in v.listings && next !in v.specs
    ensures !Vetted(v, next) && forall t :: (next, t) !in v.scope
  {
    hide AssetIdentity;
  }

  lemma Unregistered(v: Tables, item: Item)
    requires forall a :: !IsAsset(v, a, IdentityOf(item))
    ensures !HasIdentity(v, AssetIdentity(NewAsset(item)))
  {
    NewIdentity(item);
    NobodyElse(v, IdentityOf(item));
    hide IdentityOf, AssetIdentity;
  }

  // Row ids are the session's business.
  lemma AnyNext(s: State, x: nat, m: Session, n: Session)
    requires Agrees(s, x, m) && n.tables == m.tables && n.clock == m.clock
    ensures Agrees(s, x, n)
  {
  }

  lemma RegistersItem(run: Run, x: nat, m: Session, item: Item) returns (longer: Run)
    requires run.Valid() && Agrees(Last(run), x, m) && WellKept(m.tables, m.next, m.clock)
    requires (forall a :: !IsAsset(m.tables, a, IdentityOf(item))) && Registrable(item)
    ensures Follows(run, longer, x, AfterRegister(m, item))
  {
    hide Agrees, GoesOn, WellKept, SameBase, Vetted, HasIdentity, AssetIdentity;
    var v, a := m.tables, m.next;
    NothingUnder(v, a, m.clock);
    Unregistered(v, item);
    var made := AddsAsset(run, x, m, a, NewAsset(item));
    longer := made;
    if item.ConnectorItem? {
      var w := v.(assets := v.assets[a := NewAsset(item)]);
      NamesCountedOnce(item.tools);
      StillUnvettedThere(v, w, a);
      var specified := AddsChild(made, x, Session(w, m.next, m.clock + 1), AddSpec(a, item.spec));
      var u := WithChild(w, AddSpec(a, item.spec));
      StillUnvettedThere(v, u, a);
      longer := AddsTools(specified, x, Session(u, m.next, m.clock + 2), a, item.tools, |item.tools|);
      assert item.tools[..|item.tools|] == item.tools;
      AnyNext(Last(longer), x, Session(WithTools(u, a, item.tools), m.next, m.clock + 2 + |item.tools|), AfterRegister(m, item));
      GoesOnOn(run, made, specified);
      GoesOnOn(run, specified, longer);
    } else {
      AnyNext(Last(made), x, Session(v.(assets := v.assets[a := NewAsset(item)]), m.next, m.clock + 1), AfterRegister(m, item));
    }
  }

  lemma StillUnvettedThere(v: Tables, w: Tables, a: nat)
    requires w.vettings == v.vettings && !Vetted(v, a)
    ensures !Vetted(w, a)
  {
  }

  // ---- vetting and listing ----

  lemma FiveNames(v: Tables, record: nat, checks: Checker, spec: Spec, scope: set<string>)
    ensures var c := (n: CheckName) => checks(spec, scope, n);
            v.results + ResultRows(record, checks, spec, scope)
            == v.results[(record, ToolScopeNonempty) := c(ToolScopeNonempty)]
                        [(record, ToolScopeResolves) := c(ToolScopeResolves)]
                        [(record, ProtocolResolves) := c(ProtocolResolves)]
                        [(record, FakeConforms) := c(FakeConforms)]
                        [(record, LiveAdapterSymbol) := c(LiveAdapterSymbol)]
  {
    var rows := ResultRows(record, checks, spec, scope);
    var all := v.results[(record, ToolScopeNonempty) := checks(spec, scope, ToolScopeNonempty)]
                        [(record, ToolScopeResolves) := checks(spec, scope, ToolScopeResolves)]
                        [(record, ProtocolResolves) := checks(spec, scope, ProtocolResolves)]
                        [(record, FakeConforms) := checks(spec, scope, FakeConforms)]
                        [(record, LiveAdapterSymbol) := checks(spec, scope, LiveAdapterSymbol)];
    forall k | k in v.results + rows ensures k in all && all[k] == (v.results + rows)[k] {
      match k.1
      case ToolScopeNonempty =>
      case ToolScopeResolves =>
      case ProtocolResolves =>
      case FakeConforms =>
      case LiveAdapterSymbol =>
    }
    assert forall n: CheckName :: (record, n) in rows;
  }

  // Two results more.
  lemma AddsTwo(run: Run, x: nat, m: Session, record: nat, n: CheckName, p: bool, k: CheckName, q: bool)
    returns (longer: Run)
    requires run.Valid() && Agrees(Last(run), x, m) && record in m.tables.vettings && n != k
    requires (record, n) !in m.tables.results && (record, k) !in m.tables.results
    ensures Follows(run, longer, x,
                    Session(m.tables.(results := m.tables.results[(record, n) := p][(record, k) := q]), m.next, m.clock + 2))
  {
    hide Agrees, GoesOn, SameBase;
    var one := AddsResult(run, x, m, record, n, p);
    longer := AddsResult(one, x, Session(m.tables.(results := m.tables.results[(record, n) := p]), m.next, m.clock + 1),
                         record, k, q);
    GoesOnOn(run, one, longer);
  }

  lemma AddsResults(run: Run, x: nat, m: Session, record: nat, checks: Checker, spec: Spec, scope: set<string>)
    returns (longer: Run)
    requires run.Valid() && Agrees(Last(run), x, m) && record in m.tables.vettings
    requires forall n: CheckName :: (record, n) !in m.tables.results
    ensures Follows(run, longer, x,
                    Session(m.tables.(results := m.tables.results + ResultRows(record, checks, spec, scope)), m.next, m.clock + 5))
  {
    hide Agrees, GoesOn, SameBase, ResultRows;
    FiveNames(m.tables, record, checks, spec, scope);
    var r := m.tables.results;
    var two := AddsTwo(run, x, m, record, ToolScopeNonempty, checks(spec, scope, ToolScopeNonempty),
                       ToolScopeResolves, checks(spec, scope, ToolScopeResolves));
    r := r[(record, ToolScopeNonempty) := checks(spec, scope, ToolScopeNonempty)]
          [(record, ToolScopeResolves) := checks(spec, scope, ToolScopeResolves)];
    var four := AddsTwo(two, x, Session(m.tables.(results := r), m.next, m.clock + 2), record,
                        ProtocolResolves, checks(spec, scope, ProtocolResolves), FakeConforms, checks(spec, scope, FakeConforms));
    r := r[(record, ProtocolResolves) := checks(spec, scope, ProtocolResolves)]
          [(record, FakeConforms) := checks(spec, scope, FakeConforms)];
    longer := AddsResult(four, x, Session(m.tables.(results := r), m.next, m.clock + 4), record, LiveAdapterSymbol,
                         checks(spec, scope, LiveAdapterSymbol));
    GoesOnOn(run, two, four);
    GoesOnOn(run, four, longer);
  }

  lemma RecordsItem(run: Run, x: nat, m: Session, a: nat, item: Item, checks: Checker) returns (longer: Run)
    requires run.Valid() && Agrees(Last(run), x, m) && WellKept(m.tables, m.next, m.clock)
    requires IsAsset(m.tables, a, IdentityOf(item)) && Matches(m.tables, a, item)
    ensures Follows(run, longer, x, AfterRecord(m, a, item, checks))
  {
    hide Agrees, GoesOn, SameBase, WellKept, Matches, AssetIdentity, IdentityOf, VettingGuard, Vets, ResultRows, Vetted;
    var row := VettingRow(a, item, Vets(checks, item));
    NothingUnder(m.tables, m.next, m.clock);
    VettingIsLetIn(m.tables, a, item, Vets(checks, item));
    VettingOf(a, item, Vets(checks, item));
    var vetted := AddsVetting(run, x, m, m.next, row);
    longer := vetted;
    if item.ConnectorItem? {
      var w := m.tables.(vettings := m.tables.vettings[m.next := row]);
      NoResultsUnder(m.tables, m.next, m.clock);
      longer := AddsResults(vetted, x, Session(w, m.next, m.clock + 1), m.next, checks, item.spec, Names(item.tools));
      AnyNext(Last(longer), x, Session(AfterRecord(m, a, item, checks).tables, m.next, m.clock + 6),
              AfterRecord(m, a, item, checks));
      GoesOnOn(run, vetted, longer);
    } else {
      AnyNext(Last(vetted), x, Session(AfterRecord(m, a, item, checks).tables, m.next, m.clock + 1),
              AfterRecord(m, a, item, checks));
    }
  }

  lemma NoResultsUnder(v: Tables, next: nat, clock: nat)
    requires WellKept(v, next, clock)
    ensures forall n: CheckName :: (next, n) !in v.results
  {
    hide AssetsKept, ChildrenKept, ListingsKept;
  }

  lemma VetsAndLists(run: Run, x: nat, m: Session, a: nat, item: Item, checks: Checker) returns (longer: Run)
    requires run.Valid() && Agrees(Last(run), x, m) && WellKept(m.tables, m.next, m.clock)
    requires IsAsset(m.tables, a, IdentityOf(item)) && Matches(m.tables, a, item) && FitToList(m.tables, checks, a, item)
    ensures Follows(run, longer, x, AfterVetAndList(m, a, item, checks))
  {
    hide Agrees, GoesOn, SameBase, WellKept, Matches, AssetIdentity, IdentityOf, ListingGuard, HasLive, Recorded, Vetted;
    var recorded := RecordsItem(run, x, m, a, item, checks);
    RecordedKeeps(m.tables, m.next, m.clock, a, item, checks);
    RecordedFits(m.tables, checks, m.next, a, item);
    NothingUnder(Recorded(m.tables, m.next, a, item, checks), m.next + 1, m.clock);
    longer := AddsListing(recorded, x, AfterRecord(m, a, item, checks), a, m.next);
    GoesOnOn(run, recorded, longer);
  }

  /** Settling an item is a stretch of a run: from a state in which a transaction alone sees what the session sees there
      is one to a state in which it sees what the session sees afterwards. */
  lemma MakesItem(run: Run, x: nat, m: Session, n: Session, item: Item, checks: Checker) returns (longer: Run)
    requires run.Valid() && Agrees(Last(run), x, m) && WellKept(m.tables, m.next, m.clock) && Made(m, n, item, checks)
    ensures Follows(run, longer, x, n)
  {
    hide Agrees, GoesOn, SameBase, WellKept, Settled, Matches, FitToList, IdentityOf, AfterVetAndList, Vets, Registrable, IsAsset;
    if Settled(m.tables, item) && n == m {
      longer := run;
      StaysHere(run);
    } else if a :| Relisted(m, n, a, item, checks) {
      longer := VetsAndLists(run, x, m, a, item, checks);
    } else {
      var registered := RegistersItem(run, x, m, item);
      RegisteredFits(m, item, checks);
      longer := VetsAndLists(registered, x, AfterRegister(m, item), m.next, item, checks);
      GoesOnOn(run, registered, longer);
    }
  }

  lemma RegisteredFits(m: Session, item: Item, checks: Checker)
    requires WellKept(m.tables, m.next, m.clock) && Registrable(item) && Vets(checks, item)
    requires forall a :: !IsAsset(m.tables, a, IdentityOf(item))
    ensures var w := AfterRegister(m, item);
            && WellKept(w.tables, w.next, w.clock) && IsAsset(w.tables, m.next, IdentityOf(item))
            && Matches(w.tables, m.next, item) && FitToList(w.tables, checks, m.next, item)
  {
    hide WellKept, Matches, FitToList, IdentityOf, Vets, Registrable, Registered, IsNewAsset, IsAsset;
    RegisteredWellKept(m.tables, m.next, m.clock, item);
    RegisteredIsNew(m.tables, m.next, m.clock, item);
    LaterClock(Registered(m.tables, m.next, item), m.next + 1, m.clock, AfterRegister(m, item).clock);
    FreshFits(m.tables, Registered(m.tables, m.next, item), checks, m.next, m.clock, m.next, item);
  }

  // ---- what settling keeps ----

  // Foreign keys, identities, ids and stamps, and the shape of every vetting.
  ghost predicate Orderly(m: Session) {
    WellKept(m.tables, m.next, m.clock) && ShapesSound(m.tables)
  }

  lemma ListedOrderly(m: Session, a: nat, item: Item, checks: Checker)
    requires Orderly(m) && a in m.tables.assets && Vets(checks, item)
    ensures Orderly(AfterVetAndList(m, a, item, checks))
  {
    hide WellKept, ShapesSound, Recorded, Keeps, AddsFor, LatestListed, AssetIdentity, Vets;
    var v, record := m.tables, m.next;
    var w := AfterRecord(m, a, item, checks);
    RecordedKeeps(v, record, m.clock, a, item, checks);
    RecordedAssets(v, record, a, item, checks);
    LaterClock(w.tables, record + 1, m.clock, w.clock);
    ListingKeeps(w.tables, w.next, w.clock, a, record);
    NoResultsUnder(v, record, m.clock);
    ShapesRecorded(v, record, a, item, checks);
    SameShapes(w.tables, AfterVetAndList(m, a, item, checks).tables);
  }

  lemma RecordedAssets(v: Tables, record: nat, a: nat, item: Item, checks: Checker)
    ensures Recorded(v, record, a, item, checks).assets == v.assets
  {
  }

  lemma SameShapes(v: Tables, w: Tables)
    requires ShapesSound(v) && w.vettings == v.vettings && w.results == v.results
    ensures ShapesSound(w)
  {
    forall id ensures ShapeOk(w, id) {
      assert ShapeOk(v, id);
    }
  }

  // A connector's vetting comes with its five results, all passed; another one with none.
  lemma ShapesRecorded(v: Tables, record: nat, a: nat, item: Item, checks: Checker)
    requires ShapesSound(v) && Vets(checks, item) && forall n: CheckName :: (record, n) !in v.results
    ensures ShapesSound(Recorded(v, record, a, item, checks))
  {
    var w := Recorded(v, record, a, item, checks);
    forall id ensures ShapeOk(w, id) {
      assert ShapeOk(v, id);
      if id == record {
        OwnShape(v, record, a, item, checks);
      } else {
        OtherShape(v, record, a, item, checks, id);
      }
    }
  }

  lemma OwnShape(v: Tables, record: nat, a: nat, item: Item, checks: Checker)
    requires Vets(checks, item) && forall n: CheckName :: (record, n) !in v.results
    ensures ShapeOk(Recorded(v, record, a, item, checks), record)
  {
    var w := Recorded(v, record, a, item, checks);
    if item.ConnectorItem? {
      FiveNames(v, record, checks, item.spec, Names(item.tools));
    }
  }

  lemma OtherResults(v: Tables, record: nat, checks: Checker, spec: Spec, scope: set<string>, id: nat, n: CheckName)
    requires id != record
    ensures var all := v.results + ResultRows(record, checks, spec, scope);
            ((id, n) in all <==> (id, n) in v.results) && ((id, n) in v.results ==> all[(id, n)] == v.results[(id, n)])
  {
  }

  lemma SameShape(v: Tables, w: Tables, id: nat)
    requires ShapeOk(v, id) && (id in v.vettings <==> id in w.vettings)
    requires id in v.vettings ==> w.vettings[id] == v.vettings[id]
    requires forall n: CheckName ::
               ((id, n) in w.results <==> (id, n) in v.results) && ((id, n) in v.results ==> w.results[(id, n)] == v.results[(id, n)])
    ensures ShapeOk(w, id)
  {
  }

  lemma OtherShape(v: Tables, record: nat, a: nat, item: Item, checks: Checker, id: nat)
    requires ShapeOk(v, id) && id != record
    ensures ShapeOk(Recorded(v, record, a, item, checks), id)
  {
    hide ShapeOk, ResultRows, VettingRow, Vets, Names;
    var w := Recorded(v, record, a, item, checks);
    forall n: CheckName
      ensures ((id, n) in w.results <==> (id, n) in v.results) && ((id, n) in v.results ==> w.results[(id, n)] == v.results[(id, n)])
    {
      if item.ConnectorItem? {
        OtherResults(v, record, checks, item.spec, Names(item.tools), id, n);
      }
    }
    SameShape(v, w, id);
  }

  lemma MadeOrderly(m: Session, n: Session, item: Item, checks: Checker)
    requires Orderly(m) && Made(m, n, item, checks)
    ensures Orderly(n)
  {
    hide WellKept, ShapesSound, Settled, Matches, IdentityOf, AfterVetAndList, Registrable, HasLive, Registered;
    if Settled(m.tables, item) && n == m {
    } else if a :| Relisted(m, n, a, item, checks) {
      ListedOrderly(m, a, item, checks);
    } else {
      RegisteredFits(m, item, checks);
      RegisteredShapes(m, item);
      ListedOrderly(AfterRegister(m, item), m.next, item, checks);
    }
  }

  lemma RegisteredShapes(m: Session, item: Item)
    requires ShapesSound(m.tables)
    ensures ShapesSound(AfterRegister(m, item).tables)
  {
    hide ShapesSound;
    SameShapes(m.tables, Registered(m.tables, m.next, item));
  }

  // ---- the pass ----

  lemma {:induction false} MakesItems(run: Run, x: nat, m: Session, n: Session, items: seq<Item>, checks: Checker)
    returns (longer: Run)
    requires run.Valid() && Agrees(Last(run), x, m) && Orderly(m) && PassOf(m, n, items, checks)
    ensures Follows(run, longer, x, n) && Orderly(n)
    decreases |items|
  {
    hide Agrees, GoesOn, SameBase, Made, ShapesSound, WellKept;
    if items == [] {
      longer := run;
      StaysHere(run);
    } else {
      var init, item := items[..|items| - 1], items[|items| - 1];
      assert PassThen(m, n, init, item, checks);
      var mid :| PassOf(m, mid, init, checks) && Made(mid, n, item, checks);
      var before := MakesItems(run, x, m, mid, init, checks);
      longer := MakesItem(before, x, mid, n, item, checks);
      MadeOrderly(mid, n, item, checks);
      GoesOnOn(run, before, longer);
    }
  }

  // Nobody is at work.
  predicate Quiet(s: State) {
    s.txns == map[] && s.locks == map[] && s.shares == {}
  }

  lemma QuietAlone(s: State)
    requires LocksOk(s) && s.txns == map[]
    ensures Quiet(s)
  {
    assert forall a :: a in s.locks ==> s.locks[a] in s.txns;
    assert forall p :: p in s.shares ==> p.1 in s.txns;
  }

  lemma OpensAlone(s: State, x: nat, m: Session)
    requires Quiet(s) && s.tables == m.tables && s.clock == m.clock
    ensures Enabled(s, Begin(x)) && SameBase(s, Step(s, Begin(x))) && Agrees(Step(s, Begin(x)), x, m)
  {
    OpenedView(s);
  }

  lemma CommitsAlone(s: State, x: nat, m: Session)
    requires Agrees(s, x, m) && ShapesSound(m.tables)
    ensures Enabled(s, Commit(x))
    ensures var s' := Step(s, Commit(x)); Quiet(s') && s'.tables == m.tables && s'.clock == m.clock
  {
    hide ShapeOk, Overlay;
    assert s.txns - {x} == map[];
    assert Release(s.locks, x) == map[] && Unshare(s.shares, x) == {};
  }

  /** Where nobody is at work, a pass of the session is a run of one transaction: the tables it commits are the tables the
      session ends with. */
  lemma PassIsARun(run: Run, x: nat, m: Session, n: Session, items: seq<Item>, checks: Checker) returns (longer: Run)
    requires run.Valid() && Last(run).txns == map[]
    requires m == Session(Last(run).tables, m.next, Last(run).clock) && IdsBelow(m.tables, m.next)
    requires PassOf(m, n, items, checks)
    ensures longer.Valid() && run.states <= longer.states && run.events <= longer.events
    ensures Quiet(Last(longer)) && Last(longer).tables == n.tables && Last(longer).clock == n.clock
  {
    hide Step, Enabled, Agrees, TablesOk, TxnOk, Apart, ShapesSound, WellKept, LocksOk, PassOf, IdsBelow;
    RunInv(run, |run.events|);
    QuietAlone(Last(run));
    ReachableIsWellKept(run, |run.events|, m.next);
    SoundShapes(Last(run));
    OpensAlone(Last(run), x, m);
    var begun := Does(run, Begin(x));
    var made := MakesItems(begun, x, m, n, items, checks);
    CommitsAlone(Last(made), x, n);
    assert Leads(Last(made), Commit(x), Step(Last(made), Commit(x)));
    longer := Extends(made, Commit(x), Step(Last(made), Commit(x)));
  }

  lemma SoundShapes(s: State)
    requires TablesOk(s)
    ensures ShapesSound(s.tables)
  {
  }
}
