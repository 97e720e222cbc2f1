/** Rows whose trigger did not see their asset: where they come from, what holds without them, and two runs that show
    what they can do. */
module CatalogUnseen {
  import opened Options
  import opened CatalogTables
  import opened CatalogInvariant
  import opened CatalogRuns

  // ---- where such rows come from ----

  predicate Forms(stmt: Stmt, row: Row) {
    match stmt
    case AddSpec(a, _) => row == SpecRow(a)
    case AddScope(a, tool) => row == ScopeRow(a, tool)
    case AddVetting(id, vetting) => row == RecordRow(id, vetting.asset)
    case _ => false
  }

  // The trigger of the row runs and does not see the asset.
  predicate Misses(s: State, e: Event, row: Row) {
    e.Execute? && e.txn in s.txns && Forms(e.stmt, row) && row.asset !in View(s, s.txns[e.txn]).assets
  }

  predicate NotedBy(t: Txn, row: Row) {
    row in t.blind || (IsInserting(t) && !t.stage.found && row == ChildRow(t.stage.stmt))
  }

  predicate Noted(s: State, row: Row) {
    row in s.blind || exists x :: x in s.txns && NotedBy(s.txns[x], row)
  }

  lemma ExecuteNotes(s: State, t: Txn, stmt: Stmt, row: Row)
    requires t.stage.Open? && NotedBy(Effect(s, t, stmt), row)
    ensures NotedBy(t, row) || (Forms(stmt, row) && row.asset !in View(s, t).assets)
  {
    hide Vetted, VettingGuard, ListingGuard, HasIdentity, Overlay;
  }

  lemma InsertNotes(s: State, t: Txn, row: Row)
    requires IsInserting(t) && NotedBy(ChildInserted(s, t), row)
    ensures NotedBy(t, row)
  {
    hide HasRow, Overlay, WithChild;
  }

  lemma StepNotes(s: State, e: Event, row: Row)
    requires Enabled(s, e) && Noted(Step(s, e), row)
    ensures Noted(s, row) || Misses(s, e, row)
  {
    hide Ready, ShapesOk, Effect, ChildInserted, HasLive, HasRow, Keyed, Overlay, Forms, SameStatement;
    var s' := Step(s, e);
    if row !in s'.blind {
      var x :| x in s'.txns && NotedBy(s'.txns[x], row);
      if x == e.txn && e.Execute? {
        ExecuteNotes(s, s.txns[x], e.stmt, row);
      } else if x == e.txn && e.InsertChild? {
        InsertNotes(s, s.txns[x], row);
      }
      assert x != e.txn ==> s'.txns[x] == s.txns[x];
    }
  }

  /** A row noted as unseen was formed by a statement whose transaction saw no such asset. */
  lemma {:induction false} NotedRowsWereMissed(run: Run, n: nat, row: Row)
    requires run.Valid() && n <= |run.events| && Noted(run.states[n], row)
    ensures exists k :: 0 <= k < n && Misses(run.states[k], run.events[k], row)
  {
    hide Step, Enabled, Noted, Misses;
    if n == 0 {
      NothingNoted(run.states[0], row);
    } else {
      StepNotes(run.states[n - 1], run.events[n - 1], row);
      if Noted(run.states[n - 1], row) {
        NotedRowsWereMissed(run, n - 1, row);
      }
    }
  }

  lemma NothingNoted(s: State, row: Row)
    requires Initial(s)
    ensures !Noted(s, row)
  {
  }

  lemma CommittedAreNoted(s: State, row: Row)
    requires row in s.blind
    ensures Noted(s, row)
  {
  }

  // ---- what holds without them ----

  // Whoever writes a child row of the asset sees the asset, as anyone can make sure who selects it first.
  ghost predicate ChildrenSeen(run: Run, n: nat, a: nat)
    requires run.Valid() && n <= |run.events|
  {
    forall k, row :: 0 <= k < n && ChildOf(row, a) ==> !Misses(run.states[k], run.events[k], row)
  }

  /** If every writer of a child row of the asset has seen the asset, its spec and tool scope are frozen once it is
      vetted. */
  lemma FrozenIfSeen(run: Run, i: nat, j: nat, id: nat)
    requires run.Valid() && i <= j <= |run.events| && id in run.states[i].tables.vettings
    requires ChildrenSeen(run, j, run.states[i].tables.vettings[id].asset)
    ensures SameChildren(run.states[i].tables, run.states[j].tables, run.states[i].tables.vettings[id].asset)
  {
    hide Step, Enabled, Misses, Noted, SameChildren, Evolves;
    CommittedCatalogIsFrozen(run, i, j);
    var a := run.states[i].tables.vettings[id].asset;
    forall row | row in run.states[j].blind && row !in run.states[i].blind ensures !ChildOf(row, a) {
      CommittedAreNoted(run.states[j], row);
      NotedRowsWereMissed(run, j, row);
    }
  }

  /** A committed vetting of a connector that lacks its spec or has no tool was written by a transaction that did not
      see the asset. */
  lemma VettedIncompleteWasMissed(run: Run, n: nat, id: nat)
    requires run.Valid() && n <= |run.events| && id in run.states[n].tables.vettings
    ensures var v, a := run.states[n].tables, run.states[n].tables.vettings[id].asset;
            a in v.assets
            && (v.assets[a].kind == Connector && (a !in v.specs || forall tool :: (a, tool) !in v.scope) ==>
                  exists k :: 0 <= k < n && Misses(run.states[k], run.events[k], RecordRow(id, a)))
  {
    hide Step, Enabled, Misses, Noted, Sound, ShapesSound, TxnOk, Apart, LocksOk;
    RunInv(run, n);
    var v := run.states[n].tables;
    var row := RecordRow(id, v.vettings[id].asset);
    if ChildrenComplete(v, row.asset) {
      var entry :| entry in v.scope && entry.0 == row.asset;
      assert (row.asset, entry.1) in v.scope;
    }
    assert HasRow(v, row);
    assert ExaminedAt(v, run.states[n].blind, id);
    if row in run.states[n].blind {
      CommittedAreNoted(run.states[n], row);
      NotedRowsWereMissed(run, n, row);
    }
  }

  // ---- a vetted connector can gain a tool ----

  const CONNECTOR := Asset(Connector, "mail", "v1", "registrar", NoTail)
  const SPEC := Spec("m", "P", "F", "s", "absent", None)
  const TESTED := Vetting(10, ConnectorContractTest, CheckerOutput, true, "checker")
  const EXTRA := ScopeRow(10, "extra")

  // Transaction 1 has inserted a tool for an asset it does not see; its foreign key is yet to be checked.
  const UNSEEN := Txn(Open, EMPTY.(scope := {(10, "extra")}), {EXTRA}, {EXTRA})

  function Two(t: Txn, u: Txn): map<nat, Txn> {
    map[0 := t, 1 := u]
  }

  lemma Updated(t: Txn, u: Txn, v: Txn)
    ensures Two(t, u)[0 := v] == Two(v, u) && Two(t, u)[1 := v] == Two(t, v)
    ensures Two(t, u) - {0} == map[1 := u]
  {
  }

  // Transactions 0 and 1 at work on empty tables.
  function Race(t: Txn, u: Txn, clock: nat): State {
    State(EMPTY, Two(t, u), map[], {}, {}, clock)
  }

  lemma OwnView(own: Tables)
    ensures Overlay(EMPTY, own) == own
  {
  }

  lemma OneRow(row: Row)
    ensures {} + {row} == {row} && {row} - {row} == {}
  {
  }

  lemma Forms0(t: Txn, u: Txn, clock: nat, stmt: Stmt)
    requires t.stage.Open? && (stmt.AddSpec? || stmt.AddScope?) && SameStatement(t.owed, stmt)
    requires !Vetted(t.pending, stmt.parent)
    ensures Leads(Race(t, u, clock), Execute(0, stmt),
                  Race(t.(stage := Inserting(stmt, stmt.parent in t.pending.assets)), u, clock + 1))
  {
    hide Vetted;
    OwnView(t.pending);
    Updated(t, u, t.(stage := Inserting(stmt, stmt.parent in t.pending.assets)));
  }

  lemma Forms1(t: Txn, u: Txn, clock: nat, stmt: Stmt)
    requires u.stage.Open? && (stmt.AddSpec? || stmt.AddScope?) && SameStatement(u.owed, stmt)
    requires !Vetted(u.pending, stmt.parent)
    ensures Leads(Race(t, u, clock), Execute(1, stmt),
                  Race(t, u.(stage := Inserting(stmt, stmt.parent in u.pending.assets)), clock + 1))
  {
    hide Vetted;
    OwnView(u.pending);
    Updated(t, u, u.(stage := Inserting(stmt, stmt.parent in u.pending.assets)));
  }

  lemma Inserts0(t: Txn, u: Txn, clock: nat, own: Tables, row: Row)
    requires IsInserting(t) && row == ChildRow(t.stage.stmt) && own == WithChild(t.pending, t.stage.stmt)
    requires !HasRow(t.pending, row) && !HasRow(u.pending, row)
    ensures Leads(Race(t, u, clock), InsertChild(0), Race(Owing(t, own, row, t.stage.found), u, clock))
  {
    hide HasRow, WithChild;
    OwnView(t.pending);
    Updated(t, u, Owing(t, own, row, t.stage.found));
  }

  lemma Inserts1(t: Txn, u: Txn, clock: nat, own: Tables, row: Row)
    requires IsInserting(u) && row == ChildRow(u.stage.stmt) && own == WithChild(u.pending, u.stage.stmt)
    requires !HasRow(t.pending, row) && !HasRow(u.pending, row)
    ensures Leads(Race(t, u, clock), InsertChild(1), Race(t, Owing(u, own, row, u.stage.found), clock))
  {
    hide HasRow, WithChild;
    OwnView(u.pending);
    Updated(t, u, Owing(u, own, row, u.stage.found));
  }

  function At(own: Tables, owed: set<Row>): Txn {
    Txn(Open, own, owed, {})
  }

  lemma Keys(own: Tables, row: Row, clock: nat)
    requires Keyed(own, row)
    ensures Leads(Race(At(own, {row}), UNSEEN, clock), CheckKey(0, row), Race(At(own, {}), UNSEEN, clock))
  {
    hide Keyed;
    OwnView(own);
    OneRow(row);
    Updated(At(own, {row}), UNSEEN, At(own, {}));
  }

  function Rows(specs: map<nat, Spec>, scope: set<(nat, string)>, vettings: map<nat, Vetting>,
                results: map<(nat, CheckName), bool>): Tables {
    Tables(map[10 := CONNECTOR], specs, scope, vettings, results, map[])
  }

  function Registered(): Tables {
    Rows(map[], {}, map[], map[])
  }

  function Specified(): Tables {
    Rows(map[10 := SPEC], {}, map[], map[])
  }

  function Scoped(): Tables {
    Rows(map[10 := SPEC], {(10, "send")}, map[], map[])
  }

  function Tested(results: map<(nat, CheckName), bool>): Tables {
    Rows(map[10 := SPEC], {(10, "send")}, map[11 := TESTED], results)
  }

  lemma OpensBoth() returns (run: Run)
    ensures run.Valid() && run.states[|run.events|] == Race(NEW_TXN, NEW_TXN, 0)
  {
    run := Run([State(EMPTY, map[], map[], {}, {}, 0)], []);
    run := Extends(run, Begin(0), State(EMPTY, map[0 := NEW_TXN], map[], {}, {}, 0));
    run := Extends(run, Begin(1), Race(NEW_TXN, NEW_TXN, 0));
  }

  lemma Registers(u: Txn, clock: nat)
    requires u.pending.assets == map[] && 10 !in u.pending.vettings && 10 !in u.pending.listings && u.stage.Open?
    ensures Leads(Race(NEW_TXN, u, clock), Execute(0, AddAsset(10, CONNECTOR)),
                  Race(At(Registered(), {}), u, clock + 1))
  {
    OwnView(EMPTY);
    Updated(NEW_TXN, u, At(Registered(), {}));
  }

  lemma Unseen()
    ensures Owing(NEW_TXN.(stage := Inserting(AddScope(10, "extra"), false)), EMPTY.(scope := {(10, "extra")}), EXTRA, false)
            == UNSEEN
    ensures WithChild(EMPTY, AddScope(10, "extra")) == EMPTY.(scope := {(10, "extra")})
  {
  }

  // The connector is being registered while transaction 1 has its row for it.
  lemma Registering() returns (run: Run)
    ensures run.Valid() && run.states[|run.events|] == Race(At(Registered(), {}), UNSEEN, 2)
  {
    hide Leads;
    var formed := NEW_TXN.(stage := Inserting(AddScope(10, "extra"), false));
    run := OpensBoth();
    Forms1(NEW_TXN, NEW_TXN, 0, AddScope(10, "extra"));
    run := Extends(run, Execute(1, AddScope(10, "extra")), Race(NEW_TXN, formed, 1));
    Unseen();
    Inserts1(NEW_TXN, formed, 1, EMPTY.(scope := {(10, "extra")}), EXTRA);
    run := Extends(run, InsertChild(1), Race(NEW_TXN, UNSEEN, 1));
    Registers(UNSEEN, 1);
    run := Extends(run, Execute(0, AddAsset(10, CONNECTOR)), Race(At(Registered(), {}), UNSEEN, 2));
  }

  lemma AddsChild(run: Run, own: Tables, stmt: Stmt, row: Row, more: Tables, clock: nat) returns (longer: Run)
    requires run.Valid() && run.states[|run.events|] == Race(At(own, {}), UNSEEN, clock)
    requires (stmt.AddSpec? || stmt.AddScope?) && row == ChildRow(stmt) && row != EXTRA && more == WithChild(own, stmt)
    requires stmt.parent in own.assets && !Vetted(own, stmt.parent) && !HasRow(own, row) && Keyed(more, row)
    ensures longer.Valid() && longer.states[|longer.events|] == Race(At(more, {}), UNSEEN, clock + 1)
  {
    hide Leads, Vetted, Keyed, WithChild;
    var formed := At(own, {}).(stage := Inserting(stmt, true));
    Forms0(At(own, {}), UNSEEN, clock, stmt);
    longer := Extends(run, Execute(0, stmt), Race(formed, UNSEEN, clock + 1));
    Inserts0(formed, UNSEEN, clock + 1, more, row);
    OneRow(row);
    longer := Extends(longer, InsertChild(0), Race(At(more, {row}), UNSEEN, clock + 1));
    Keys(more, row, clock + 1);
    longer := Extends(longer, CheckKey(0, row), Race(At(more, {}), UNSEEN, clock + 1));
  }

  lemma Complete()
    ensures VettingGuard(Scoped(), TESTED).None?
  {
    assert (10, "send") in Scoped().scope;
  }

  lemma Vets()
    ensures Leads(Race(At(Scoped(), {}), UNSEEN, 4), Execute(0, AddVetting(11, TESTED)),
                  Race(At(Tested(map[]), {RecordRow(11, 10)}), UNSEEN, 5))
  {
    hide VettingGuard;
    Complete();
    OwnView(Scoped());
    OneRow(RecordRow(11, 10));
    Updated(At(Scoped(), {}), UNSEEN, At(Tested(map[]), {RecordRow(11, 10)}));
  }

  lemma AddsVetting(run: Run) returns (longer: Run)
    requires run.Valid() && run.states[|run.events|] == Race(At(Scoped(), {}), UNSEEN, 4)
    ensures longer.Valid() && longer.states[|longer.events|] == Race(At(Tested(map[]), {}), UNSEEN, 5)
  {
    hide Leads, At, Race;
    Vets();
    longer := Extends(run, Execute(0, AddVetting(11, TESTED)), Race(At(Tested(map[]), {RecordRow(11, 10)}), UNSEEN, 5));
    Keys(Tested(map[]), RecordRow(11, 10), 5);
    longer := Extends(longer, CheckKey(0, RecordRow(11, 10)), Race(At(Tested(map[]), {}), UNSEEN, 5));
  }

  lemma Records(results: map<(nat, CheckName), bool>, name: CheckName, clock: nat)
    requires (11, name) !in results
    ensures Leads(Race(At(Tested(results), {}), UNSEEN, clock), Execute(0, AddResult(11, name, true)),
                  Race(At(Tested(results[(11, name) := true]), {ResultRow(11, name)}), UNSEEN, clock + 1))
  {
    OwnView(Tested(results));
    OneRow(ResultRow(11, name));
    Updated(At(Tested(results), {}), UNSEEN, At(Tested(results[(11, name) := true]), {ResultRow(11, name)}));
  }

  lemma AddsResult(run: Run, results: map<(nat, CheckName), bool>, name: CheckName, clock: nat) returns (longer: Run)
    requires run.Valid() && run.states[|run.events|] == Race(At(Tested(results), {}), UNSEEN, clock)
    requires (11, name) !in results
    ensures longer.Valid()
    ensures longer.states[|longer.events|] == Race(At(Tested(results[(11, name) := true]), {}), UNSEEN, clock + 1)
  {
    hide Leads, At, Race;
    var row, more := ResultRow(11, name), results[(11, name) := true];
    Records(results, name, clock);
    longer := Extends(run, Execute(0, AddResult(11, name, true)), Race(At(Tested(more), {row}), UNSEEN, clock + 1));
    Keys(Tested(more), row, clock + 1);
    longer := Extends(longer, CheckKey(0, row), Race(At(Tested(more), {}), UNSEEN, clock + 1));
  }

  const FIVE := map[(11, ToolScopeNonempty) := true, (11, ToolScopeResolves) := true, (11, ProtocolResolves) := true,
                    (11, FakeConforms) := true, (11, LiveAdapterSymbol) := true]

  // The connector has its children and a vetting.
  lemma TestBegins() returns (run: Run)
    ensures run.Valid() && run.states[|run.events|] == Race(At(Tested(map[]), {}), UNSEEN, 5)
  {
    hide Leads, At, Race;
    run := Registering();
    run := AddsChild(run, Registered(), AddSpec(10, SPEC), SpecRow(10), Specified(), 2);
    run := AddsChild(run, Specified(), AddScope(10, "send"), ScopeRow(10, "send"), Scoped(), 3);
    run := AddsVetting(run);
  }

  // It has passed its contract test.
  lemma Testing() returns (run: Run)
    ensures run.Valid() && run.states[|run.events|] == Race(At(Tested(FIVE), {}), UNSEEN, 10)
  {
    hide Leads, At, Race, Tested;
    run := TestBegins();
    var m := map[];
    run := AddsResult(run, m, ToolScopeNonempty, 5);
    m := m[(11, ToolScopeNonempty) := true];
    run := AddsResult(run, m, ToolScopeResolves, 6);
    m := m[(11, ToolScopeResolves) := true];
    run := AddsResult(run, m, ProtocolResolves, 7);
    m := m[(11, ProtocolResolves) := true];
    run := AddsResult(run, m, FakeConforms, 8);
    m := m[(11, FakeConforms) := true];
    run := AddsResult(run, m, LiveAdapterSymbol, 9);
    assert m[(11, LiveAdapterSymbol) := true] == FIVE;
  }

  // The tables are committed, and transaction 1 is left with its row.
  function After(owed: set<Row>, shares: set<(nat, nat)>): State {
    State(Tested(FIVE), map[1 := UNSEEN.(owed := owed)], map[], shares, {}, 10)
  }

  lemma ShapeOfFive(v: Tables)
    requires v.vettings == map[11 := TESTED] && v.results == FIVE
    ensures forall id :: ShapeOk(v, id)
  {
  }

  lemma Commits()
    ensures Leads(Race(At(Tested(FIVE), {}), UNSEEN, 10), Commit(0), After({EXTRA}, {}))
  {
    hide ShapeOk, HasRow, Deferred;
    OwnView(Tested(FIVE));
    ShapeOfFive(Tested(FIVE));
    Updated(At(Tested(FIVE), {}), UNSEEN, UNSEEN);
  }

  lemma ChecksExtra()
    ensures Leads(After({EXTRA}, {}), CheckKey(1, EXTRA), After({}, {(10, 1)}))
  {
    OneRow(EXTRA);
    var s := After({EXTRA}, {});
    assert Keyed(View(s, UNSEEN), EXTRA);
    assert s.txns[1 := UNSEEN.(owed := {})] == map[1 := UNSEEN.(owed := {})];
    assert {} + {(10, 1)} == {(10, 1)};
  }

  function Grown(): Tables {
    Tested(FIVE).(scope := {(10, "send"), (10, "extra")})
  }

  lemma CommitsExtra()
    ensures Leads(After({}, {(10, 1)}), Commit(1), State(Grown(), map[], map[], {}, {EXTRA}, 10))
  {
    hide ShapeOk, HasRow, Deferred;
    var s := After({}, {(10, 1)});
    assert View(s, s.txns[1]) == Grown();
    ShapeOfFive(Grown());
    OneRow(EXTRA);
    assert s.txns - {1} == map[];
    assert Unshare(s.shares, 1) == {};
    assert Release(s.locks, 1) == map[];
  }

  // Between the two moments a vetted asset has got another child row.
  predicate Thaws(run: Run, i: nat, j: nat, a: nat) {
    && i <= j < |run.states|
    && Vetted(run.states[i].tables, a) && ChildrenComplete(run.states[i].tables, a)
    && !SameChildren(run.states[i].tables, run.states[j].tables, a)
  }

  lemma Grew()
    ensures Vetted(Tested(FIVE), 10) && ChildrenComplete(Tested(FIVE), 10) && !SameChildren(Tested(FIVE), Grown(), 10)
  {
    assert 11 in Tested(FIVE).vettings && (10, "send") in Tested(FIVE).scope;
    assert (10, "extra") in Grown().scope && (10, "extra") !in Tested(FIVE).scope;
  }

  /** The tool scope of a connector that has passed its contract test can still grow. */
  lemma VettedConnectorCanGrow()
    ensures exists run: Run, i, j, a :: run.Valid() && Thaws(run, i, j, a)
  {
    hide Leads, At, Race;
    var run := Testing();
    Commits();
    run := Extends(run, Commit(0), After({EXTRA}, {}));
    var i := |run.events|;
    ChecksExtra();
    run := Extends(run, CheckKey(1, EXTRA), After({}, {(10, 1)}));
    CommitsExtra();
    run := Extends(run, Commit(1), State(Grown(), map[], map[], {}, {EXTRA}, 10));
    Grew();
    assert Thaws(run, i, |run.events|, 10);
  }

  // ---- a connector can be vetted without children ----

  const ASSERTED := Vetting(10, BlueprintSecurityReview, ReviewerAsserted, true, "reviewer")
  const RECORD := RecordRow(11, 10)

  // A vetting of an asset that its transaction does not see.
  function Unfounded(owed: set<Row>): Txn {
    Txn(Open, EMPTY.(vettings := map[11 := ASSERTED]), owed, {RECORD})
  }

  lemma VetsUnseen()
    ensures Leads(Race(NEW_TXN, NEW_TXN, 0), Execute(1, AddVetting(11, ASSERTED)), Race(NEW_TXN, Unfounded({RECORD}), 1))
  {
    OwnView(EMPTY);
    OneRow(RECORD);
    Updated(NEW_TXN, NEW_TXN, Unfounded({RECORD}));
  }

  function Alone(owed: set<Row>, shares: set<(nat, nat)>): State {
    State(Registered(), map[1 := Unfounded(owed)], map[], shares, {}, 2)
  }

  lemma CommitsBare()
    ensures Leads(Race(At(Registered(), {}), Unfounded({RECORD}), 2), Commit(0), Alone({RECORD}, {}))
  {
    hide ShapeOk, HasRow;
    OwnView(Registered());
    Updated(At(Registered(), {}), Unfounded({RECORD}), NEW_TXN);
    assert Deferred(Registered()) == {};
  }

  lemma ChecksRecord()
    ensures Leads(Alone({RECORD}, {}), CheckKey(1, RECORD), Alone({}, {(10, 1)}))
  {
    OneRow(RECORD);
    var s := Alone({RECORD}, {});
    assert Keyed(View(s, Unfounded({RECORD})), RECORD);
    assert s.txns[1 := Unfounded({})] == map[1 := Unfounded({})];
    assert {} + {(10, 1)} == {(10, 1)};
  }

  function Bare(): Tables {
    Rows(map[], {}, map[11 := ASSERTED], map[])
  }

  lemma CommitsRecord()
    ensures Leads(Alone({}, {(10, 1)}), Commit(1), State(Bare(), map[], map[], {}, {RECORD}, 2))
  {
    hide HasRow;
    var s := Alone({}, {(10, 1)});
    assert View(s, s.txns[1]) == Bare();
    OneRow(RECORD);
    assert s.txns - {1} == map[];
    assert Unshare(s.shares, 1) == {};
    assert Release(s.locks, 1) == map[];
  }

  // The asset is a connector, vetted, and has neither spec nor tool scope.
  predicate VettedBare(v: Tables, a: nat) {
    a in v.assets && v.assets[a].kind == Connector && Vetted(v, a) && a !in v.specs && !HasScope(v, a)
  }

  /** A connector can be vetted with no children at all. */
  lemma ConnectorCanBeVettedBare()
    ensures exists run: Run, a :: run.Valid() && VettedBare(run.states[|run.events|].tables, a)
  {
    hide Leads, At, Race;
    var run := OpensBoth();
    VetsUnseen();
    run := Extends(run, Execute(1, AddVetting(11, ASSERTED)), Race(NEW_TXN, Unfounded({RECORD}), 1));
    Registers(Unfounded({RECORD}), 1);
    run := Extends(run, Execute(0, AddAsset(10, CONNECTOR)), Race(At(Registered(), {}), Unfounded({RECORD}), 2));
    CommitsBare();
    run := Extends(run, Commit(0), Alone({RECORD}, {}));
    ChecksRecord();
    run := Extends(run, CheckKey(1, RECORD), Alone({}, {(10, 1)}));
    CommitsRecord();
    run := Extends(run, Commit(1), State(Bare(), map[], map[], {}, {RECORD}, 2));
    assert 11 in Bare().vettings;
    assert VettedBare(run.states[|run.events|].tables, 10);
  }
}
