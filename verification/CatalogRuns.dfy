/** What holds of the committed catalog in every run, whatever the interleaving and whoever aborts. */
module CatalogRuns {
  import opened CatalogTables
  import opened CatalogInvariant
  import opened CatalogCommit

  lemma {:induction false} RunInv(run: Run, n: nat)
    requires run.Valid() && n <= |run.events|
    ensures Inv(run.states[n])
  {
    hide Step, Enabled;
    if n == 0 {
      InitialInv(run.states[0]);
    } else {
      RunInv(run, n - 1);
      StepInv(run.states[n - 1], run.events[n - 1]);
    }
  }

  lemma InitialInv(s: State)
    requires Initial(s)
    ensures Inv(s)
  {
  }

  // ---- what a listing binds ----

  // The vetting holds the five named checks, each passed.
  predicate AllChecksPassed(v: Tables, vetting: nat) {
    forall n: CheckName :: (vetting, n) in v.results && v.results[(vetting, n)]
  }

  predicate NoChecks(v: Tables, vetting: nat) {
    forall n: CheckName :: (vetting, n) !in v.results
  }

  // What the rows of a listing's vetting and asset must say, one asset kind after the other.
  ghost predicate ProperlyListed(v: Tables, id: nat)
    requires id in v.listings
  {
    var a, vetting := v.listings[id].asset, v.listings[id].vetting;
    && a in v.assets && vetting in v.vettings
    && v.vettings[vetting].asset == a && v.vettings[vetting].passed
    && match v.assets[a].kind
       case Connector =>
         && v.vettings[vetting].kind == ConnectorContractTest && v.vettings[vetting].source == CheckerOutput
         && a in v.specs && (exists tool :: (a, tool) in v.scope) && AllChecksPassed(v, vetting)
       case AgentBlueprint =>
         && v.vettings[vetting].kind == BlueprintSecurityReview && v.vettings[vetting].source == ReviewerAsserted
         && v.vettings[vetting].reviewer != v.assets[a].registeredBy && NoChecks(v, vetting)
       case ReferenceIntake =>
         && v.vettings[vetting].kind == ReferenceIntakeConstraintAttestation
         && v.vettings[vetting].source == ReviewerAsserted && NoChecks(v, vetting)
  }

  // A checker's record holds a result of each of the five checks and has passed exactly if all of them have; an
  // asserted one holds none.
  predicate ProperlyChecked(v: Tables, vetting: nat)
    requires vetting in v.vettings
  {
    match v.vettings[vetting].source
    case CheckerOutput =>
      && (forall n: CheckName :: (vetting, n) in v.results)
      && (v.vettings[vetting].passed <==> AllChecksPassed(v, vetting))
    case ReviewerAsserted => NoChecks(v, vetting)
  }

  lemma OneOfFive(n: CheckName)
    ensures n == ToolScopeNonempty || n == ToolScopeResolves || n == ProtocolResolves || n == FakeConforms
            || n == LiveAdapterSymbol
  {
  }

  /** The counts of the deferred shape check say just that. */
  lemma ShapeMeans(v: Tables, vetting: nat)
    requires vetting in v.vettings
    ensures ShapeOk(v, vetting) <==> ProperlyChecked(v, vetting)
  {
    if ResultCount(v, vetting) == 5 {
      forall n: CheckName ensures (vetting, n) in v.results {
        OneOfFive(n);
      }
    }
    if PassCount(v, vetting) == 5 {
      forall n: CheckName ensures (vetting, n) in v.results && v.results[(vetting, n)] {
        OneOfFive(n);
      }
    }
    if ResultCount(v, vetting) == 0 {
      forall n: CheckName ensures (vetting, n) !in v.results {
        OneOfFive(n);
      }
    }
    if forall n: CheckName :: (vetting, n) in v.results {
      assert (vetting, ToolScopeNonempty) in v.results && (vetting, ToolScopeResolves) in v.results
             && (vetting, ProtocolResolves) in v.results && (vetting, FakeConforms) in v.results
             && (vetting, LiveAdapterSymbol) in v.results;
    }
  }

  /** Contract tests, and they alone, come from the checker, and every vetting ever committed holds the results its
      source calls for: the checker's all five, and it passed exactly if they did; a reviewer's none at all. */
  lemma EveryVettingIsShaped(run: Run, n: nat)
    requires run.Valid() && n <= |run.events|
    ensures var v := run.states[n].tables;
            forall id :: id in v.vettings ==>
              && (v.vettings[id].source == CheckerOutput <==> v.vettings[id].kind == ConnectorContractTest)
              && ProperlyChecked(v, id)
  {
    hide TxnOk, Apart, ShapeOk, OneLive, OneIdentity, KeysHold, Examined, HasRow, LocksOk, ProperlyChecked;
    RunInv(run, n);
    forall id | id in run.states[n].tables.vettings ensures ProperlyChecked(run.states[n].tables, id) {
      assert ShapeOk(run.states[n].tables, id);
      ShapeMeans(run.states[n].tables, id);
    }
  }

  /** Every listing ever committed, delisted or not, binds a passed vetting of its own asset. A connector's is a
      contract test by the checker with all five checks passed, and its spec and a tool name are there; a blueprint's
      is a security review asserted by somebody other than its registrar; an intake's is an asserted constraint
      attestation. At most one listing of an asset is live. */
  lemma EveryListingIsVetted(run: Run, n: nat)
    requires run.Valid() && n <= |run.events|
    ensures forall id :: id in run.states[n].tables.listings ==> ProperlyListed(run.states[n].tables, id)
    ensures var v := run.states[n].tables;
            forall i, j ::
              (i in v.listings && j in v.listings && v.listings[i].live && v.listings[j].live
               && v.listings[i].asset == v.listings[j].asset) ==> i == j
  {
    hide TxnOk, Apart, ShapeOk, OneIdentity, KeysHold, Examined, HasRow, LocksOk, ProperlyListed;
    RunInv(run, n);
    forall id | id in run.states[n].tables.listings ensures ProperlyListed(run.states[n].tables, id) {
      SoundListing(run.states[n].tables, id);
    }
  }

  lemma SoundListing(v: Tables, id: nat)
    requires id in v.listings && ListingSound(v, id) && ShapesSound(v)
    requires forall r :: r in v.vettings ==> SourceOk(v.vettings[r])
    ensures ProperlyListed(v, id)
  {
    hide ShapeOk;
    var l := v.listings[id];
    assert ShapeOk(v, l.vetting);
    ShapeMeans(v, l.vetting);
    if v.assets[l.asset].kind == Connector {
      var row :| row in v.scope && row.0 == l.asset;
      assert (l.asset, row.1) in v.scope;
    }
  }

  // ---- what can never change ----

  predicate SameResults(v: Tables, w: Tables, vetting: nat) {
    forall n: CheckName ::
      && ((vetting, n) in v.results <==> (vetting, n) in w.results)
      && ((vetting, n) in v.results ==> w.results[(vetting, n)] == v.results[(vetting, n)])
  }

  predicate OnlyDelisted(v: Tables, w: Tables, id: nat) {
    id in v.listings ==> id in w.listings && (w.listings[id] == v.listings[id] || w.listings[id] == v.listings[id].(live := false))
  }

  // Assets, vettings, specs and tool names stay; a vetting keeps its results; a listing is only delisted.
  ghost predicate Evolves(v: Tables, w: Tables) {
    && (forall a :: a in v.assets ==> a in w.assets && w.assets[a] == v.assets[a])
    && (forall id :: id in v.vettings ==> id in w.vettings && w.vettings[id] == v.vettings[id])
    && (forall a :: a in v.specs ==> a in w.specs && w.specs[a] == v.specs[a])
    && v.scope <= w.scope
    && (forall id :: id in v.vettings ==> SameResults(v, w, id))
    && (forall id :: OnlyDelisted(v, w, id))
  }

  predicate ChildOf(row: Row, a: nat) {
    IsChild(row) && row.asset == a
  }

  predicate SameChildren(v: Tables, w: Tables, a: nat) {
    && (a in v.specs <==> a in w.specs) && (a in v.specs ==> w.specs[a] == v.specs[a])
    && (forall row :: row in v.scope && row.0 == a ==> row in w.scope)
    && (forall row :: row in w.scope && row.0 == a ==> row in v.scope)
  }

  predicate Joined(s: State, s': State, row: Row) {
    HasRow(s'.tables, row) && !HasRow(s.tables, row)
  }

  // Of what changed between the states, the child rows of assets that were vetted are the ones whose trigger saw none.
  ghost predicate JoinedBlindly(s: State, s': State) {
    forall row :: IsChild(row) && Vetted(s.tables, row.asset) ==>
      (Joined(s, s', row) <==> row in s'.blind && row !in s.blind)
  }

  // Rows never leave, nor does what was noted about them.
  ghost predicate Remembers(s: State, s': State) {
    s.blind <= s'.blind && (forall row :: row in s.blind ==> HasRow(s.tables, row))
    && (forall row :: HasRow(s.tables, row) ==> HasRow(s'.tables, row))
    && (forall row :: row in s'.blind && row !in s.blind ==> Joined(s, s', row))
    && (forall a :: Vetted(s.tables, a) ==> Vetted(s'.tables, a))
  }

  lemma ResultsStay(base: Tables, p: Tables, vetting: nat)
    requires vetting in base.vettings && vetting !in p.vettings
    requires ShapeOk(base, vetting) && ShapeOk(Overlay(base, p), vetting)
    requires p.results.Keys !! base.results.Keys
    ensures SameResults(base, Overlay(base, p), vetting)
  {
    forall n: CheckName ensures (vetting, n) !in p.results || (vetting, n) in base.results {
      OneOfFive(n);
    }
  }

  lemma RowsKept(base: Tables, p: Tables)
    requires Overlays(base, p)
    ensures var w := Overlay(base, p);
            && (forall a :: a in base.assets ==> a in w.assets && w.assets[a] == base.assets[a])
            && (forall id :: id in base.vettings ==> id in w.vettings && w.vettings[id] == base.vettings[id])
            && (forall a :: a in base.specs ==> a in w.specs && w.specs[a] == base.specs[a])
            && base.scope <= w.scope
            && (forall id :: OnlyDelisted(base, w, id))
    ensures p.results.Keys !! base.results.Keys && p.vettings.Keys !! base.vettings.Keys
  {
  }

  lemma CommitEvolves(s: State, x: nat)
    requires Inv(s) && x in s.txns && ShapesOk(s, s.txns[x])
    ensures Evolves(s.tables, View(s, s.txns[x]))
  {
    hide ShapeOk, Sound, KeysHold, Examined, Apart, ShapesOk, Guarded, TouchGuarded, SameResults, LocksOk, NotesOk, HasRow,
         Overlays, Overlay, OnlyDelisted, WaitingOk;
    var v, w := s.tables, View(s, s.txns[x]);
    ShapesCommitted(s, x);
    assert TxnOk(s, x);
    RowsKept(v, s.txns[x].pending);
    forall id | id in v.vettings ensures SameResults(v, w, id) {
      assert ShapeOk(v, id) && ShapeOk(w, id);
      ResultsStay(v, s.txns[x].pending, id);
    }
  }

  lemma RowOfEither(base: Tables, p: Tables, row: Row)
    requires Overlays(base, p)
    ensures HasRow(Overlay(base, p), row) <==> HasRow(base, row) || HasRow(p, row)
    ensures HasRow(p, row) ==> !HasRow(base, row)
  {
  }

  lemma CommitRemembers(s: State, x: nat)
    requires TablesOk(s) && x in s.txns && TxnOk(s, x)
    ensures Remembers(s, Committed(s, x))
  {
    hide ViewOk, Sound, KeysHold, Examined, Guarded, TouchGuarded, WaitingOk, Overlays, HasRow, Overlay, ShapesSound, Vetted;
    ViewGrows(s, x);
    forall row
      ensures HasRow(Committed(s, x).tables, row) <==> HasRow(s.tables, row) || HasRow(s.txns[x].pending, row)
      ensures HasRow(s.txns[x].pending, row) ==> !HasRow(s.tables, row)
    {
      RowOfEither(s.tables, s.txns[x].pending, row);
    }
  }

  lemma CommitJoins(s: State, x: nat)
    requires TablesOk(s) && x in s.txns && TxnOk(s, x)
    ensures JoinedBlindly(s, Committed(s, x))
  {
    hide ViewOk, Sound, KeysHold, Examined, TouchGuarded, WaitingOk, Overlays, HasRow, Overlay, ShapesSound, Vetted, Works;
    forall row | IsChild(row) && Vetted(s.tables, row.asset)
      ensures Joined(s, Committed(s, x), row) <==> row in Committed(s, x).blind && row !in s.blind
    {
      RowOfEither(s.tables, s.txns[x].pending, row);
      assert ChildGuarded(s, x, row);
    }
  }

  lemma EvolvesSelf(s: State)
    requires TablesOk(s)
    ensures Evolves(s.tables, s.tables) && Remembers(s, s) && JoinedBlindly(s, s)
  {
    hide Sound, KeysHold, Examined, ShapesSound, HasRow, Vetted;
  }

  lemma EvolvesOn(u: Tables, v: Tables, w: Tables)
    requires Evolves(u, v) && Evolves(v, w)
    ensures Evolves(u, w)
  {
    hide SameResults, OnlyDelisted;
    forall id | id in u.vettings ensures SameResults(u, w, id) {
      SameResultsOn(u, v, w, id);
    }
    forall id ensures OnlyDelisted(u, w, id) {
      OnlyDelistedOn(u, v, w, id);
    }
  }

  lemma SameResultsOn(u: Tables, v: Tables, w: Tables, id: nat)
    requires SameResults(u, v, id) && SameResults(v, w, id)
    ensures SameResults(u, w, id)
  {
  }

  lemma OnlyDelistedOn(u: Tables, v: Tables, w: Tables, id: nat)
    requires OnlyDelisted(u, v, id) && OnlyDelisted(v, w, id)
    ensures OnlyDelisted(u, w, id)
  {
  }

  lemma JoinedOn(r: State, s: State, t: State)
    requires Remembers(r, s) && Remembers(s, t) && JoinedBlindly(r, s) && JoinedBlindly(s, t)
    ensures Remembers(r, t) && JoinedBlindly(r, t)
  {
    hide HasRow, Vetted;
    forall row | IsChild(row) && Vetted(r.tables, row.asset)
      ensures Joined(r, t, row) <==> row in t.blind && row !in r.blind
    {
      assert Vetted(s.tables, row.asset);
    }
  }

  lemma StepEvolves(s: State, e: Event)
    requires Inv(s) && Enabled(s, e)
    ensures Evolves(s.tables, Step(s, e).tables) && Remembers(s, Step(s, e)) && JoinedBlindly(s, Step(s, e))
  {
    hide Evolves, Remembers, JoinedBlindly, TablesOk, LocksOk, TxnOk, Apart, ShapesOk, Ready, View, Effect, HasRow;
    if e.Commit? && ShapesOk(s, s.txns[e.txn]) {
      CommitEvolves(s, e.txn);
      CommitRemembers(s, e.txn);
      CommitJoins(s, e.txn);
    } else {
      EvolvesSelf(s);
      StaysPut(s, Step(s, e));
    }
  }

  lemma StaysPut(s: State, s': State)
    requires Remembers(s, s) && JoinedBlindly(s, s) && s'.tables == s.tables && s'.blind == s.blind
    ensures Remembers(s, s') && JoinedBlindly(s, s')
  {
    hide HasRow, Vetted;
    assert forall row :: Joined(s, s, row) == Joined(s, s', row);
  }

  lemma {:induction false} StatesEvolve(run: Run, i: nat, j: nat)
    requires run.Valid() && i <= j <= |run.events|
    ensures Evolves(run.states[i].tables, run.states[j].tables)
    ensures Remembers(run.states[i], run.states[j]) && JoinedBlindly(run.states[i], run.states[j])
  {
    hide Evolves, Remembers, JoinedBlindly, Inv, Step, Enabled;
    if i == j {
      RunInv(run, i);
      SoundTables(run.states[i]);
      EvolvesSelf(run.states[i]);
    } else {
      StatesEvolve(run, i, j - 1);
      RunInv(run, j - 1);
      StepEvolves(run.states[j - 1], run.events[j - 1]);
      EvolvesOn(run.states[i].tables, run.states[j - 1].tables, run.states[j].tables);
      JoinedOn(run.states[i], run.states[j - 1], run.states[j]);
    }
  }

  lemma SoundTables(s: State)
    requires Inv(s)
    ensures TablesOk(s)
  {
  }

  /** From any moment to any later one, no asset, spec, tool name, vetting or check result changes or goes; a listing
      changes only by being delisted, once and for all. A vetted asset gains child rows exactly by commits of rows
      whose trigger did not see it, so without those its spec and tool scope are frozen. */
  lemma CommittedCatalogIsFrozen(run: Run, i: nat, j: nat)
    requires run.Valid() && i <= j <= |run.events|
    ensures Evolves(run.states[i].tables, run.states[j].tables)
    ensures var v, w := run.states[i].tables, run.states[j].tables;
            forall id :: id in v.vettings ==>
              (SameChildren(v, w, v.vettings[id].asset)
               <==> forall row :: row in run.states[j].blind && row !in run.states[i].blind ==>
                      !ChildOf(row, v.vettings[id].asset))
  {
    hide Inv, Step, Enabled, SameResults, OnlyDelisted;
    StatesEvolve(run, i, j);
    var v := run.states[i].tables;
    forall id | id in v.vettings
      ensures SameChildren(v, run.states[j].tables, v.vettings[id].asset)
              <==> forall row :: row in run.states[j].blind && row !in run.states[i].blind ==>
                     !ChildOf(row, v.vettings[id].asset)
    {
      FrozenUnlessJoined(run.states[i], run.states[j], v.vettings[id].asset);
    }
  }

  lemma FrozenUnlessJoined(s: State, s': State, a: nat)
    requires Evolves(s.tables, s'.tables) && JoinedBlindly(s, s') && Vetted(s.tables, a)
    ensures SameChildren(s.tables, s'.tables, a)
            <==> forall row :: row in s'.blind && row !in s.blind ==> !ChildOf(row, a)
  {
    hide Vetted, SameResults, OnlyDelisted;
    if forall row :: row in s'.blind && row !in s.blind ==> !ChildOf(row, a) {
      assert !Joined(s, s', SpecRow(a));
      forall tool ensures (a, tool) in s'.tables.scope ==> (a, tool) in s.tables.scope {
        assert !Joined(s, s', ScopeRow(a, tool));
      }
    } else {
      var row :| row in s'.blind && row !in s.blind && ChildOf(row, a);
      assert Joined(s, s', row);
    }
  }

  // ---- building a run ----

  // One event leads from s to s'.
  predicate Leads(s: State, e: Event, s': State) {
    Enabled(s, e) && Step(s, e) == s'
  }

  lemma Extends(run: Run, e: Event, s: State) returns (longer: Run)
    requires run.Valid() && Leads(run.states[|run.events|], e, s)
    ensures longer.Valid() && longer.states[|longer.events|] == s
    ensures longer.events == run.events + [e] && longer.states == run.states + [s]
  {
    hide Step, Enabled, Initial;
    longer := Run(run.states + [s], run.events + [e]);
    forall i | 0 <= i < |longer.events|
      ensures Enabled(longer.states[i], longer.events[i])
              && longer.states[i + 1] == Step(longer.states[i], longer.events[i])
    {
      assert i < |run.events| ==> longer.states[i] == run.states[i] && longer.states[i + 1] == run.states[i + 1];
    }
  }
}
