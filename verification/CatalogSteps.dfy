/** Every step of every catalog transaction keeps what is said of that transaction. */
module CatalogSteps {
  import opened CatalogTables
  import opened CatalogInvariant

  function Stepped(s: State, x: nat, stmt: Stmt): State
    requires x in s.txns
  {
    Moved(s, x, Effect(s, s.txns[x], stmt)).(locks := LocksAfter(s, x, stmt), clock := s.clock + 1)
  }

  lemma LocksOnly(s: State, x: nat, stmt: Stmt)
    requires x in s.txns && LocksOk(s) && Ready(s, x, stmt)
    ensures OnlyTxn(s, Stepped(s, x, stmt), x)
    ensures var a := LockedAsset(stmt); a.Some? && a.value in s.tables.assets ==> Stepped(s, x, stmt).locks[a.value] == x
  {
    hide Effect, Fresh;
  }

  lemma OverlayUpdate<K, V>(base: map<K, V>, top: map<K, V>, k: K, v: V)
    ensures base + top[k := v] == (base + top)[k := v]
  {
  }

  // ---- what a step keeps because it leaves it alone ----

  predicate SameRecord(t: Txn, t': Txn, id: nat) {
    id in t'.pending.vettings ==>
      var row := RecordRow(id, t'.pending.vettings[id].asset);
      && id in t.pending.vettings && t.pending.vettings[id] == t'.pending.vettings[id]
      && (row in t.blind ==> row in t'.blind) && (row in t.owed ==> row in t'.owed)
  }

  lemma GuardsKept(s: State, s': State, x: nat)
    requires x in s.txns && Guarded(s, x) && OnlyTxn(s, s', x)
    requires forall a :: a in s.txns[x].pending.assets ==> a in s'.txns[x].pending.assets
    requires forall row :: SeenChild(s'.txns[x], row) ==> SeenChild(s.txns[x], row) || HoldsUnvetted(s', x, row.asset)
    requires forall id :: SameRecord(s.txns[x], s'.txns[x], id) || RecordGuarded(s', x, id)
    requires InsertingGuarded(s', x)
    ensures Guarded(s', x)
  {
    hide Vetted, SeenChild;
    forall row ensures ChildGuarded(s', x, row) {
      assert ChildGuarded(s, x, row);
    }
    forall id ensures RecordGuarded(s', x, id) {
      assert RecordGuarded(s, x, id);
    }
  }

  lemma TouchKept(s: State, s': State, x: nat)
    requires x in s.txns && x in s'.txns && s'.tables == s.tables
    requires forall a :: TouchGuarded(s, x, a)
    requires s'.txns[x].pending.listings == s.txns[x].pending.listings
    ensures forall a :: TouchGuarded(s', x, a)
  {
    forall a ensures TouchGuarded(s', x, a) {
      assert TouchGuarded(s, x, a);
      assert ListingsOf(s'.txns[x].pending, a) == ListingsOf(s.txns[x].pending, a);
    }
  }

  // The vettings of v with more rows around them.
  lemma ExaminedOn(v: Tables, w: Tables, blind: set<Row>, more: set<Row>)
    requires Grows(v, w) && Examined(v, blind) && blind <= more && w.vettings == v.vettings
    ensures Examined(w, more)
  {
    hide SawComplete, Grows;
    forall id ensures ExaminedAt(w, more, id) {
      assert ExaminedAt(v, blind, id);
      if id in v.vettings {
        ExaminedGrows(v, w, blind, more, id);
      }
    }
  }

  // Only the stage changes, or nothing: a refused statement, or a formed child row.
  lemma StageOk(s: State, s': State, x: nat)
    requires x in s.txns && TxnOk(s, x) && OnlyTxn(s, s', x)
    requires s'.txns[x] == s.txns[x].(stage := s'.txns[x].stage) && !s'.txns[x].stage.Waiting?
    requires InsertingGuarded(s', x)
    ensures TxnOk(s', x)
  {
    hide Overlays, HasRow, Guarded, Sound, KeysHold, Examined, InsertingGuarded;
    GuardsKept(s, s', x);
    TouchKept(s, s', x);
  }

  // ---- child rows ----

  lemma FormedOk(s: State, x: nat, stmt: Stmt)
    requires x in s.txns && LocksOk(s) && TxnOk(s, x) && Ready(s, x, stmt)
    requires stmt.AddSpec? || stmt.AddScope?
    ensures TxnOk(Stepped(s, x, stmt), x)
  {
    hide Sound, KeysHold, Examined, NotesOk, Guarded, TouchGuarded, WaitingOk, Ready;
    LocksOnly(s, x, stmt);
    ViewGrows(s, x);
    StageOk(s, Stepped(s, x, stmt), x);
  }

  lemma ChildView(s: State, t: Txn)
    requires IsInserting(t) && Overlays(s.tables, t.pending) && !HasRow(View(s, t), ChildRow(t.stage.stmt))
    ensures var v, t' := View(s, t), ChildInserted(s, t);
            && View(s, t') == WithChild(v, t.stage.stmt) && Grows(v, View(s, t'))
            && Overlays(s.tables, t'.pending)
            && t'.pending.assets == t.pending.assets && t'.pending.vettings == t.pending.vettings
            && t'.pending.listings == t.pending.listings
  {
    var p := t.pending;
    match t.stage.stmt
    case AddSpec(a, spec) => OverlayUpdate(s.tables.specs, p.specs, a, spec);
    case AddScope(a, tool) =>
      assert s.tables.scope + (p.scope + {(a, tool)}) == s.tables.scope + p.scope + {(a, tool)};
  }

  lemma ChildRows(p: Tables, stmt: Stmt, row: Row)
    requires stmt.AddSpec? || stmt.AddScope?
    ensures HasRow(WithChild(p, stmt), row) <==> HasRow(p, row) || row == ChildRow(stmt)
  {
  }

  lemma ChildViewOk(s: State, t: Txn)
    requires IsInserting(t) && Overlays(s.tables, t.pending) && !HasRow(View(s, t), ChildRow(t.stage.stmt))
    requires ViewOk(s, t)
    ensures ViewOk(s, ChildInserted(s, t))
  {
    hide Sound, KeysHold, Examined, Overlays, Grows, HasRow, View, ChildRow;
    var v, t' := View(s, t), ChildInserted(s, t);
    var w := View(s, t');
    ChildView(s, t);
    SoundFrom(v, w);
    forall row ensures HasRow(w, row) ==> HasRow(v, row) || row in t'.owed {
      ChildRows(v, t.stage.stmt, row);
    }
    KeysGrow(v, w, t.owed, t'.owed);
    ExaminedOn(v, w, s.blind + t.blind, s.blind + t'.blind);
  }

  lemma ChildNotes(s: State, t: Txn)
    requires IsInserting(t) && NotesOk(t)
    ensures NotesOk(ChildInserted(s, t))
  {
    hide HasRow, View, ChildRow;
    forall row ensures HasRow(WithChild(t.pending, t.stage.stmt), row) <==> HasRow(t.pending, row) || row == ChildRow(t.stage.stmt) {
      ChildRows(t.pending, t.stage.stmt, row);
    }
  }

  lemma ChildGuards(s: State, x: nat)
    requires x in s.txns && IsInserting(s.txns[x]) && LocksOk(s) && Guarded(s, x)
    ensures Guarded(Moved(s, x, ChildInserted(s, s.txns[x])), x)
  {
    hide HasRow, View, Vetted;
    var t, s' := s.txns[x], Moved(s, x, ChildInserted(s, s.txns[x]));
    forall row ensures SeenChild(s'.txns[x], row) ==> SeenChild(t, row) || HoldsUnvetted(s', x, row.asset) {
      ChildRows(t.pending, t.stage.stmt, row);
    }
    forall id ensures SameRecord(t, s'.txns[x], id) {
    }
    GuardsKept(s, s', x);
  }

  lemma ChildInsertedOk(s: State, x: nat)
    requires x in s.txns && LocksOk(s) && TxnOk(s, x) && IsInserting(s.txns[x])
    ensures TxnOk(Moved(s, x, ChildInserted(s, s.txns[x])), x)
  {
    hide ViewOk, Guarded, NotesOk, WithChild, Overlays, HasRow, ChildRow, Overlay;
    var t, s' := s.txns[x], Moved(s, x, ChildInserted(s, s.txns[x]));
    if HasRow(View(s, t), ChildRow(t.stage.stmt)) {
      StageOk(s, s', x);
    } else {
      ChildView(s, t);
      ChildViewOk(s, t);
      SameView(s, s', s'.txns[x]);
      ChildNotes(s, t);
      ChildGuards(s, x);
      TouchKept(s, s', x);
    }
  }

  lemma SameView(s: State, s': State, t: Txn)
    requires s'.tables == s.tables && s'.blind == s.blind
    ensures View(s', t) == View(s, t) && (ViewOk(s, t) <==> ViewOk(s', t))
  {
    hide Sound, KeysHold, Examined;
  }

  // ---- assets ----

  lemma SoundWithAsset(v: Tables, w: Tables, id: nat, asset: Asset)
    requires Sound(v) && id !in v.assets && !HasIdentity(v, AssetIdentity(asset))
    requires w == v.(assets := v.assets[id := asset])
    ensures Sound(w)
  {
    hide Binds, SourceOk;
    ListingsSoundGrow(v, w);
  }

  lemma AssetView(s: State, x: nat, id: nat, asset: Asset)
    requires x in s.txns && Overlays(s.tables, s.txns[x].pending) && Ready(s, x, AddAsset(id, asset))
    requires !HasIdentity(View(s, s.txns[x]), AssetIdentity(asset))
    ensures var v, t' := View(s, s.txns[x]), Effect(s, s.txns[x], AddAsset(id, asset));
            && id !in v.assets && View(s, t') == v.(assets := v.assets[id := asset]) && Grows(v, View(s, t'))
            && Overlays(s.tables, t'.pending)
  {
    OverlayUpdate(s.tables.assets, s.txns[x].pending.assets, id, asset);
  }

  lemma AssetRows(p: Tables, id: nat, asset: Asset)
    ensures forall row :: HasRow(p.(assets := p.assets[id := asset]), row) == HasRow(p, row)
  {
  }

  lemma AssetOk(s: State, x: nat, id: nat, asset: Asset)
    requires x in s.txns && LocksOk(s) && TxnOk(s, x) && s.txns[x].stage.Open? && Ready(s, x, AddAsset(id, asset))
    ensures TxnOk(Stepped(s, x, AddAsset(id, asset)), x)
  {
    hide Sound, KeysHold, Examined, Guarded, Overlays, Overlay, Grows, HasRow, HasIdentity, AssetIdentity, Ready;
    var t, s' := s.txns[x], Stepped(s, x, AddAsset(id, asset));
    var v := View(s, t);
    LocksOnly(s, x, AddAsset(id, asset));
    if HasIdentity(v, AssetIdentity(asset)) {
      StageOk(s, s', x);
    } else {
      AssetView(s, x, id, asset);
      SameView(s, s', s'.txns[x]);
      var w := View(s, s'.txns[x]);
      SoundWithAsset(v, w, id, asset);
      AssetRows(v, id, asset);
      AssetRows(t.pending, id, asset);
      KeysGrow(v, w, t.owed, t.owed);
      ExaminedOn(v, w, s.blind + t.blind, s.blind + t.blind);
      forall i ensures SameRecord(t, s'.txns[x], i) {
      }
      GuardsKept(s, s', x);
      TouchKept(s, s', x);
    }
  }

  // ---- vettings ----

  lemma SoundWithVetting(v: Tables, w: Tables, id: nat, row: Vetting)
    requires Sound(v) && id !in v.vettings && VettingGuard(v, row).None?
    requires w == v.(vettings := v.vettings[id := row])
    ensures Sound(w)
  {
    hide Binds;
    ListingsSoundGrow(v, w);
  }

  lemma ExaminedWithVetting(v: Tables, w: Tables, id: nat, row: Vetting, blind: set<Row>, more: set<Row>)
    requires Examined(v, blind) && id !in v.vettings && VettingGuard(v, row).None?
    requires w == v.(vettings := v.vettings[id := row])
    requires blind <= more && (row.asset !in v.assets ==> RecordRow(id, row.asset) in more)
    ensures Examined(w, more)
  {
    assert Grows(v, w);
    forall i ensures ExaminedAt(w, more, i) {
      assert ExaminedAt(v, blind, i);
      if i in v.vettings {
        ExaminedGrows(v, w, blind, more, i);
      } else if i == id && row.asset in v.assets && v.assets[row.asset].kind == Connector {
        CompleteGrows(v, w, row.asset);
      }
    }
  }

  lemma VettingView(s: State, x: nat, id: nat, row: Vetting)
    requires x in s.txns && Overlays(s.tables, s.txns[x].pending)
    requires Ready(s, x, AddVetting(id, row)) && VettingGuard(View(s, s.txns[x]), row).None?
    ensures var v, t' := View(s, s.txns[x]), Effect(s, s.txns[x], AddVetting(id, row));
            && id !in v.vettings && id !in s.txns[x].pending.vettings
            && View(s, t') == v.(vettings := v.vettings[id := row])
            && Overlays(s.tables, t'.pending)
            && t' == Owing(s.txns[x], t'.pending, RecordRow(id, row.asset), row.asset in v.assets)
            && t'.pending == s.txns[x].pending.(vettings := s.txns[x].pending.vettings[id := row])
  {
    OverlayUpdate(s.tables.vettings, s.txns[x].pending.vettings, id, row);
    hide VettingGuard;
  }

  lemma VettingRows(p: Tables, id: nat, vetting: Vetting, row: Row)
    requires id !in p.vettings
    ensures HasRow(p.(vettings := p.vettings[id := vetting]), row) <==> HasRow(p, row) || row == RecordRow(id, vetting.asset)
  {
  }

  lemma VettingViewOk(s: State, x: nat, id: nat, row: Vetting)
    requires x in s.txns && Overlays(s.tables, s.txns[x].pending) && ViewOk(s, s.txns[x])
    requires Ready(s, x, AddVetting(id, row)) && VettingGuard(View(s, s.txns[x]), row).None?
    ensures ViewOk(s, Effect(s, s.txns[x], AddVetting(id, row)))
  {
    hide Sound, KeysHold, Examined, Overlays, HasRow, View, VettingGuard, Effect, Ready;
    var t, t' := s.txns[x], Effect(s, s.txns[x], AddVetting(id, row));
    var v, w := View(s, t), View(s, t');
    VettingView(s, x, id, row);
    SoundWithVetting(v, w, id, row);
    forall r ensures HasRow(w, r) ==> HasRow(v, r) || r in t'.owed {
      VettingRows(v, id, row, r);
    }
    KeysGrow(v, w, t.owed, t'.owed);
    ExaminedWithVetting(v, w, id, row, s.blind + t.blind, s.blind + t'.blind);
  }

  lemma VettingNotes(t: Txn, t': Txn, id: nat, row: Vetting, found: bool)
    requires NotesOk(t) && id !in t.pending.vettings
    requires t'.pending == t.pending.(vettings := t.pending.vettings[id := row])
    requires t' == Owing(t, t'.pending, RecordRow(id, row.asset), found)
    ensures NotesOk(t')
    ensures forall r :: SeenChild(t', r) ==> SeenChild(t, r)
    ensures forall i :: i != id ==> SameRecord(t, t', i)
  {
    hide HasRow;
    forall r ensures HasRow(t'.pending, r) <==> HasRow(t.pending, r) || r == RecordRow(id, row.asset) {
      VettingRows(t.pending, id, row, r);
    }
  }

  lemma VettingOk(s: State, x: nat, id: nat, row: Vetting)
    requires x in s.txns && LocksOk(s) && TxnOk(s, x) && s.txns[x].stage.Open? && Ready(s, x, AddVetting(id, row))
    ensures TxnOk(Stepped(s, x, AddVetting(id, row)), x)
  {
    hide ViewOk, Overlays, Overlay, Guarded, NotesOk, Vetted, SeenChild, VettingGuard, Ready, SameRecord;
    var t, s' := s.txns[x], Stepped(s, x, AddVetting(id, row));
    LocksOnly(s, x, AddVetting(id, row));
    if VettingGuard(View(s, t), row).Some? {
      StageOk(s, s', x);
    } else {
      VettingView(s, x, id, row);
      VettingViewOk(s, x, id, row);
      SameView(s, s', s'.txns[x]);
      VettingNotes(t, s'.txns[x], id, row, row.asset in View(s, t).assets);
      NewRecordGuarded(s, x, id, row);
      GuardsKept(s, s', x);
      TouchKept(s, s', x);
    }
  }

  lemma NewRecordGuarded(s: State, x: nat, id: nat, row: Vetting)
    requires x in s.txns && LocksOk(s) && Ready(s, x, AddVetting(id, row))
    requires VettingGuard(View(s, s.txns[x]), row).None?
    ensures RecordGuarded(Stepped(s, x, AddVetting(id, row)), x, id)
  {
    hide VettingGuard, Fresh;
    LocksOnly(s, x, AddVetting(id, row));
  }

  // ---- results ----

  lemma ResultView(s: State, x: nat, record: nat, name: CheckName, passed: bool)
    requires x in s.txns && Overlays(s.tables, s.txns[x].pending)
    requires (record, name) !in View(s, s.txns[x]).results
    ensures var v, t' := View(s, s.txns[x]), Effect(s, s.txns[x], AddResult(record, name, passed));
            && View(s, t') == v.(results := v.results[(record, name) := passed])
            && Overlays(s.tables, t'.pending)
            && t' == Owing(s.txns[x], t'.pending, ResultRow(record, name), true)
            && t'.pending == s.txns[x].pending.(results := s.txns[x].pending.results[(record, name) := passed])
  {
    OverlayUpdate(s.tables.results, s.txns[x].pending.results, (record, name), passed);
  }

  lemma RowsWithResult(p: Tables, record: nat, name: CheckName, passed: bool, row: Row)
    ensures HasRow(p.(results := p.results[(record, name) := passed]), row)
            <==> HasRow(p, row) || row == ResultRow(record, name)
  {
  }

  lemma ResultViewOk(s: State, x: nat, record: nat, name: CheckName, passed: bool)
    requires x in s.txns && Overlays(s.tables, s.txns[x].pending) && ViewOk(s, s.txns[x])
    requires (record, name) !in View(s, s.txns[x]).results
    ensures ViewOk(s, Effect(s, s.txns[x], AddResult(record, name, passed)))
  {
    hide Sound, KeysHold, Examined, Overlays, HasRow, View, Effect;
    var t, t' := s.txns[x], Effect(s, s.txns[x], AddResult(record, name, passed));
    var v, w := View(s, t), View(s, t');
    ResultView(s, x, record, name, passed);
    SoundFrom(v, w);
    forall r ensures HasRow(w, r) ==> HasRow(v, r) || r in t'.owed {
      RowsWithResult(v, record, name, passed, r);
    }
    KeysGrow(v, w, t.owed, t'.owed);
    ExaminedOn(v, w, s.blind + t.blind, s.blind + t'.blind);
  }

  lemma ResultNotes(t: Txn, t': Txn, record: nat, name: CheckName, passed: bool)
    requires NotesOk(t)
    requires t'.pending == t.pending.(results := t.pending.results[(record, name) := passed])
    requires t' == Owing(t, t'.pending, ResultRow(record, name), true)
    ensures NotesOk(t')
    ensures forall r :: SeenChild(t', r) ==> SeenChild(t, r)
    ensures forall i :: SameRecord(t, t', i)
  {
    hide HasRow;
    forall r ensures HasRow(t'.pending, r) <==> HasRow(t.pending, r) || r == ResultRow(record, name) {
      RowsWithResult(t.pending, record, name, passed, r);
    }
  }

  lemma ResultOk(s: State, x: nat, record: nat, name: CheckName, passed: bool)
    requires x in s.txns && LocksOk(s) && TxnOk(s, x) && s.txns[x].stage.Open?
    requires Ready(s, x, AddResult(record, name, passed))
    ensures TxnOk(Stepped(s, x, AddResult(record, name, passed)), x)
  {
    hide ViewOk, Overlays, Overlay, Guarded, NotesOk, Vetted, SeenChild, Ready, SameRecord;
    var t, s' := s.txns[x], Stepped(s, x, AddResult(record, name, passed));
    LocksOnly(s, x, AddResult(record, name, passed));
    if (record, name) in View(s, t).results {
      StageOk(s, s', x);
    } else {
      ResultView(s, x, record, name, passed);
      ResultViewOk(s, x, record, name, passed);
      SameView(s, s', s'.txns[x]);
      ResultNotes(t, s'.txns[x], record, name, passed);
      GuardsKept(s, s', x);
      TouchKept(s, s', x);
    }
  }

  // ---- foreign keys ----

  function Checked(s: State, x: nat, row: Row): State
    requires x in s.txns
  {
    Moved(s, x, KeyChecked(s, s.txns[x], row)).(shares := SharesAfter(s, x, row))
  }

  lemma ShareOnly(s: State, x: nat, row: Row)
    requires LocksOk(s) && Enabled(s, CheckKey(x, row))
    ensures OnlyTxn(s, Checked(s, x, row), x)
  {
    hide Keyed, View;
  }

  lemma KeyRecords(s: State, x: nat, row: Row, id: nat)
    requires LocksOk(s) && Enabled(s, CheckKey(x, row)) && RecordGuarded(s, x, id)
    requires Keyed(View(s, s.txns[x]), row)
    ensures RecordGuarded(Checked(s, x, row), x, id)
  {
  }

  lemma KeyOk(s: State, x: nat, row: Row)
    requires LocksOk(s) && Enabled(s, CheckKey(x, row)) && TxnOk(s, x)
    ensures TxnOk(Checked(s, x, row), x)
  {
    hide Sound, Examined, Overlays, Overlay, HasRow, Keyed, SeenChild, SharesAfter;
    var t, s' := s.txns[x], Checked(s, x, row);
    ShareOnly(s, x, row);
    if Keyed(View(s, t), row) {
      assert View(s', s'.txns[x]) == View(s, t);
      forall id ensures RecordGuarded(s', x, id) {
        assert RecordGuarded(s, x, id);
        KeyRecords(s, x, row, id);
      }
      SeenAlike(t, s'.txns[x]);
      GuardsKept(s, s', x);
      TouchKept(s, s', x);
    } else {
      StageOk(s, s', x);
    }
  }

  lemma SeenAlike(t: Txn, t': Txn)
    requires t'.pending == t.pending && t'.blind == t.blind
    ensures forall row :: SeenChild(t', row) ==> SeenChild(t, row)
  {
  }

  // ---- listings ----

  lemma ListingOk(s: State, x: nat, id: nat, asset: nat, record: nat)
    requires x in s.txns && LocksOk(s) && TxnOk(s, x) && s.txns[x].stage.Open?
    requires Ready(s, x, AddListing(id, asset, record))
    ensures TxnOk(Stepped(s, x, AddListing(id, asset, record)), x)
  {
    hide Sound, KeysHold, Examined, Overlays, HasRow, Guarded, SeenChild, ListingGuard, Binds, Vetted;
    var s' := Stepped(s, x, AddListing(id, asset, record));
    LocksOnly(s, x, AddListing(id, asset, record));
    GuardBinds(View(s, s.txns[x]), asset, record);
    SameView(s, s', s'.txns[x]);
    SeenAlike(s.txns[x], s'.txns[x]);
    GuardsKept(s, s', x);
    TouchKept(s, s', x);
  }

  // Listing rows change for one asset only, and afterwards it has delisted what is committed live for it.
  lemma ListingTouches(s: State, s': State, x: nat, asset: nat)
    requires x in s.txns && x in s'.txns && s'.tables == s.tables && (forall a :: TouchGuarded(s, x, a))
    requires forall a :: a != asset ==> ListingsOf(s'.txns[x].pending, a) == ListingsOf(s.txns[x].pending, a)
    requires forall id :: id in s.txns[x].pending.listings ==> id in s'.txns[x].pending.listings
    requires forall id :: CommittedLive(s, id, asset) ==> id in s'.txns[x].pending.listings
    ensures forall a :: TouchGuarded(s', x, a)
  {
    forall a ensures TouchGuarded(s', x, a) {
      assert TouchGuarded(s, x, a);
    }
  }

  // A table that differs in its listings only.
  lemma ListingViewOk(s: State, t: Txn, t': Txn)
    requires ViewOk(s, t) && Sound(View(s, t')) && t'.owed == t.owed && t'.blind == t.blind
    requires View(s, t') == View(s, t).(listings := View(s, t').listings)
    ensures ViewOk(s, t')
  {
    hide Sound, View, HasRow;
    var v, w := View(s, t), View(s, t');
    ListingRows(v, w);
    KeysGrow(v, w, t.owed, t'.owed);
    ExaminedOn(v, w, s.blind + t.blind, s.blind + t.blind);
  }

  lemma ListingRows(v: Tables, w: Tables)
    requires w == v.(listings := w.listings)
    ensures forall row :: HasRow(w, row) == HasRow(v, row)
  {
  }

  lemma ListingNotes(t: Txn, t': Txn)
    requires NotesOk(t) && t' == t.(stage := t'.stage, pending := t'.pending)
    requires t'.pending == t.pending.(listings := t'.pending.listings)
    ensures NotesOk(t') && (forall row :: SeenChild(t', row) ==> SeenChild(t, row)) && forall i :: SameRecord(t, t', i)
  {
    hide HasRow;
    ListingRows(t.pending, t'.pending);
  }

  lemma DelistView(s: State, x: nat, id: nat)
    requires x in s.txns && Overlays(s.tables, s.txns[x].pending) && OneLive(s.tables)
    requires id in View(s, s.txns[x]).listings && View(s, s.txns[x]).listings[id].live
    ensures var v, t' := View(s, s.txns[x]), Effect(s, s.txns[x], Delist(id));
            && View(s, t') == v.(listings := v.listings[id := v.listings[id].(live := false)])
            && Overlays(s.tables, t'.pending)
            && (forall a :: a != v.listings[id].asset ==> ListingsOf(t'.pending, a) == ListingsOf(s.txns[x].pending, a))
            && ListingsOf(t'.pending, v.listings[id].asset) == ListingsOf(s.txns[x].pending, v.listings[id].asset) + {id}
  {
    OverlayUpdate(s.tables.listings, s.txns[x].pending.listings, id, View(s, s.txns[x]).listings[id].(live := false));
  }

  lemma DelistOk(s: State, x: nat, id: nat)
    requires x in s.txns && LocksOk(s) && TxnOk(s, x) && s.txns[x].stage.Open? && Ready(s, x, Delist(id))
    requires OneLive(s.tables)
    ensures TxnOk(Stepped(s, x, Delist(id)), x)
  {
    hide Overlays, Overlay, Guarded, NotesOk, Sound, KeysHold, Examined, SeenChild, Ready, SameRecord, TouchesListing,
         CommittedLive, OneLive;
    var t, s' := s.txns[x], Stepped(s, x, Delist(id));
    var v := View(s, t);
    LocksOnly(s, x, Delist(id));
    if id !in v.listings || !v.listings[id].live {
      StageOk(s, s', x);
    } else {
      DelistView(s, x, id);
      SameView(s, s', s'.txns[x]);
      DelistCoversLive(s, x, id);
      SoundFrom(v, View(s, s'.txns[x]));
      ListingViewOk(s, t, s'.txns[x]);
      ListingNotes(t, s'.txns[x]);
      ListingTouches(s, s', x, v.listings[id].asset);
      GuardsKept(s, s', x);
    }
  }

  lemma DelistCoversLive(s: State, x: nat, id: nat)
    requires x in s.txns && TxnOk(s, x) && OneLive(s.tables)
    requires id in View(s, s.txns[x]).listings && View(s, s.txns[x]).listings[id].live
    ensures var v, t' := View(s, s.txns[x]), Effect(s, s.txns[x], Delist(id));
            && t' == s.txns[x].(pending := t'.pending)
            && t'.pending == s.txns[x].pending.(listings := t'.pending.listings)
            && (forall i :: i in s.txns[x].pending.listings ==> i in t'.pending.listings)
            && (forall i :: CommittedLive(s, i, v.listings[id].asset) ==> i in t'.pending.listings)
  {
    var p := s.txns[x].pending;
    var a := View(s, s.txns[x]).listings[id].asset;
    assert TouchGuarded(s, x, a);
    if id in p.listings {
      assert id in ListingsOf(p, a);
    }
  }

  lemma InsertView(s: State, x: nat)
    requires x in s.txns && s.txns[x].stage.Waiting? && TxnOk(s, x)
    requires !HasLive(View(s, s.txns[x]), s.txns[x].stage.listing.asset)
    ensures var v, t', l, id := View(s, s.txns[x]), Inserted(s, s.txns[x]), s.txns[x].stage.listing, s.txns[x].stage.id;
            && id !in v.listings
            && View(s, t') == v.(listings := v.listings[id := l])
            && Overlays(s.tables, t'.pending)
            && (forall a :: a != l.asset ==> ListingsOf(t'.pending, a) == ListingsOf(s.txns[x].pending, a))
            && t' == s.txns[x].(stage := Open, pending := t'.pending)
            && t'.pending == s.txns[x].pending.(listings := t'.pending.listings)
            && (forall i :: i in s.txns[x].pending.listings ==> i in t'.pending.listings)
            && (forall i :: CommittedLive(s, i, l.asset) ==> i in t'.pending.listings)
  {
    var v, t', l := View(s, s.txns[x]), Inserted(s, s.txns[x]), s.txns[x].stage.listing;
    OverlayUpdate(s.tables.listings, s.txns[x].pending.listings, s.txns[x].stage.id, l);
    assert forall i :: i in s.tables.listings && i !in s.txns[x].pending.listings ==> v.listings[i] == s.tables.listings[i];
    hide Sound;
  }

  lemma SoundWithListing(v: Tables, w: Tables, id: nat, l: Listing)
    requires Sound(v) && id !in v.listings && !HasLive(v, l.asset)
    requires Binds(v, l.asset, l.vetting)
    requires w == v.(listings := v.listings[id := l])
    ensures Sound(w)
  {
    assert Grows(v, w);
    forall i ensures ListingSound(w, i) {
      assert ListingSound(v, i);
      if i == id {
        BindsGrows(v, w, l.asset, l.vetting);
      } else if i in v.listings {
        BindsGrows(v, w, v.listings[i].asset, v.listings[i].vetting);
      }
    }
  }

  lemma InsertedOk(s: State, x: nat)
    requires x in s.txns && LocksOk(s) && s.txns[x].stage.Waiting? && TxnOk(s, x)
    ensures TxnOk(Moved(s, x, Inserted(s, s.txns[x])), x)
  {
    hide Overlays, Overlay, Guarded, NotesOk, Sound, KeysHold, Examined, SeenChild, SameRecord, TouchesListing,
         CommittedLive, HasLive, Binds;
    var t, s' := s.txns[x], Moved(s, x, Inserted(s, s.txns[x]));
    var l := t.stage.listing;
    if HasLive(View(s, t), l.asset) {
      StageOk(s, s', x);
    } else {
      InsertView(s, x);
      SameView(s, s', s'.txns[x]);
      SoundWithListing(View(s, t), View(s, s'.txns[x]), t.stage.id, l);
      ListingViewOk(s, t, s'.txns[x]);
      ListingNotes(t, s'.txns[x]);
      ListingTouches(s, s', x, l.asset);
      GuardsKept(s, s', x);
    }
  }
}
