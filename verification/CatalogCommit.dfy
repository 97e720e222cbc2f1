/** Transactions stay apart, and a commit or an abort keeps the invariant; so does every step. */
module CatalogCommit {
  import opened CatalogTables
  import opened CatalogInvariant
  import opened CatalogSteps

  // ---- a statement keeps its transaction apart from the others ----

  // The transaction gains rows the other one does not have, and no child row or listing.
  predicate GainsApart(p: Tables, q: Tables, u: Tables) {
    && q.listings == p.listings && q.specs == p.specs && q.scope == p.scope
    && (forall id :: id in q.assets ==> (id in p.assets && q.assets[id] == p.assets[id])
                                        || (id !in u.assets && !HasIdentity(u, AssetIdentity(q.assets[id]))))
    && (forall id :: id in q.vettings && id !in p.vettings ==> id !in u.vettings)
    && (forall r :: r in q.results && r !in p.results ==> r !in u.results)
  }

  lemma GainedApart(t: Txn, t': Txn, u: Txn)
    requires Apart(t, u) && GainsApart(t.pending, t'.pending, u.pending)
    requires WaitingApart(t', u)
    ensures Apart(t', u)
  {
    hide AssetIdentity;
  }

  lemma AssetApart(s: State, x: nat, y: nat, stmt: Stmt)
    requires x in s.txns && y in s.txns && x != y && s.txns[x].stage.Open?
    requires Apart(s.txns[x], s.txns[y]) && Ready(s, x, stmt) && stmt.AddAsset?
    ensures Apart(Effect(s, s.txns[x], stmt), s.txns[y])
  {
    hide Apart, View, LockedAsset, LockFree, HasIdentity, AssetIdentity;
    GainedApart(s.txns[x], Effect(s, s.txns[x], stmt), s.txns[y]);
  }

  lemma VettingApart(s: State, x: nat, y: nat, stmt: Stmt)
    requires x in s.txns && y in s.txns && x != y && s.txns[x].stage.Open?
    requires Apart(s.txns[x], s.txns[y]) && Ready(s, x, stmt) && stmt.AddVetting?
    ensures Apart(Effect(s, s.txns[x], stmt), s.txns[y])
  {
    hide VettingGuard, Apart, View, LockedAsset, LockFree, HasIdentity, AssetIdentity;
    GainedApart(s.txns[x], Effect(s, s.txns[x], stmt), s.txns[y]);
  }

  lemma ResultApart(s: State, x: nat, y: nat, stmt: Stmt)
    requires x in s.txns && y in s.txns && x != y && s.txns[x].stage.Open?
    requires Apart(s.txns[x], s.txns[y]) && Ready(s, x, stmt) && stmt.AddResult?
    ensures Apart(Effect(s, s.txns[x], stmt), s.txns[y])
  {
    hide Apart, View, LockedAsset, LockFree, HasIdentity, AssetIdentity;
    GainedApart(s.txns[x], Effect(s, s.txns[x], stmt), s.txns[y]);
  }

  lemma ListingApart(s: State, x: nat, y: nat, stmt: Stmt)
    requires x in s.txns && y in s.txns && x != y && s.txns[x].stage.Open?
    requires Apart(s.txns[x], s.txns[y]) && Ready(s, x, stmt) && stmt.AddListing?
    ensures Apart(Effect(s, s.txns[x], stmt), s.txns[y])
  {
    hide ListingGuard, View, LockFree, HasIdentity, RowsApart, TouchApart;
  }

  lemma FormedApart(s: State, x: nat, y: nat, stmt: Stmt)
    requires x in s.txns && y in s.txns && s.txns[x].stage.Open?
    requires Apart(s.txns[x], s.txns[y])
    requires stmt.AddSpec? || stmt.AddScope?
    ensures Apart(Effect(s, s.txns[x], stmt), s.txns[y])
  {
    hide Apart, ChildGuard;
    SamePending(s.txns[x], Effect(s, s.txns[x], stmt), s.txns[y]);
  }

  lemma ChildApart(s: State, x: nat, y: nat)
    requires x in s.txns && y in s.txns && x != y && Enabled(s, InsertChild(x)) && Apart(s.txns[x], s.txns[y])
    ensures Apart(ChildInserted(s, s.txns[x]), s.txns[y])
  {
    hide IdentitiesApart, TouchApart, View;
    assert TouchApart(ChildInserted(s, s.txns[x]).pending, s.txns[y].pending) by {
      ChildListings(s, s.txns[x]);
      TouchAlike(s.txns[x].pending, ChildInserted(s, s.txns[x]).pending, s.txns[y].pending);
    }
    assert IdentitiesApart(ChildInserted(s, s.txns[x]).pending, s.txns[y].pending) by {
      assert IdentitiesApart(s.txns[x].pending, s.txns[y].pending);
      ChildListings(s, s.txns[x]);
      IdentitiesAlike(s.txns[x].pending, ChildInserted(s, s.txns[x]).pending, s.txns[y].pending);
    }
  }

  lemma ChildListings(s: State, t: Txn)
    requires IsInserting(t)
    ensures ChildInserted(s, t).pending.listings == t.pending.listings
    ensures ChildInserted(s, t).pending.assets == t.pending.assets
  {
    hide View, HasRow;
  }

  lemma TouchAlike(p: Tables, q: Tables, u: Tables)
    requires TouchApart(p, u) && q.listings == p.listings
    ensures TouchApart(q, u)
  {
    forall a ensures ListingsOf(q, a) == {} || ListingsOf(u, a) == {} {
      assert ListingsOf(q, a) == ListingsOf(p, a);
    }
  }

  lemma IdentitiesAlike(p: Tables, q: Tables, u: Tables)
    requires IdentitiesApart(p, u) && q.assets == p.assets
    ensures IdentitiesApart(q, u)
  {
    hide AssetIdentity;
  }

  // Nobody else touches the listings of an asset while one of its live listings is about to be delisted.
  lemma DelistAlone(s: State, x: nat, y: nat, id: nat)
    requires x in s.txns && y in s.txns && x != y && Ready(s, x, Delist(id))
    requires TouchApart(s.txns[x].pending, s.txns[y].pending)
    requires id in View(s, s.txns[x]).listings && View(s, s.txns[x]).listings[id].live
    requires TouchGuarded(s, y, View(s, s.txns[x]).listings[id].asset)
    ensures !TouchesListing(s.txns[y], View(s, s.txns[x]).listings[id].asset)
  {
    var a := View(s, s.txns[x]).listings[id].asset;
    if id in s.txns[x].pending.listings {
      assert id in ListingsOf(s.txns[x].pending, a);
    } else {
      assert CommittedLive(s, id, a);
    }
  }

  // The pending listings grow by one row, of an asset the other transaction does not touch.
  lemma TouchedApart(t: Txn, t': Txn, u: Txn, id: nat, a: nat)
    requires Apart(t, u) && ListingsOf(u.pending, a) == {}
    requires t'.stage.Open? && t'.pending == t.pending.(listings := t'.pending.listings)
    requires t'.pending.listings.Keys == t.pending.listings.Keys + {id}
    requires forall b :: b != a ==> ListingsOf(t'.pending, b) == ListingsOf(t.pending, b)
    requires id !in u.pending.listings && (u.stage.Waiting? ==> u.stage.id != id)
    ensures Apart(t', u)
  {
  }

  lemma DelistApart(s: State, x: nat, y: nat, id: nat)
    requires x in s.txns && y in s.txns && x != y && s.txns[x].stage.Open? && Ready(s, x, Delist(id))
    requires Apart(s.txns[x], s.txns[y]) && TxnOk(s, x) && OneLive(s.tables)
    requires (forall a :: TouchGuarded(s, y, a)) && WaitingOk(s, y)
    ensures Apart(Effect(s, s.txns[x], Delist(id)), s.txns[y])
  {
    var v, t' := View(s, s.txns[x]), Effect(s, s.txns[x], Delist(id));
    hide ViewOk, RowsApart, Guarded, NotesOk, OneLive, Binds;
    if id !in v.listings || !v.listings[id].live {
      SamePending(s.txns[x], t', s.txns[y]);
    } else {
      var a := v.listings[id].asset;
      assert TouchGuarded(s, y, a);
      hide TouchGuarded, Overlays;
      DelistAlone(s, x, y, id);
      DelistView(s, x, id);
      hide TxnOk, TouchApart;
      TouchedApart(s.txns[x], t', s.txns[y], id, a);
    }
  }

  lemma InsertedApart(s: State, x: nat, y: nat)
    requires x in s.txns && y in s.txns && x != y && Enabled(s, InsertListing(x))
    requires Apart(s.txns[x], s.txns[y]) && TxnOk(s, x)
    ensures Apart(Inserted(s, s.txns[x]), s.txns[y])
  {
    hide TxnOk, RowsApart, TouchApart, HasLive, Overlays, Overlay;
    var t, t' := s.txns[x], Inserted(s, s.txns[x]);
    if HasLive(View(s, t), t.stage.listing.asset) {
      SamePending(t, t', s.txns[y]);
    } else {
      InsertView(s, x);
      TouchedApart(t, t', s.txns[y], t.stage.id, t.stage.listing.asset);
    }
  }

  // ---- statements ----

  lemma StatementOk(s: State, x: nat, stmt: Stmt)
    requires Inv(s) && x in s.txns && s.txns[x].stage.Open? && Ready(s, x, stmt)
    ensures TxnOk(Stepped(s, x, stmt), x)
  {
    assert TxnOk(s, x);
    hide TxnOk, Ready, Stepped, OneLive, LocksOk;
    match stmt
    case AddAsset(id, asset) => AssetOk(s, x, id, asset);
    case AddSpec(a, spec) => FormedOk(s, x, stmt);
    case AddScope(a, tool) => FormedOk(s, x, stmt);
    case AddVetting(id, row) => VettingOk(s, x, id, row);
    case AddResult(record, name, passed) => ResultOk(s, x, record, name, passed);
    case AddListing(id, a, record) => ListingOk(s, x, id, a, record);
    case Delist(id) => DelistOk(s, x, id);
  }

  lemma OthersOk(s: State, x: nat, y: nat)
    requires Inv(s) && x in s.txns && y in s.txns
    ensures TxnOk(s, x) && OneLive(s.tables)
    ensures (forall a :: TouchGuarded(s, y, a)) && WaitingOk(s, y)
  {
    assert TxnOk(s, y);
  }

  lemma StatementApart(s: State, x: nat, y: nat, stmt: Stmt)
    requires Inv(s) && x in s.txns && y in s.txns && x != y && s.txns[x].stage.Open? && Ready(s, x, stmt)
    ensures Apart(Effect(s, s.txns[x], stmt), s.txns[y])
  {
    assert Apart(s.txns[x], s.txns[y]);
    hide Apart, Ready, Effect, Sound, TxnOk, ShapesSound;
    match stmt
    case AddSpec(_, _) => FormedApart(s, x, y, stmt);
    case AddScope(_, _) => FormedApart(s, x, y, stmt);
    case Delist(id) =>
      OthersOk(s, x, y);
      DelistApart(s, x, y, id);
    case AddAsset(_, _) => AssetApart(s, x, y, stmt);
    case AddListing(_, _, _) => ListingApart(s, x, y, stmt);
    case AddVetting(_, _) => VettingApart(s, x, y, stmt);
    case AddResult(_, _, _) => ResultApart(s, x, y, stmt);
  }

  lemma ExecuteInv(s: State, x: nat, stmt: Stmt)
    requires Inv(s) && Enabled(s, Execute(x, stmt))
    ensures Inv(Step(s, Execute(x, stmt)))
  {
    var s' := Stepped(s, x, stmt);
    StatementOk(s, x, stmt);
    LocksOnly(s, x, stmt);
    forall y | y in s.txns && y != x ensures Apart(s'.txns[x], s.txns[y]) {
      StatementApart(s, x, y, stmt);
    }
    hide TxnOk, OnlyTxn, Apart, Effect, LocksAfter, Inv;
    LocalStep(s, s', x);
  }

  lemma MovedOnly(s: State, x: nat, t: Txn)
    requires Inv(s) && x in s.txns
    ensures OnlyTxn(s, Moved(s, x, t), x)
  {
    hide TablesOk, TxnOk, Apart;
  }

  lemma ChildInv(s: State, x: nat)
    requires Inv(s) && Enabled(s, InsertChild(x))
    ensures Inv(Step(s, InsertChild(x)))
  {
    hide TxnOk, ChildInserted, Apart, TablesOk, OnlyTxn, HasRow;
    var s' := Step(s, InsertChild(x));
    ChildInsertedOk(s, x);
    forall y | y in s.txns && y != x ensures Apart(s'.txns[x], s.txns[y]) {
      assert Apart(s.txns[x], s.txns[y]);
      ChildApart(s, x, y);
    }
    MovedOnly(s, x, ChildInserted(s, s.txns[x]));
    LocalStep(s, s', x);
  }

  lemma InsertInv(s: State, x: nat)
    requires Inv(s) && Enabled(s, InsertListing(x))
    ensures Inv(Step(s, InsertListing(x)))
  {
    hide TxnOk, Inserted, Apart, TablesOk, OnlyTxn, View, TouchesListing;
    var s' := Step(s, InsertListing(x));
    assert TxnOk(s, x);
    InsertedOk(s, x);
    forall y | y in s.txns && y != x ensures Apart(s'.txns[x], s.txns[y]) {
      assert Apart(s.txns[x], s.txns[y]);
      InsertedApart(s, x, y);
    }
    MovedOnly(s, x, Inserted(s, s.txns[x]));
    LocalStep(s, s', x);
  }

  lemma KeyInv(s: State, x: nat, row: Row)
    requires Inv(s) && Enabled(s, CheckKey(x, row))
    ensures Inv(Step(s, CheckKey(x, row)))
  {
    hide TxnOk, Apart, TablesOk, OnlyTxn, HasRow, Keyed, View, LocksOk, SharesAfter;
    var s' := Checked(s, x, row);
    assert TxnOk(s, x);
    KeyOk(s, x, row);
    ShareOnly(s, x, row);
    forall y | y in s.txns && y != x ensures Apart(s'.txns[x], s.txns[y]) {
      assert Apart(s.txns[x], s.txns[y]);
      SamePending(s.txns[x], s'.txns[x], s.txns[y]);
    }
    LocalStep(s, s', x);
  }

  lemma OpenedView(s: State)
    ensures View(s, NEW_TXN) == s.tables
    ensures Overlays(s.tables, EMPTY)
  {
  }

  lemma OpenedGuards(s: State, x: nat)
    requires x in s.txns && s.txns[x] == NEW_TXN
    ensures Guarded(s, x) && (forall a :: TouchGuarded(s, x, a)) && NotesOk(s.txns[x]) && WaitingOk(s, x)
  {
    hide HoldsUnvetted, Works, Binds, View;
  }

  lemma OpenedOk(s: State, x: nat)
    requires TablesOk(s) && x !in s.txns
    ensures TxnOk(Step(s, Begin(x)), x)
  {
    hide Sound, KeysHold, Examined, ShapesSound, Guarded, TouchGuarded, NotesOk, WaitingOk, Overlays, View, HasRow;
    var s' := Step(s, Begin(x));
    OpenedView(s');
    OpenedGuards(s', x);
    assert s.blind + {} == s.blind;
  }

  lemma OpenedApart(u: Txn)
    ensures Apart(NEW_TXN, u)
  {
  }

  lemma BeginInv(s: State, x: nat)
    requires Inv(s) && x !in s.txns
    ensures Inv(Step(s, Begin(x)))
  {
    hide TxnOk, Apart, TablesOk;
    var s' := Step(s, Begin(x));
    OpenedOk(s, x);
    forall y | y in s.txns && y != x ensures Apart(s'.txns[x], s.txns[y]) {
      OpenedApart(s.txns[y]);
    }
    LocalStep(s, s', x);
  }

  // ---- ends ----

  // The others are as before; what is left to show is the committed tables and each remaining transaction.
  lemma EndInv(s: State, x: nat, tables: Tables, blind: set<Row>)
    requires Inv(s) && x in s.txns && TablesOk(Ended(s, x, tables, blind))
    requires s.tables.assets.Keys <= tables.assets.Keys
    requires forall y :: y in s.txns && y != x ==> TxnOk(Ended(s, x, tables, blind), y)
    ensures Inv(Ended(s, x, tables, blind))
  {
    var s' := Ended(s, x, tables, blind);
    hide TxnOk, Apart, TablesOk;
    forall y, z | y in s'.txns && z in s'.txns && y != z ensures Apart(s'.txns[y], s'.txns[z]) {
      assert Apart(s.txns[y], s.txns[z]);
    }
  }

  lemma AbortInv(s: State, x: nat)
    requires Inv(s) && x in s.txns
    ensures Inv(Aborted(s, x))
  {
    var s' := Aborted(s, x);
    hide TxnOk, Apart, Sound, ShapesSound, KeysHold, Examined, HasRow;
    forall y | y in s.txns && y != x ensures TxnOk(s', y) {
      OtherTxn(s, s', y);
    }
    EndInv(s, x, s.tables, s.blind);
  }

  lemma OverlaysOverlay(base: Tables, p: Tables, q: Tables)
    requires Overlays(base, q) && RowsApart(p, q)
    ensures Overlays(Overlay(base, p), q)
  {
    hide IdentitiesApart;
  }

  lemma RecordsEngaged(s: State, x: nat, id: nat)
    requires x in s.txns && Guarded(s, x) && s.txns[x].owed == {} && id in s.txns[x].pending.vettings
    ensures Engaged(s, x, s.txns[x].pending.vettings[id].asset)
  {
    hide Engaged, Works;
    assert RecordGuarded(s, x, id);
  }

  // A transaction that has had all its keys checked has no vetting of an asset another one works on.
  lemma WorkedByOne(s: State, x: nat, y: nat, a: nat)
    requires Inv(s) && x in s.txns && y in s.txns && x != y && Works(s, y, a) && s.txns[x].owed == {}
    ensures forall id :: id in s.txns[x].pending.vettings ==> s.txns[x].pending.vettings[id].asset != a
  {
    hide ViewOk, Overlays, Apart, TablesOk, LocksOk, Guarded, TouchGuarded, WaitingOk, NotesOk, Engaged, Works;
    assert TxnOk(s, x);
    forall id | id in s.txns[x].pending.vettings ensures s.txns[x].pending.vettings[id].asset != a {
      RecordsEngaged(s, x, id);
      if s.txns[x].pending.vettings[id].asset == a {
        WorksAlone(s, y, x, a);
      }
    }
  }

  lemma StillUnvetted(base: Tables, p: Tables, a: nat)
    requires !Vetted(base, a) && forall id :: id in p.vettings ==> p.vettings[id].asset != a
    ensures !Vetted(Overlay(base, p), a)
  {
  }

  lemma StillWorks(s: State, x: nat, y: nat, a: nat)
    requires x in s.txns && y in s.txns && x != y && Works(s, y, a)
    ensures Works(Committed(s, x), y, a)
  {
  }

  // What a transaction holds of an unvetted asset survives the commit of another.
  lemma HeldCommitted(s: State, x: nat, y: nat, a: nat)
    requires Inv(s) && x in s.txns && y in s.txns && x != y && HoldsUnvetted(s, y, a) && s.txns[x].owed == {}
    ensures HoldsUnvetted(Committed(s, x), y, a)
  {
    hide Inv, Works, Vetted, Overlay;
    WorkedByOne(s, x, y, a);
    StillWorks(s, x, y, a);
    StillUnvetted(s.tables, s.txns[x].pending, a);
  }

  lemma SeenIsChild(t: Txn, row: Row)
    requires SeenChild(t, row)
    ensures IsChild(row)
  {
  }

  lemma GuardsCommitted(s: State, x: nat, y: nat)
    requires Inv(s) && x in s.txns && y in s.txns && x != y && s.txns[x].owed == {}
    ensures Guarded(Committed(s, x), y)
  {
    hide TablesOk, LocksOk, ViewOk, Overlays, NotesOk, TouchGuarded, WaitingOk, Apart, HoldsUnvetted, SeenChild, View;
    var s' := Committed(s, x);
    assert TxnOk(s, y);
    forall row ensures ChildGuarded(s', y, row) {
      assert ChildGuarded(s, y, row);
      if SeenChild(s.txns[y], row) {
        SeenIsChild(s.txns[y], row);
        HeldCommitted(s, x, y, row.asset);
      }
    }
    forall id ensures RecordGuarded(s', y, id) {
      assert RecordGuarded(s, y, id);
    }
    if s.txns[y].stage.Inserting? && s.txns[y].stage.found {
      HeldCommitted(s, x, y, s.txns[y].stage.stmt.parent);
    }
  }

  lemma NotListed(p: Tables, a: nat)
    requires ListingsOf(p, a) == {}
    ensures forall id :: id in p.listings ==> p.listings[id].asset != a
  {
    forall id | id in p.listings ensures p.listings[id].asset != a {
      assert id in ListingsOf(p, p.listings[id].asset);
    }
  }

  lemma TouchCommitted(s: State, x: nat, y: nat, a: nat)
    requires x in s.txns && y in s.txns && x != y
    requires TouchGuarded(s, y, a) && TouchApart(s.txns[x].pending, s.txns[y].pending)
    ensures TouchGuarded(Committed(s, x), y, a)
  {
    if TouchesListing(s.txns[y], a) {
      NotListed(s.txns[x].pending, a);
      forall id | CommittedLive(Committed(s, x), id, a) ensures id in s.txns[y].pending.listings {
        assert CommittedLive(s, id, a);
      }
    }
  }

  lemma WaitingCommitted(s: State, x: nat, y: nat)
    requires x in s.txns && y in s.txns && x != y
    requires Apart(s.txns[x], s.txns[y]) && WaitingOk(s, y)
    requires Overlays(s.tables, s.txns[x].pending) && Overlays(s.tables, s.txns[y].pending)
    ensures WaitingOk(Committed(s, x), y)
  {
    if s.txns[y].stage.Waiting? {
      var l := s.txns[y].stage.listing;
      TogetherGrows(s.tables, s.txns[x].pending, s.txns[y].pending);
      BindsGrows(View(s, s.txns[y]), View(Committed(s, x), s.txns[y]), l.asset, l.vetting);
      hide Binds, Grows, Overlays, RowsApart, TouchApart;
    }
  }

  lemma ViewCommitted(s: State, x: nat, y: nat)
    requires Inv(s) && x in s.txns && y in s.txns && x != y && s.txns[x].owed == {}
    ensures ViewOk(Committed(s, x), s.txns[y])
  {
    hide Sound, KeysHold, Examined, Overlays, RowsApart, TouchApart, Guarded, TouchGuarded, WaitingOk, WaitingApart,
         NotesOk, TablesOk, LocksOk, Overlay;
    assert TxnOk(s, x) && TxnOk(s, y) && Apart(s.txns[x], s.txns[y]);
    var p, q := s.txns[x].pending, s.txns[y].pending;
    SoundTogether(s.tables, p, q);
    KeysTogether(s.tables, p, q, s.txns[y].owed);
    ExaminedTogether(s.tables, p, q, s.blind + s.txns[x].blind, s.blind + s.txns[y].blind,
                     s.blind + s.txns[x].blind + s.txns[y].blind);
  }

  lemma OthersCommitted(s: State, x: nat, y: nat)
    requires Inv(s) && x in s.txns && y in s.txns && x != y && s.txns[x].owed == {}
    ensures TxnOk(Committed(s, x), y)
  {
    hide ViewOk, Overlays, WaitingOk, RowsApart, TouchApart, Guarded, TouchGuarded, WaitingApart, TablesOk, LocksOk, NotesOk;
    var s' := Committed(s, x);
    assert TxnOk(s, x) && TxnOk(s, y) && Apart(s.txns[x], s.txns[y]);
    ViewCommitted(s, x, y);
    OverlaysOverlay(s.tables, s.txns[x].pending, s.txns[y].pending);
    WaitingCommitted(s, x, y);
    GuardsCommitted(s, x, y);
    forall a ensures TouchGuarded(s', y, a) {
      assert TouchGuarded(s, y, a);
      TouchCommitted(s, x, y, a);
    }
  }

  lemma NoPendingResult(p: Tables, id: nat)
    requires id !in Deferred(p)
    ensures id !in p.vettings && forall n: CheckName :: (id, n) !in p.results
  {
  }

  lemma ShapeUndisturbed(base: Tables, p: Tables, id: nat)
    requires ShapeOk(base, id) && id !in Deferred(p)
    ensures ShapeOk(Overlay(base, p), id)
  {
    hide Deferred;
    NoPendingResult(p, id);
  }

  lemma ShapesCommitted(s: State, x: nat)
    requires Inv(s) && x in s.txns && ShapesOk(s, s.txns[x])
    ensures ShapesSound(View(s, s.txns[x]))
  {
    hide ShapeOk, Sound, KeysHold, Examined, TxnOk, Apart, HasRow;
    forall id ensures ShapeOk(View(s, s.txns[x]), id) {
      if id !in Deferred(s.txns[x].pending) {
        ShapeUndisturbed(s.tables, s.txns[x].pending, id);
      }
    }
  }

  lemma RowsOverlaid(base: Tables, p: Tables, row: Row)
    requires Overlays(base, p) && (HasRow(base, row) || HasRow(p, row))
    ensures HasRow(Overlay(base, p), row)
  {
  }

  lemma TablesCommitted(s: State, x: nat)
    requires Inv(s) && x in s.txns && s.txns[x].owed == {} && ShapesOk(s, s.txns[x])
    ensures TablesOk(Committed(s, x))
  {
    hide ShapesSound, ShapesOk, Sound, KeysHold, Examined, Apart, Guarded, TouchGuarded, WaitingOk, Overlays, HasRow, LocksOk,
         Overlay;
    ShapesCommitted(s, x);
    assert TxnOk(s, x);
    forall row | row in Committed(s, x).blind ensures HasRow(Committed(s, x).tables, row) {
      RowsOverlaid(s.tables, s.txns[x].pending, row);
    }
  }

  lemma AssetsStay(s: State, x: nat)
    requires x in s.txns
    ensures s.tables.assets.Keys <= View(s, s.txns[x]).assets.Keys
  {
  }

  lemma CommitInv(s: State, x: nat)
    requires Inv(s) && x in s.txns && s.txns[x].owed == {} && ShapesOk(s, s.txns[x])
    ensures Inv(Committed(s, x))
  {
    hide Inv, TxnOk, TablesOk, ShapesOk, View;
    TablesCommitted(s, x);
    AssetsStay(s, x);
    forall y | y in s.txns && y != x ensures TxnOk(Committed(s, x), y) {
      OthersCommitted(s, x, y);
    }
    EndInv(s, x, View(s, s.txns[x]), s.blind + s.txns[x].blind);
  }

  /** Every step of every transaction keeps the committed tables and each view sound. */
  lemma StepInv(s: State, e: Event)
    requires Inv(s) && Enabled(s, e)
    ensures Inv(Step(s, e))
  {
    hide Inv, Ready, ShapesOk, Committed, Aborted;
    match e
    case Begin(x) => BeginInv(s, x);
    case Execute(x, stmt) => ExecuteInv(s, x, stmt);
    case InsertChild(x) => ChildInv(s, x);
    case InsertListing(x) => InsertInv(s, x);
    case CheckKey(x, row) => KeyInv(s, x, row);
    case Commit(x) =>
      if ShapesOk(s, s.txns[x]) {
        CommitInv(s, x);
      } else {
        AbortInv(s, x);
      }
    case Abort(x) => AbortInv(s, x);
  }
}
