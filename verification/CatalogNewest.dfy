/** Whether the live listing of an asset is also its newest, by (created_at, id). */
module CatalogNewest {
  import opened CatalogTables
  import opened CatalogInvariant
  import opened CatalogCommit
  import opened CatalogSteps
  import opened CatalogRuns

  type Listings = map<nat, Listing>

  predicate Later(l: Listing, id: nat, m: Listing, other: nat) {
    l.stamp > m.stamp || (l.stamp == m.stamp && id > other)
  }

  // What `ORDER BY created_at DESC, id DESC LIMIT 1` returns for the asset of the listing.
  predicate IsLatest(v: Listings, id: nat) {
    id in v
    && forall j :: j in v && v[j].asset == v[id].asset && j != id ==> Later(v[id], id, v[j], j)
  }

  // Some listing of the same asset comes after the listing l that is, or would be, stored under id.
  predicate HasLater(v: Listings, id: nat, l: Listing) {
    exists j :: j in v && v[j].asset == l.asset && j != id && Later(v[j], j, l, id)
  }

  lemma LatestOrLater(v: Listings, id: nat)
    requires id in v
    ensures IsLatest(v, id) <==> !HasLater(v, id, v[id])
  {
  }

  // The step stores the listing id.
  predicate Stores(s: State, e: Event, id: nat) {
    && e.InsertListing? && e.txn in s.txns && s.txns[e.txn].stage.Waiting?
    && s.txns[e.txn].stage.id == id && !HasLive(View(s, s.txns[e.txn]), s.txns[e.txn].stage.listing.asset)
  }

  // The row about to be stored was stamped before one its transaction already sees.
  predicate Overtaken(s: State, e: Event, id: nat)
    requires Stores(s, e, id)
  {
    HasLater(View(s, s.txns[e.txn]).listings, id, s.txns[e.txn].stage.listing)
  }

  // The listing was overtaken when it was stored; an aborted id may be stored again.
  predicate WasOvertaken(run: Run, n: nat, id: nat)
    requires run.Valid() && n <= |run.events|
  {
    n > 0 &&
    if Stores(run.states[n - 1], run.events[n - 1], id) then Overtaken(run.states[n - 1], run.events[n - 1], id)
    else WasOvertaken(run, n - 1, id)
  }

  // A live listing is the latest of its asset, unless it was overtaken; then there is a later one.
  predicate OrderedAt(late: bool, v: Listings, id: nat) {
    id in v ==> if late then HasLater(v, id, v[id]) else v[id].live ==> IsLatest(v, id)
  }

  ghost predicate Ordered(run: Run, n: nat, v: Listings)
    requires run.Valid() && n <= |run.events|
  {
    forall id :: OrderedAt(WasOvertaken(run, n, id), v, id)
  }

  ghost predicate AllOrdered(run: Run, n: nat)
    requires run.Valid() && n <= |run.events|
  {
    && Ordered(run, n, run.states[n].tables.listings)
    && forall x :: x in run.states[n].txns ==> Ordered(run, n, View(run.states[n], run.states[n].txns[x]).listings)
  }

  // ---- one listing at a time ----

  lemma DelistOrdered(late: bool, v: Listings, id: nat, i: nat)
    requires id in v && OrderedAt(late, v, i)
    ensures OrderedAt(late, v[id := v[id].(live := false)], i)
  {
    var w := v[id := v[id].(live := false)];
    if i in v && late {
      var j :| j in v && v[j].asset == v[i].asset && j != i && Later(v[j], j, v[i], i);
      assert j in w && w[j].asset == w[i].asset && Later(w[j], j, w[i], i);
    }
  }

  lemma StoreOrdered(v: Listings, id: nat, l: Listing)
    requires id !in v
    ensures OrderedAt(HasLater(v, id, l), v[id := l], id)
  {
    var w := v[id := l];
    LatestOrLater(w, id);
    if HasLater(v, id, l) {
      var j :| j in v && v[j].asset == l.asset && j != id && Later(v[j], j, l, id);
      assert j in w && w[j].asset == w[id].asset && Later(w[j], j, w[id], id);
    }
  }

  lemma StoreBesideOrdered(late: bool, v: Listings, id: nat, l: Listing, i: nat)
    requires id !in v && i != id && OrderedAt(late, v, i)
    requires forall j :: j in v && v[j].asset == l.asset ==> !v[j].live
    ensures OrderedAt(late, v[id := l], i)
  {
    var w := v[id := l];
    if i in v && late {
      var j :| j in v && v[j].asset == v[i].asset && j != i && Later(v[j], j, v[i], i);
      assert j in w && w[j].asset == w[i].asset && Later(w[j], j, w[i], i);
    }
  }

  // Two tables with the same listings of one asset order them alike.
  predicate SameFor(v: Listings, w: Listings, a: nat) {
    && (forall j :: j in v && v[j].asset == a ==> j in w && w[j] == v[j])
    && (forall j :: j in w && w[j].asset == a ==> j in v && v[j] == w[j])
  }

  lemma OrderedAlike(late: bool, v: Listings, w: Listings, id: nat)
    requires id in w && SameFor(v, w, w[id].asset) && OrderedAt(late, v, id)
    ensures OrderedAt(late, w, id)
  {
  }

  lemma UntouchedFirst(base: Tables, p: Tables, q: Tables, a: nat)
    requires Overlays(base, q) && RowsApart(p, q) && ListingsOf(q, a) == {}
    ensures SameFor(Overlay(base, p).listings, Overlay(Overlay(base, p), q).listings, a)
  {
    hide IdentitiesApart;
    NotListed(q, a);
  }

  lemma UntouchedSecond(base: Tables, p: Tables, q: Tables, a: nat)
    requires Overlays(base, p) && RowsApart(p, q) && ListingsOf(p, a) == {}
    ensures SameFor(Overlay(base, q).listings, Overlay(Overlay(base, p), q).listings, a)
  {
    hide IdentitiesApart;
    NotListed(p, a);
  }

  lemma CommitOrdered(late: bool, base: Tables, p: Tables, q: Tables, id: nat)
    requires Overlays(base, p) && Overlays(base, q) && RowsApart(p, q) && TouchApart(p, q)
    requires OrderedAt(late, Overlay(base, p).listings, id) && OrderedAt(late, Overlay(base, q).listings, id)
    ensures OrderedAt(late, Overlay(Overlay(base, p), q).listings, id)
  {
    hide Overlays, RowsApart, Overlay, OrderedAt;
    var w := Overlay(Overlay(base, p), q).listings;
    if id in w {
      var a := w[id].asset;
      if ListingsOf(q, a) == {} {
        UntouchedFirst(base, p, q, a);
        OrderedAlike(late, Overlay(base, p).listings, w, id);
      } else {
        UntouchedSecond(base, p, q, a);
        OrderedAlike(late, Overlay(base, q).listings, w, id);
      }
    } else {
      Unlisted(late, w, id);
    }
  }

  lemma Unlisted(late: bool, v: Listings, id: nat)
    requires id !in v
    ensures OrderedAt(late, v, id)
  {
  }

  // ---- one step at a time ----

  lemma OtherStatements(s: State, t: Txn, stmt: Stmt)
    requires !stmt.Delist?
    ensures Effect(s, t, stmt).pending.listings == t.pending.listings
  {
    hide VettingGuard, ListingGuard, ChildGuard, HasIdentity, View;
  }

  lemma DelistedListings(s: State, t: Txn, id: nat)
    ensures var v, w := View(s, t).listings, View(s, Effect(s, t, Delist(id))).listings;
            w == v || (id in v && w == v[id := v[id].(live := false)])
  {
    var v := View(s, t);
    if id in v.listings {
      OverlayUpdate(s.tables.listings, t.pending.listings, id, v.listings[id].(live := false));
    }
  }

  // Only delisting changes the listings a transaction sees while it runs a statement.
  lemma StatementListings(s: State, x: nat, stmt: Stmt)
    requires x in s.txns
    ensures var v, w := View(s, s.txns[x]).listings, View(s, Effect(s, s.txns[x], stmt)).listings;
            w == v || (stmt.Delist? && stmt.id in v && w == v[stmt.id := v[stmt.id].(live := false)])
  {
    hide Effect;
    if stmt.Delist? {
      DelistedListings(s, s.txns[x], stmt.id);
    } else {
      OtherStatements(s, s.txns[x], stmt);
    }
  }

  lemma StatementOrdered(late: bool, s: State, x: nat, stmt: Stmt, id: nat)
    requires x in s.txns && OrderedAt(late, View(s, s.txns[x]).listings, id)
    ensures OrderedAt(late, View(s, Effect(s, s.txns[x], stmt)).listings, id)
  {
    hide Effect, View, OrderedAt;
    StatementListings(s, x, stmt);
    var v := View(s, s.txns[x]).listings;
    if stmt.Delist? && stmt.id in v {
      DelistOrdered(late, v, stmt.id, id);
    }
  }

  lemma InsertOrdered(late: bool, s: State, x: nat, id: nat)
    requires x in s.txns && s.txns[x].stage.Waiting? && TxnOk(s, x)
    requires OrderedAt(late, View(s, s.txns[x]).listings, id)
    ensures var e := InsertListing(x);
            OrderedAt(if Stores(s, e, id) then Overtaken(s, e, id) else late,
                      View(s, Inserted(s, s.txns[x])).listings, id)
  {
    hide OrderedAt, TxnOk, HasLater;
    var t := s.txns[x];
    if !HasLive(View(s, t), t.stage.listing.asset) {
      InsertView(s, x);
      if id == t.stage.id {
        StoreOrdered(View(s, t).listings, id, t.stage.listing);
      } else {
        StoreBesideOrdered(late, View(s, t).listings, t.stage.id, t.stage.listing, id);
      }
    }
  }

  // A listing that is being stored is not yet in anybody else's tables.
  lemma StoredIsNew(s: State, e: Event, id: nat, y: nat)
    requires Inv(s) && Stores(s, e, id)
    ensures e.InsertListing? && id !in s.tables.listings
    ensures y in s.txns && y != e.txn ==> id !in View(s, s.txns[y]).listings
  {
    hide Sound, ShapesSound, KeysHold, Examined, RowsApart, TouchApart, Overlays, HasRow;
    assert TxnOk(s, e.txn);
    if y in s.txns && y != e.txn {
      assert Apart(s.txns[e.txn], s.txns[y]);
    }
  }

  lemma ViewOrdered(run: Run, n: nat, y: nat, id: nat)
    requires run.Valid() && n < |run.events| && Inv(run.states[n]) && AllOrdered(run, n)
    requires y in run.states[n + 1].txns
    ensures OrderedAt(WasOvertaken(run, n + 1, id), View(run.states[n + 1], run.states[n + 1].txns[y]).listings, id)
  {
    hide OrderedAt, Sound, ShapesSound, Stores, Overtaken, Overlays, RowsApart, TouchApart, Overlay, Effect, Inserted, ShapesOk;
    var s, e, s' := run.states[n], run.events[n], run.states[n + 1];
    var late := WasOvertaken(run, n, id);
    if e.txn != y {
      assert OrderedAt(late, View(s, s.txns[y]).listings, id);
      if Stores(s, e, id) {
        StoredIsNew(s, e, id, y);
        assert View(s', s'.txns[y]) == View(s, s.txns[y]);
        Unlisted(WasOvertaken(run, n + 1, id), View(s', s'.txns[y]).listings, id);
      } else if e.Commit? && ShapesOk(s, s.txns[e.txn]) {
        assert TxnOk(s, e.txn) && TxnOk(s, y) && Apart(s.txns[e.txn], s.txns[y]);
        assert OrderedAt(late, View(s, s.txns[e.txn]).listings, id);
        CommitOrdered(late, s.tables, s.txns[e.txn].pending, s.txns[y].pending, id);
      }
    } else {
      OwnViewOrdered(run, n, id);
    }
  }

  lemma NotStores(s: State, e: Event, id: nat)
    requires !e.InsertListing?
    ensures !Stores(s, e, id)
  {
  }

  // Child rows and foreign keys leave the listings alone.
  lemma QuietListings(s: State, e: Event)
    requires Enabled(s, e) && (e.InsertChild? || e.CheckKey?)
    ensures e.txn in s.txns && e.txn in Step(s, e).txns
    ensures View(Step(s, e), Step(s, e).txns[e.txn]).listings == View(s, s.txns[e.txn]).listings
  {
    hide HasRow, Keyed;
  }

  lemma OwnViewOrdered(run: Run, n: nat, id: nat)
    requires run.Valid() && n < |run.events| && Inv(run.states[n]) && AllOrdered(run, n)
    requires run.events[n].txn in run.states[n + 1].txns
    ensures var s' := run.states[n + 1];
            OrderedAt(WasOvertaken(run, n + 1, id), View(s', s'.txns[run.events[n].txn]).listings, id)
  {
    hide OrderedAt, Sound, ShapesSound, Stores, Overtaken, Overlay, Effect, Inserted, ShapesOk, Apart, TxnOk, Ready;
    var s, e, s' := run.states[n], run.events[n], run.states[n + 1];
    var x, late := e.txn, WasOvertaken(run, n, id);
    if e.Begin? {
      NotStores(s, e, id);
      OpenedView(s);
      assert View(s', s'.txns[x]) == View(s, s'.txns[x]);
    } else if e.Execute? {
      NotStores(s, e, id);
      assert OrderedAt(late, View(s, s.txns[x]).listings, id);
      StatementOrdered(late, s, x, e.stmt, id);
      assert View(s', s'.txns[x]) == View(s, s'.txns[x]);
    } else if e.InsertChild? || e.CheckKey? {
      NotStores(s, e, id);
      assert OrderedAt(late, View(s, s.txns[x]).listings, id);
      QuietListings(s, e);
    } else if e.InsertListing? {
      assert TxnOk(s, x);
      assert OrderedAt(late, View(s, s.txns[x]).listings, id);
      InsertOrdered(late, s, x, id);
      assert View(s', s'.txns[x]) == View(s, s'.txns[x]);
    }
  }

  lemma TablesOrdered(run: Run, n: nat, id: nat)
    requires run.Valid() && n < |run.events| && Inv(run.states[n]) && AllOrdered(run, n)
    ensures OrderedAt(WasOvertaken(run, n + 1, id), run.states[n + 1].tables.listings, id)
  {
    hide OrderedAt, Stores, Overtaken, ShapesOk, Inv, Effect, Inserted, Overlay;
    var s, e := run.states[n], run.events[n];
    assert OrderedAt(WasOvertaken(run, n, id), s.tables.listings, id);
    if Stores(s, e, id) {
      StoredIsNew(s, e, id, e.txn);
      Unlisted(WasOvertaken(run, n + 1, id), s.tables.listings, id);
    } else if e.Commit? && ShapesOk(s, s.txns[e.txn]) {
      assert OrderedAt(WasOvertaken(run, n, id), View(s, s.txns[e.txn]).listings, id);
    }
  }

  lemma {:induction false} RunOrdered(run: Run, n: nat)
    requires run.Valid() && n <= |run.events|
    ensures AllOrdered(run, n)
  {
    hide Inv, Step, OrderedAt, WasOvertaken, View;
    if n == 0 {
      assert run.states[0].tables.listings == map[];
      forall id ensures OrderedAt(WasOvertaken(run, 0, id), run.states[0].tables.listings, id) {
        Unlisted(WasOvertaken(run, 0, id), run.states[0].tables.listings, id);
      }
    } else {
      RunInv(run, n - 1);
      RunOrdered(run, n - 1);
      forall id ensures OrderedAt(WasOvertaken(run, n, id), run.states[n].tables.listings, id) {
        TablesOrdered(run, n - 1, id);
      }
      forall x, id | x in run.states[n].txns
        ensures OrderedAt(WasOvertaken(run, n, id), View(run.states[n], run.states[n].txns[x]).listings, id)
      {
        ViewOrdered(run, n - 1, x, id);
      }
    }
  }

  /** The live listing of an asset is its newest, by stamp and then by id, if and only if it was not overtaken: when
      its row, stamped before it waited for the unique index, was stored, its transaction saw no later one. */
  lemma LiveIsNewestIffNotOvertaken(run: Run, n: nat, id: nat)
    requires run.Valid() && n <= |run.events|
    requires id in run.states[n].tables.listings && run.states[n].tables.listings[id].live
    ensures var v := run.states[n].tables.listings;
            (forall j :: j in v && v[j].asset == v[id].asset && j != id ==>
               v[j].stamp < v[id].stamp || (v[j].stamp == v[id].stamp && j < id))
            <==> !WasOvertaken(run, n, id)
  {
    hide WasOvertaken;
    RunOrdered(run, n);
    var v := run.states[n].tables.listings;
    assert OrderedAt(WasOvertaken(run, n, id), v, id);
    LatestOrLater(v, id);
  }

  // ---- a row stored without waiting ----

  ghost predicate StampsBelow(v: Listings, clock: nat) {
    forall id :: id in v ==> v[id].stamp < clock
  }

  ghost predicate TxnStamps(s: State, t: Txn) {
    StampsBelow(t.pending.listings, s.clock) && (t.stage.Waiting? ==> t.stage.listing.stamp < s.clock)
  }

  ghost predicate Stamped(s: State) {
    StampsBelow(s.tables.listings, s.clock) && forall x :: x in s.txns ==> TxnStamps(s, s.txns[x])
  }

  lemma EffectStamps(s: State, t: Txn, stmt: Stmt)
    requires TxnStamps(s, t) && StampsBelow(s.tables.listings, s.clock)
    ensures TxnStamps(s.(clock := s.clock + 1), Effect(s, t, stmt))
  {
    hide VettingGuard, ListingGuard, ChildGuard;
  }

  lemma StepStamped(s: State, e: Event)
    requires Stamped(s) && Enabled(s, e)
    ensures Stamped(Step(s, e))
  {
    hide Effect, ShapesOk, Ready;
    if e.Execute? {
      EffectStamps(s, s.txns[e.txn], e.stmt);
    }
  }

  lemma {:induction false} RunStamped(run: Run, n: nat)
    requires run.Valid() && n <= |run.events|
    ensures Stamped(run.states[n])
  {
    hide Step, Enabled;
    if n > 0 {
      RunStamped(run, n - 1);
      StepStamped(run.states[n - 1], run.events[n - 1]);
    }
  }

  lemma JustFormed(s: State, x: nat, stmt: Stmt)
    requires Stamped(s) && Enabled(s, Execute(x, stmt))
    ensures var s' := Step(s, Execute(x, stmt)); var t' := s'.txns[x];
            t'.stage.Waiting? ==> !HasLater(View(s', t').listings, t'.stage.id, t'.stage.listing)
  {
    hide VettingGuard, ListingGuard, ChildGuard, Ready;
    assert TxnStamps(s, s.txns[x]);
  }

  // Nobody's commit brings in a listing of an asset it did not touch.
  lemma NothingLater(base: Tables, p: Tables, q: Tables, id: nat, l: Listing)
    requires ListingsOf(p, l.asset) == {} && !HasLater(Overlay(base, q).listings, id, l)
    ensures !HasLater(Overlay(Overlay(base, p), q).listings, id, l)
  {
    hide Later;
    var v, w := Overlay(base, q).listings, Overlay(Overlay(base, p), q).listings;
    NotListed(p, l.asset);
    forall j | j in w && w[j].asset == l.asset && j != id ensures !Later(w[j], j, l, id) {
      assert j in v && v[j] == w[j];
    }
  }

  // The row of x is formed, could be stored at once, and x sees no later listing.
  predicate Ahead(s: State, x: nat, t: Txn) {
    x in s.txns && s.txns[x] == t && t.stage.Waiting? && !HasLater(View(s, t).listings, t.stage.id, t.stage.listing)
  }

  lemma OthersStep(s: State, e: Event, x: nat, t: Txn)
    requires Enabled(s, e) && e.txn != x && Ahead(s, x, t) && Enabled(s, InsertListing(x))
    ensures Ahead(Step(s, e), x, t)
  {
    hide HasLater, Effect, Ready, ChildInserted, Inserted, KeyChecked, ShapesOk, HasRow, Overlay, SameStatement;
    if e.Commit? && ShapesOk(s, s.txns[e.txn]) {
      NothingLater(s.tables, s.txns[e.txn].pending, t.pending, t.stage.id, t.stage.listing);
    }
  }

  // A transaction that can store its row does nothing else and stays able to.
  lemma OwnStep(s: State, e: Event)
    requires Enabled(s, e) && Enabled(s, InsertListing(e.txn))
    ensures !Enabled(Step(s, e), InsertListing(e.txn))
  {
    hide HasLive, TouchesListing;
  }

  lemma {:induction false} StaysAhead(run: Run, m: nat, n: nat, x: nat, t: Txn)
    requires run.Valid() && m <= n <= |run.events| && Ahead(run.states[m], x, t)
    requires forall k :: m <= k <= n ==> Enabled(run.states[k], InsertListing(x))
    ensures Ahead(run.states[n], x, t)
  {
    hide Step, Enabled, Ahead;
    if m < n {
      StaysAhead(run, m, n - 1, x, t);
      if run.events[n - 1].txn == x {
        OwnStep(run.states[n - 1], run.events[n - 1]);
      } else {
        OthersStep(run.states[n - 1], run.events[n - 1], x, t);
      }
    }
  }

  /** A listing whose row never waited, for from its forming to its storing nobody else had touched a listing of the
      asset, is not overtaken. */
  lemma NeverWaitedIsNotOvertaken(run: Run, m: nat, n: nat, id: nat)
    requires run.Valid() && m < n < |run.events|
    requires Stores(run.states[n], run.events[n], id)
    requires run.events[m].Execute? && run.events[m].stmt.AddListing? && run.events[m].txn == run.events[n].txn
    requires forall k :: m < k <= n ==> Enabled(run.states[k], InsertListing(run.events[n].txn))
    ensures !WasOvertaken(run, n + 1, id)
  {
    hide Effect, Step, Stamped, HasLater, Ready;
    var x := run.events[n].txn;
    RunStamped(run, m);
    JustFormed(run.states[m], x, run.events[m].stmt);
    assert Enabled(run.states[m + 1], InsertListing(x));
    StaysAhead(run, m + 1, n, x, run.states[m + 1].txns[x]);
  }
}
