/** What every interleaving of catalog transactions keeps. */
module CatalogInvariant {
  import opened CatalogTables

  // ---- soundness of a set of tables ----

  predicate SourceOk(row: Vetting) {
    row.source == CheckerOutput <==> row.kind == ConnectorContractTest
  }

  // A listing binds a passed vetting of the required kind and source for its own asset.
  predicate Binds(v: Tables, asset: nat, vetting: nat) {
    && asset in v.assets && vetting in v.vettings
    && v.vettings[vetting].asset == asset
    && v.vettings[vetting].passed
    && v.vettings[vetting].kind == RequiredVettingKind(v.assets[asset].kind)
    && v.vettings[vetting].source == RequiredSource(v.vettings[vetting].kind)
    && (v.assets[asset].kind == AgentBlueprint ==> v.vettings[vetting].reviewer != v.assets[asset].registeredBy)
    && (v.assets[asset].kind == Connector ==> ChildrenComplete(v, asset))
  }

  predicate ListingSound(v: Tables, id: nat) {
    id in v.listings ==> Binds(v, v.listings[id].asset, v.listings[id].vetting)
  }

  predicate OneLive(v: Tables) {
    forall i, j ::
      (i in v.listings && j in v.listings && v.listings[i].live && v.listings[j].live
       && v.listings[i].asset == v.listings[j].asset) ==> i == j
  }

  predicate OneIdentity(v: Tables) {
    forall a, b :: a in v.assets && b in v.assets && AssetIdentity(v.assets[a]) == AssetIdentity(v.assets[b]) ==> a == b
  }

  ghost predicate Sound(v: Tables) {
    && (forall id :: id in v.vettings ==> SourceOk(v.vettings[id]))
    && (forall id :: ListingSound(v, id))
    && OneLive(v) && OneIdentity(v)
  }

  // Every row that is not owed references a row that is there.
  ghost predicate KeysHold(v: Tables, owed: set<Row>) {
    forall row :: HasRow(v, row) ==> row in owed || Keyed(v, row)
  }

  // The trigger of the vetting saw its asset, and the children of a connector were complete.
  predicate SawComplete(v: Tables, id: nat)
    requires id in v.vettings
  {
    var a := v.vettings[id].asset;
    a in v.assets && (v.assets[a].kind == Connector ==> ChildrenComplete(v, a))
  }

  predicate ExaminedAt(v: Tables, blind: set<Row>, id: nat) {
    id in v.vettings && RecordRow(id, v.vettings[id].asset) !in blind ==> SawComplete(v, id)
  }

  ghost predicate Examined(v: Tables, blind: set<Row>) {
    forall id :: ExaminedAt(v, blind, id)
  }

  // ---- transactions ----

  // The transaction works on the asset: it holds its row lock, or the asset is its own.
  predicate Works(s: State, x: nat, asset: nat)
    requires x in s.txns
  {
    (asset in s.locks && s.locks[asset] == x) || asset in s.txns[x].pending.assets
  }

  // It works on the asset or shares its row.
  predicate Engaged(s: State, x: nat, asset: nat)
    requires x in s.txns
  {
    Works(s, x, asset) || (asset, x) in s.shares
  }

  predicate HoldsUnvetted(s: State, x: nat, asset: nat)
    requires x in s.txns
  {
    Works(s, x, asset) && !Vetted(s.tables, asset)
  }

  // A pending child row whose trigger saw its asset.
  predicate SeenChild(t: Txn, row: Row) {
    IsChild(row) && HasRow(t.pending, row) && row !in t.blind
  }

  predicate ChildGuarded(s: State, x: nat, row: Row)
    requires x in s.txns
  {
    SeenChild(s.txns[x], row) ==> HoldsUnvetted(s, x, row.asset)
  }

  predicate InsertingGuarded(s: State, x: nat)
    requires x in s.txns
  {
    s.txns[x].stage.Inserting? ==>
      IsInserting(s.txns[x]) && (s.txns[x].stage.found ==> HoldsUnvetted(s, x, s.txns[x].stage.stmt.parent))
  }

  predicate RecordGuarded(s: State, x: nat, id: nat)
    requires x in s.txns
  {
    var t := s.txns[x];
    id in t.pending.vettings ==>
      var row := RecordRow(id, t.pending.vettings[id].asset);
      (row !in t.blind ==> Works(s, x, row.asset)) && (row !in t.owed ==> Engaged(s, x, row.asset))
  }

  ghost predicate Guarded(s: State, x: nat)
    requires x in s.txns
  {
    && (forall row :: ChildGuarded(s, x, row))
    && (forall id :: RecordGuarded(s, x, id))
    && InsertingGuarded(s, x)
  }

  // Rows of its own are new; only a listing may overlay a committed one, and then it only delists it.
  ghost predicate Overlays(base: Tables, p: Tables) {
    && p.assets.Keys !! base.assets.Keys
    && p.vettings.Keys !! base.vettings.Keys
    && p.specs.Keys !! base.specs.Keys
    && p.scope !! base.scope
    && p.results.Keys !! base.results.Keys
    && (forall id :: id in p.listings && id in base.listings ==>
          p.listings[id] == base.listings[id].(live := false))
  }

  // What it owes or noted are rows of its own.
  predicate NotesOk(t: Txn) {
    (forall row :: row in t.owed ==> HasRow(t.pending, row)) && (forall row :: row in t.blind ==> HasRow(t.pending, row))
  }

  predicate WaitingOk(s: State, x: nat)
    requires x in s.txns
  {
    s.txns[x].stage.Waiting? ==>
      var l := s.txns[x].stage.listing;
      l.live && Binds(View(s, s.txns[x]), l.asset, l.vetting)
      && s.txns[x].stage.id !in s.tables.listings && s.txns[x].stage.id !in s.txns[x].pending.listings
  }

  predicate CommittedLive(s: State, id: nat, asset: nat) {
    id in s.tables.listings && s.tables.listings[id].live && s.tables.listings[id].asset == asset
  }

  // Having touched the listings of an asset, it has delisted every live one that is committed.
  ghost predicate TouchGuarded(s: State, x: nat, asset: nat)
    requires x in s.txns
  {
    TouchesListing(s.txns[x], asset) ==>
      forall id :: CommittedLive(s, id, asset) ==> id in s.txns[x].pending.listings
  }

  // What it sees is sound.
  ghost predicate ViewOk(s: State, t: Txn) {
    Sound(View(s, t)) && KeysHold(View(s, t), t.owed) && Examined(View(s, t), s.blind + t.blind)
  }

  ghost predicate TxnOk(s: State, x: nat)
    requires x in s.txns
  {
    && ViewOk(s, s.txns[x])
    && Overlays(s.tables, s.txns[x].pending)
    && NotesOk(s.txns[x])
    && Guarded(s, x)
    && (forall a :: TouchGuarded(s, x, a))
    && WaitingOk(s, x)
  }

  predicate IdentitiesApart(p: Tables, q: Tables) {
    forall a, b :: a in p.assets && b in q.assets ==> AssetIdentity(p.assets[a]) != AssetIdentity(q.assets[b])
  }

  ghost predicate RowsApart(p: Tables, q: Tables) {
    && p.assets.Keys !! q.assets.Keys && IdentitiesApart(p, q)
    && p.specs.Keys !! q.specs.Keys
    && p.scope !! q.scope
    && p.vettings.Keys !! q.vettings.Keys
    && p.listings.Keys !! q.listings.Keys
    && p.results.Keys !! q.results.Keys
  }

  ghost predicate TouchApart(p: Tables, q: Tables) {
    forall a :: ListingsOf(p, a) == {} || ListingsOf(q, a) == {}
  }

  predicate WaitingApart(t: Txn, u: Txn) {
    t.stage.Waiting? ==>
      t.stage.id !in u.pending.listings && (u.stage.Waiting? ==> t.stage.id != u.stage.id)
  }

  // Two transactions never have new rows under one key, nor pending listings of one asset.
  ghost predicate Apart(t: Txn, u: Txn) {
    && RowsApart(t.pending, u.pending) && TouchApart(t.pending, u.pending)
    && WaitingApart(t, u) && WaitingApart(u, t)
  }

  ghost predicate ShapesSound(v: Tables) {
    forall id :: ShapeOk(v, id)
  }

  // Row locks are on committed assets, by live transactions, and FOR UPDATE excludes the shares of others.
  predicate LocksOk(s: State) {
    && (forall a :: a in s.locks ==> a in s.tables.assets && s.locks[a] in s.txns)
    && (forall p :: p in s.shares ==> p.0 in s.tables.assets && p.1 in s.txns)
    && (forall p :: p in s.shares && p.0 in s.locks ==> s.locks[p.0] == p.1)
  }

  ghost predicate TablesOk(s: State) {
    && Sound(s.tables) && ShapesSound(s.tables) && KeysHold(s.tables, {}) && Examined(s.tables, s.blind)
    && (forall row :: row in s.blind ==> HasRow(s.tables, row))
  }

  ghost predicate Inv(s: State) {
    && TablesOk(s) && LocksOk(s)
    && (forall x :: x in s.txns ==> TxnOk(s, x))
    && (forall x, y :: x in s.txns && y in s.txns && x != y ==> Apart(s.txns[x], s.txns[y]))
  }

  /** A listing never names an asset that its writer does not see: with no key owed, the asset of a visible vetting is
      visible. */
  lemma VettedAssetIsVisible(s: State, x: nat, id: nat)
    requires Inv(s) && x in s.txns && s.txns[x].owed == {} && id in View(s, s.txns[x]).vettings
    ensures View(s, s.txns[x]).vettings[id].asset in View(s, s.txns[x]).assets
  {
    hide Sound, Examined, Overlays, NotesOk, Guarded, TouchGuarded, WaitingOk, Apart, TablesOk, LocksOk, View;
    assert TxnOk(s, x);
    var v := View(s, s.txns[x]);
    assert HasRow(v, RecordRow(id, v.vettings[id].asset));
  }

  // ---- soundness grows with the tables ----

  // The rows of v are still there in w; listings may have been delisted.
  ghost predicate Grows(v: Tables, w: Tables) {
    && (forall a :: a in v.assets ==> a in w.assets && w.assets[a] == v.assets[a])
    && (forall a :: a in v.specs ==> a in w.specs)
    && v.scope <= w.scope
    && (forall id :: id in v.vettings ==> id in w.vettings && w.vettings[id] == v.vettings[id])
  }

  lemma CompleteGrows(v: Tables, w: Tables, a: nat)
    requires Grows(v, w) && ChildrenComplete(v, a)
    ensures ChildrenComplete(w, a)
  {
  }

  lemma BindsGrows(v: Tables, w: Tables, asset: nat, vetting: nat)
    requires Grows(v, w) && Binds(v, asset, vetting)
    ensures Binds(w, asset, vetting)
  {
    if v.assets[asset].kind == Connector {
      CompleteGrows(v, w, asset);
    }
  }

  lemma ExaminedGrows(v: Tables, w: Tables, blind: set<Row>, more: set<Row>, id: nat)
    requires Grows(v, w) && ExaminedAt(v, blind, id) && blind <= more && id in v.vettings
    ensures ExaminedAt(w, more, id)
  {
    if RecordRow(id, v.vettings[id].asset) !in more && v.assets[v.vettings[id].asset].kind == Connector {
      CompleteGrows(v, w, v.vettings[id].asset);
    }
  }

  // Every row that is new in w is owed.
  lemma KeysGrow(v: Tables, w: Tables, owed: set<Row>, more: set<Row>)
    requires Grows(v, w) && KeysHold(v, owed) && owed <= more
    requires forall row :: HasRow(w, row) ==> HasRow(v, row) || row in more
    ensures KeysHold(w, more)
  {
    forall row | HasRow(w, row) ensures row in more || Keyed(w, row) {
      if HasRow(v, row) && row !in more {
        KeyedGrows(v, w, row);
      }
    }
  }

  lemma KeyedGrows(v: Tables, w: Tables, row: Row)
    requires Grows(v, w) && Keyed(v, row)
    ensures Keyed(w, row)
  {
  }

  // Listings come from a smaller sound table, perhaps delisted; assets and vettings are its own.
  lemma SoundFrom(v: Tables, w: Tables)
    requires Grows(v, w) && Sound(v)
    requires w.assets == v.assets && w.vettings == v.vettings
    requires forall id :: id in w.listings ==>
               id in v.listings && v.listings[id].asset == w.listings[id].asset
               && v.listings[id].vetting == w.listings[id].vetting && (w.listings[id].live ==> v.listings[id].live)
    ensures Sound(w)
  {
    forall id ensures ListingSound(w, id) {
      if id in w.listings {
        assert ListingSound(v, id);
        BindsGrows(v, w, v.listings[id].asset, v.listings[id].vetting);
      }
    }
  }

  lemma ListingsSoundGrow(v: Tables, w: Tables)
    requires Grows(v, w) && w.listings == v.listings
    requires forall id :: ListingSound(v, id)
    ensures forall id :: ListingSound(w, id)
  {
    forall id ensures ListingSound(w, id) {
      assert ListingSound(v, id);
      if id in v.listings {
        BindsGrows(v, w, v.listings[id].asset, v.listings[id].vetting);
      }
    }
  }

  lemma GuardBinds(v: Tables, asset: nat, vetting: nat)
    ensures ListingGuard(v, asset, vetting).None? <==> Binds(v, asset, vetting)
  {
  }

  predicate SameBinding(v: Tables, w: Tables, id: nat) {
    id in v.listings && id in w.listings
    && v.listings[id].asset == w.listings[id].asset && v.listings[id].vetting == w.listings[id].vetting
  }

  lemma ListingTogether(v: Tables, u: Tables, w: Tables, id: nat)
    requires Grows(v, w) && Grows(u, w)
    requires ListingSound(v, id) && ListingSound(u, id)
    requires id in w.listings ==> SameBinding(v, w, id) || SameBinding(u, w, id)
    ensures ListingSound(w, id)
  {
    if id in w.listings {
      if SameBinding(v, w, id) {
        BindsGrows(v, w, v.listings[id].asset, v.listings[id].vetting);
      } else {
        BindsGrows(u, w, u.listings[id].asset, u.listings[id].vetting);
      }
    }
  }

  lemma FirstGrows(base: Tables, p: Tables, q: Tables)
    requires Overlays(base, q) && RowsApart(p, q)
    ensures Grows(Overlay(base, p), Overlay(Overlay(base, p), q))
  {
  }

  lemma SecondGrows(base: Tables, p: Tables, q: Tables)
    requires Overlays(base, p) && RowsApart(p, q)
    ensures Grows(Overlay(base, q), Overlay(Overlay(base, p), q))
  {
  }

  lemma TogetherGrows(base: Tables, p: Tables, q: Tables)
    requires Overlays(base, p) && Overlays(base, q) && RowsApart(p, q)
    ensures Grows(Overlay(base, p), Overlay(Overlay(base, p), q))
    ensures Grows(Overlay(base, q), Overlay(Overlay(base, p), q))
  {
    hide Grows, Overlay;
    FirstGrows(base, p, q);
    SecondGrows(base, p, q);
  }

  // A row of both together is a row of one of them, and a vetting is the same there.
  lemma RowOfOne(base: Tables, p: Tables, q: Tables, row: Row)
    requires HasRow(Overlay(Overlay(base, p), q), row)
    ensures HasRow(Overlay(base, p), row) || HasRow(Overlay(base, q), row)
  {
  }

  lemma KeysTogether(base: Tables, p: Tables, q: Tables, owed: set<Row>)
    requires KeysHold(Overlay(base, p), {}) && KeysHold(Overlay(base, q), owed)
    requires Overlays(base, p) && Overlays(base, q) && RowsApart(p, q)
    ensures KeysHold(Overlay(Overlay(base, p), q), owed)
  {
    hide Grows, Overlays, RowsApart, HasRow, Keyed, Overlay;
    TogetherGrows(base, p, q);
    var v, u, w := Overlay(base, p), Overlay(base, q), Overlay(Overlay(base, p), q);
    forall row | HasRow(w, row) ensures row in owed || Keyed(w, row) {
      RowOfOne(base, p, q, row);
      if HasRow(v, row) {
        KeyedGrows(v, w, row);
      } else if row !in owed {
        KeyedGrows(u, w, row);
      }
    }
  }

  lemma VettingOfOne(base: Tables, p: Tables, q: Tables, id: nat)
    requires id in Overlay(Overlay(base, p), q).vettings
    ensures id in Overlay(base, p).vettings || id in Overlay(base, q).vettings
  {
  }

  lemma ExaminedTogether(base: Tables, p: Tables, q: Tables, b: set<Row>, c: set<Row>, all: set<Row>)
    requires Examined(Overlay(base, p), b) && Examined(Overlay(base, q), c) && b <= all && c <= all
    requires Overlays(base, p) && Overlays(base, q) && RowsApart(p, q)
    ensures Examined(Overlay(Overlay(base, p), q), all)
  {
    hide Grows, Overlays, RowsApart, Overlay, SawComplete;
    TogetherGrows(base, p, q);
    var v, u, w := Overlay(base, p), Overlay(base, q), Overlay(Overlay(base, p), q);
    forall id ensures ExaminedAt(w, all, id) {
      if id in w.vettings {
        VettingOfOne(base, p, q, id);
        if id in v.vettings {
          ExaminedGrows(v, w, b, all, id);
        } else {
          ExaminedGrows(u, w, c, all, id);
        }
      }
    }
  }

  lemma IdentityTogether(base: Tables, p: Tables, q: Tables)
    requires OneIdentity(Overlay(base, p)) && OneIdentity(Overlay(base, q))
    requires Overlays(base, p) && Overlays(base, q) && RowsApart(p, q)
    ensures OneIdentity(Overlay(Overlay(base, p), q))
  {
    var v, u, w := Overlay(base, p), Overlay(base, q), Overlay(Overlay(base, p), q);
    hide AssetIdentity;
    forall a, b | a in w.assets && b in w.assets && AssetIdentity(w.assets[a]) == AssetIdentity(w.assets[b])
      ensures a == b
    {
      assert a in v.assets && b in v.assets ==> a == b;
      assert a in u.assets && b in u.assets ==> a == b;
    }
  }

  lemma SourcesTogether(base: Tables, p: Tables, q: Tables)
    requires forall id :: id in Overlay(base, p).vettings ==> SourceOk(Overlay(base, p).vettings[id])
    requires forall id :: id in Overlay(base, q).vettings ==> SourceOk(Overlay(base, q).vettings[id])
    ensures forall id :: id in Overlay(Overlay(base, p), q).vettings ==> SourceOk(Overlay(Overlay(base, p), q).vettings[id])
  {
    var v, u, w := Overlay(base, p), Overlay(base, q), Overlay(Overlay(base, p), q);
    hide SourceOk;
    forall id | id in w.vettings ensures SourceOk(w.vettings[id]) {
      assert if id in q.vettings then id in u.vettings && w.vettings[id] == u.vettings[id]
             else id in v.vettings && w.vettings[id] == v.vettings[id];
    }
  }

  lemma SoundTogether(base: Tables, p: Tables, q: Tables)
    requires Sound(Overlay(base, p)) && Sound(Overlay(base, q))
    requires Overlays(base, p) && Overlays(base, q) && RowsApart(p, q) && TouchApart(p, q)
    ensures Sound(Overlay(Overlay(base, p), q))
  {
    var v, u := Overlay(base, p), Overlay(base, q);
    var w := Overlay(v, q);
    TogetherGrows(base, p, q);
    OneLiveTogether(base, p, q);
    IdentityTogether(base, p, q);
    SourcesTogether(base, p, q);
    hide Grows, RowsApart, TouchApart, OneLive, OneIdentity, SourceOk;
    forall id ensures ListingSound(w, id) {
      assert ListingSound(v, id) && ListingSound(u, id);
      hide ListingSound;
      ListingTogether(v, u, w, id);
    }
  }

  lemma SameListing(base: Tables, p: Tables, q: Tables, id: nat)
    requires id in Overlay(Overlay(base, p), q).listings
    ensures var w := Overlay(Overlay(base, p), q);
            if id in q.listings then w.listings[id] == Overlay(base, q).listings[id]
            else id in Overlay(base, p).listings && w.listings[id] == Overlay(base, p).listings[id]
    ensures id !in p.listings && id !in q.listings ==>
              id in base.listings && Overlay(Overlay(base, p), q).listings[id] == base.listings[id]
  {
  }

  // A listing of an asset one side does not touch is seen alike by the other side.
  lemma ListingOfUntouched(base: Tables, p: Tables, q: Tables, id: nat)
    requires Overlays(base, p) && Overlays(base, q) && RowsApart(p, q) && TouchApart(p, q)
    requires id in Overlay(Overlay(base, p), q).listings
    ensures var w := Overlay(Overlay(base, p), q);
            var a := w.listings[id].asset;
            && (ListingsOf(q, a) == {} ==> id in Overlay(base, p).listings && Overlay(base, p).listings[id] == w.listings[id])
            && (ListingsOf(p, a) == {} ==> id in Overlay(base, q).listings && Overlay(base, q).listings[id] == w.listings[id])
  {
    var a := Overlay(Overlay(base, p), q).listings[id].asset;
    SameListing(base, p, q, id);
    assert id in q.listings ==> id in ListingsOf(q, a);
    assert id in p.listings && id !in q.listings ==> id in ListingsOf(p, a);
  }

  lemma OneLiveTogether(base: Tables, p: Tables, q: Tables)
    requires OneLive(Overlay(base, p)) && OneLive(Overlay(base, q))
    requires Overlays(base, p) && Overlays(base, q) && RowsApart(p, q) && TouchApart(p, q)
    ensures OneLive(Overlay(Overlay(base, p), q))
  {
    var w := Overlay(Overlay(base, p), q);
    forall i, j | i in w.listings && j in w.listings && w.listings[i].live && w.listings[j].live
                  && w.listings[i].asset == w.listings[j].asset
      ensures i == j
    {
      ListingOfUntouched(base, p, q, i);
      ListingOfUntouched(base, p, q, j);
      hide Overlay, Overlays;
      assert ListingsOf(p, w.listings[i].asset) == {} || ListingsOf(q, w.listings[i].asset) == {};
    }
  }

  // ---- one transaction moves ----

  // The committed tables stay, x may take locks nobody else holds, and nobody loses a lock.
  ghost predicate OnlyTxn(s: State, s': State, x: nat) {
    && s'.tables == s.tables && s'.blind == s.blind
    && x in s'.txns && s'.txns == s.txns[x := s'.txns[x]]
    && (forall a :: a in s.locks ==> a in s'.locks && s'.locks[a] == s.locks[a])
    && s.shares <= s'.shares
    && LocksOk(s')
  }

  lemma SameGuards(s: State, s': State, y: nat)
    requires y in s.txns && Guarded(s, y)
    requires s'.tables == s.tables && y in s'.txns && s'.txns[y] == s.txns[y]
    requires forall a :: a in s.locks && s.locks[a] == y ==> a in s'.locks && s'.locks[a] == y
    requires forall a :: (a, y) in s.shares ==> (a, y) in s'.shares
    ensures Guarded(s', y)
  {
    hide Vetted, HasRow;
    forall row ensures ChildGuarded(s', y, row) {
      assert ChildGuarded(s, y, row);
    }
    forall id ensures RecordGuarded(s', y, id) {
      assert RecordGuarded(s, y, id);
    }
  }

  lemma OtherTxn(s: State, s': State, y: nat)
    requires y in s.txns && TxnOk(s, y)
    requires s'.tables == s.tables && s'.blind == s.blind && y in s'.txns && s'.txns[y] == s.txns[y]
    requires forall a :: a in s.locks && s.locks[a] == y ==> a in s'.locks && s'.locks[a] == y
    requires forall a :: (a, y) in s.shares ==> (a, y) in s'.shares
    ensures TxnOk(s', y)
  {
    hide Guarded, Sound, KeysHold, Examined, Overlays, NotesOk, Binds;
    SameGuards(s, s', y);
    forall a ensures TouchGuarded(s', y, a) {
      assert TouchGuarded(s, y, a);
    }
  }

  lemma LocalStep(s: State, s': State, x: nat)
    requires Inv(s) && OnlyTxn(s, s', x)
    requires TxnOk(s', x)
    requires forall y :: y in s.txns && y != x ==> Apart(s'.txns[x], s.txns[y])
    ensures Inv(s')
  {
    hide Sound, ShapesSound, KeysHold, Examined, TxnOk, Apart, HasRow;
    forall y | y in s'.txns ensures TxnOk(s', y) {
      if y != x {
        OtherTxn(s, s', y);
      }
    }
    StillApart(s, s', x);
  }

  lemma StillApart(s: State, s': State, x: nat)
    requires x in s'.txns && s'.txns == s.txns[x := s'.txns[x]]
    requires forall y, z :: y in s.txns && z in s.txns && y != z ==> Apart(s.txns[y], s.txns[z])
    requires forall y :: y in s.txns && y != x ==> Apart(s'.txns[x], s.txns[y])
    ensures forall y, z :: y in s'.txns && z in s'.txns && y != z ==> Apart(s'.txns[y], s'.txns[z])
  {
    hide Apart;
    forall y, z | y in s'.txns && z in s'.txns && y != z ensures Apart(s'.txns[y], s'.txns[z]) {
      if y == x {
        assert Apart(s'.txns[x], s.txns[z]);
      } else if z == x {
        ApartBothWays(s'.txns[x], s.txns[y]);
      } else {
        assert Apart(s.txns[y], s.txns[z]);
      }
    }
  }

  lemma ApartBothWays(t: Txn, u: Txn)
    requires Apart(t, u)
    ensures Apart(u, t)
  {
  }

  // Nothing about the pending rows is new.
  lemma SamePending(t: Txn, t': Txn, u: Txn)
    requires Apart(t, u) && t'.pending == t.pending && !t'.stage.Waiting?
    ensures Apart(t', u)
  {
  }

  lemma WorksAlone(s: State, x: nat, y: nat, a: nat)
    requires Inv(s) && x in s.txns && y in s.txns && x != y
    requires Works(s, x, a)
    ensures !Engaged(s, y, a)
  {
    hide ViewOk, NotesOk, Guarded, TouchGuarded, WaitingOk, TablesOk, TouchApart, WaitingApart, IdentitiesApart;
    assert Apart(s.txns[x], s.txns[y]);
    assert TxnOk(s, x) && TxnOk(s, y);
  }

  lemma ViewGrows(s: State, x: nat)
    requires x in s.txns && Overlays(s.tables, s.txns[x].pending)
    ensures Grows(s.tables, View(s, s.txns[x]))
    ensures forall a :: Vetted(s.tables, a) ==> Vetted(View(s, s.txns[x]), a)
  {
  }
}
