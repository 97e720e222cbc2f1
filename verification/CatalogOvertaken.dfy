/** A run after which the live listing of an asset is not its newest: its row waited for the unique index while a
    later-stamped listing was stored, delisted and committed. */
module CatalogOvertaken {
  import opened CatalogTables
  import opened CatalogRuns
  import opened CatalogNewest

  const INTAKE := Asset(ReferenceIntake, "shop", "1", "populate", IntakeTail("retail", "d", "f"))
  const ATTESTED := Vetting(10, ReferenceIntakeConstraintAttestation, ReviewerAsserted, true, "attestor")

  // A listing of the asset, stamped at the given time.
  function Listed(live: bool, stamp: nat): Listing {
    Listing(10, 11, live, stamp)
  }

  function Catalog(l: map<nat, Listing>): Tables {
    Tables(map[10 := INTAKE], map[], {}, map[11 := ATTESTED], map[], l)
  }

  function Own(l: map<nat, Listing>): Tables {
    EMPTY.(listings := l)
  }

  function At(tables: Tables, txns: map<nat, Txn>, clock: nat): State {
    State(tables, txns, map[], {}, {}, clock)
  }

  // A transaction that owes nothing.
  function Plain(stage: Stage, pending: Tables): Txn {
    Txn(stage, pending, {}, {})
  }

  // Only transaction x moves.
  predicate Moves(s: State, s': State, x: nat, t: Txn, clock: nat) {
    s' == State(s.tables, s'.txns, s.locks, s.shares, s.blind, clock) && s'.txns == s.txns[x := t]
  }

  // ---- the steps ----

  lemma Opens(s: State, x: nat, s': State)
    requires x !in s.txns && Moves(s, s', x, NEW_TXN, s.clock)
    ensures Leads(s, Begin(x), s')
  {
  }

  lemma Registers()
    ensures Leads(At(EMPTY, map[0 := NEW_TXN], 0), Execute(0, AddAsset(10, INTAKE)),
                  At(EMPTY, map[0 := Plain(Open, EMPTY.(assets := map[10 := INTAKE]))], 1))
  {
  }

  lemma Attests()
    ensures Leads(At(EMPTY, map[0 := Plain(Open, EMPTY.(assets := map[10 := INTAKE]))], 1),
                  Execute(0, AddVetting(11, ATTESTED)),
                  At(EMPTY, map[0 := Txn(Open, Catalog(map[]), {RecordRow(11, 10)}, {})], 2))
  {
    assert {} + {RecordRow(11, 10)} == {RecordRow(11, 10)};
  }

  lemma ChecksAsset()
    ensures Leads(At(EMPTY, map[0 := Txn(Open, Catalog(map[]), {RecordRow(11, 10)}, {})], 2),
                  CheckKey(0, RecordRow(11, 10)), At(EMPTY, map[0 := Plain(Open, Catalog(map[]))], 2))
  {
    assert {RecordRow(11, 10)} - {RecordRow(11, 10)} == {};
    assert Overlay(EMPTY, Catalog(map[])).assets == map[10 := INTAKE];
  }

  // A listing row is formed; its transaction sees the asset and its vetting.
  lemma Forms(s: State, x: nat, id: nat, s': State)
    requires x in s.txns && s.txns[x].stage.Open? && s.txns[x].owed == {} && Fresh(s, id)
    requires 10 in View(s, s.txns[x]).assets && View(s, s.txns[x]).assets[10] == INTAKE
    requires 11 in View(s, s.txns[x]).vettings && View(s, s.txns[x]).vettings[11] == ATTESTED
    requires Moves(s, s', x, s.txns[x].(stage := Waiting(id, Listed(true, s.clock))), s.clock + 1)
    ensures Leads(s, Execute(x, AddListing(id, 10, 11)), s')
  {
    hide Fresh, ChildGuard, VettingGuard, ShapesOk, Inserted, ChildrenComplete, TouchesListing, Release;
  }

  lemma Stored(s: State, x: nat, id: nat, stamp: nat, l: map<nat, Listing>, s': State)
    requires x in s.txns && s.txns[x].stage == Waiting(id, Listed(true, stamp))
    requires forall y :: y in s.txns && y != x ==> s.txns[y].pending.listings == map[]
    requires forall i :: i in View(s, s.txns[x]).listings ==> !View(s, s.txns[x]).listings[i].live
    requires l == s.txns[x].pending.listings[id := Listed(true, stamp)]
    requires Moves(s, s', x, s.txns[x].(stage := Open, pending := s.txns[x].pending.(listings := l)), s.clock)
    ensures Leads(s, InsertListing(x), s')
  {
  }

  lemma Delists(s: State, x: nat, id: nat, stamp: nat, l: map<nat, Listing>, s': State)
    requires x in s.txns && s.txns[x].stage.Open? && s.txns[x].owed == {}
    requires id in View(s, s.txns[x]).listings && View(s, s.txns[x]).listings[id] == Listed(true, stamp)
    requires forall y :: y in s.txns && y != x ==> s.txns[y].pending.listings == map[]
    requires l == s.txns[x].pending.listings[id := Listed(false, stamp)]
    requires Moves(s, s', x, s.txns[x].(stage := Open, pending := s.txns[x].pending.(listings := l)), s.clock + 1)
    ensures Leads(s, Execute(x, Delist(id)), s')
  {
  }

  lemma Commits(s: State, x: nat, l: map<nat, Listing>, s': State)
    requires x in s.txns && s.txns[x] == Plain(Open, s.txns[x].pending) && s == At(s.tables, s.txns, s.clock)
    requires View(s, s.txns[x]) == Catalog(l) && s.txns[x].pending.results == map[]
    requires s' == At(Catalog(l), s'.txns, s.clock) && s'.txns == s.txns - {x}
    ensures Leads(s, Commit(x), s')
  {
    assert Release(s.locks, x) == map[] && Unshare(s.shares, x) == {} && s.blind + {} == s.blind;
    assert forall id :: id in s.txns[x].pending.vettings ==> id in View(s, s.txns[x]).vettings;
  }

  // ---- the run ----

  // The asset is registered and attested.
  lemma Attested() returns (run: Run)
    ensures run.Valid() && run.states[|run.events|] == At(EMPTY, map[0 := Plain(Open, Catalog(map[]))], 2)
  {
    hide Leads;
    var s0 := At(EMPTY, map[], 0);
    var s1 := At(EMPTY, map[0 := NEW_TXN], 0);
    run := Run([s0], []);
    Opens(s0, 0, s1);
    run := Extends(run, Begin(0), s1);
    Registers();
    run := Extends(run, Execute(0, AddAsset(10, INTAKE)),
                   At(EMPTY, map[0 := Plain(Open, EMPTY.(assets := map[10 := INTAKE]))], 1));
    Attests();
    run := Extends(run, Execute(0, AddVetting(11, ATTESTED)),
                   At(EMPTY, map[0 := Txn(Open, Catalog(map[]), {RecordRow(11, 10)}, {})], 2));
    ChecksAsset();
    run := Extends(run, CheckKey(0, RecordRow(11, 10)), At(EMPTY, map[0 := Plain(Open, Catalog(map[]))], 2));
  }

  const FIRST := map[12 := Listed(true, 2)]

  // It is listed.
  lemma FirstListing() returns (run: Run)
    ensures run.Valid() && run.states[|run.events|] == At(Catalog(FIRST), map[], 3)
  {
    hide Leads;
    run := Attested();
    var s0 := run.states[|run.events|];
    var s1 := At(EMPTY, map[0 := Plain(Waiting(12, Listed(true, 2)), Catalog(map[]))], 3);
    var s2 := At(EMPTY, map[0 := Plain(Open, Catalog(FIRST))], 3);
    Forms(s0, 0, 12, s1);
    run := Extends(run, Execute(0, AddListing(12, 10, 11)), s1);
    Stored(s1, 0, 12, 2, FIRST, s2);
    run := Extends(run, InsertListing(0), s2);
    Commits(s2, 0, FIRST, At(Catalog(FIRST), map[], 3));
    run := Extends(run, Commit(0), At(Catalog(FIRST), map[], 3));
  }

  const GONE := map[12 := Listed(false, 2)]
  const BEHIND := Plain(Waiting(14, Listed(true, 4)), EMPTY)

  // Transaction 1 delists it, and transaction 2 waits to list the asset again.
  lemma SecondWaits() returns (run: Run)
    ensures run.Valid()
    ensures run.states[|run.events|] == At(Catalog(FIRST), map[1 := Plain(Open, Own(GONE)), 2 := BEHIND], 5)
  {
    hide Leads;
    run := FirstListing();
    var s0 := run.states[|run.events|];
    var s1 := s0.(txns := map[1 := NEW_TXN]);
    var s2 := At(s0.tables, map[1 := Plain(Open, Own(GONE))], 4);
    var s3 := s2.(txns := map[1 := Plain(Open, Own(GONE)), 2 := NEW_TXN]);
    var s4 := At(s0.tables, map[1 := Plain(Open, Own(GONE)), 2 := BEHIND], 5);
    Opens(s0, 1, s1);
    run := Extends(run, Begin(1), s1);
    Delists(s1, 1, 12, 2, GONE, s2);
    run := Extends(run, Execute(1, Delist(12)), s2);
    Opens(s2, 2, s3);
    run := Extends(run, Begin(2), s3);
    Forms(s3, 2, 14, s4);
    run := Extends(run, Execute(2, AddListing(14, 10, 11)), s4);
  }

  const BOTH := map[12 := Listed(false, 2), 13 := Listed(false, 5)]

  const RELISTED := map[12 := Listed(false, 2), 13 := Listed(true, 5)]

  // Transaction 1, with the given pending listings, beside the waiting transaction 2.
  function Race(stage: Stage, l: map<nat, Listing>, clock: nat): State {
    At(Catalog(FIRST), map[1 := Plain(stage, Own(l)), 2 := BEHIND], clock)
  }

  lemma Free13()
    ensures Fresh(Race(Open, GONE, 5), 13)
    ensures var s := Race(Open, GONE, 5);
            var v := View(s, s.txns[1]);
            10 in v.assets && v.assets[10] == INTAKE && 11 in v.vettings && v.vettings[11] == ATTESTED
  {
  }

  lemma Forms13()
    ensures Leads(Race(Open, GONE, 5), Execute(1, AddListing(13, 10, 11)),
                  Race(Waiting(13, Listed(true, 5)), GONE, 6))
  {
    hide Leads, Fresh, View;
    Free13();
    Forms(Race(Open, GONE, 5), 1, 13, Race(Waiting(13, Listed(true, 5)), GONE, 6));
  }

  lemma Stores13()
    ensures Leads(Race(Waiting(13, Listed(true, 5)), GONE, 6), InsertListing(1), Race(Open, RELISTED, 6))
  {
    hide Leads;
    Stored(Race(Waiting(13, Listed(true, 5)), GONE, 6), 1, 13, 5, RELISTED, Race(Open, RELISTED, 6));
  }

  lemma Delists13()
    ensures Leads(Race(Open, RELISTED, 6), Execute(1, Delist(13)), Race(Open, BOTH, 7))
  {
    hide Leads;
    Delists(Race(Open, RELISTED, 6), 1, 13, 5, BOTH, Race(Open, BOTH, 7));
  }

  lemma CommitsBoth()
    ensures Leads(Race(Open, BOTH, 7), Commit(1), At(Catalog(BOTH), map[2 := BEHIND], 7))
  {
    hide Leads;
    Commits(Race(Open, BOTH, 7), 1, BOTH, At(Catalog(BOTH), map[2 := BEHIND], 7));
  }

  // Transaction 1 lists it again, delists that too and commits.
  lemma FirstOvertakes() returns (run: Run)
    ensures run.Valid() && run.states[|run.events|] == At(Catalog(BOTH), map[2 := BEHIND], 7)
  {
    hide Leads, At;
    run := SecondWaits();
    assert run.states[|run.events|] == Race(Open, GONE, 5);
    Forms13();
    run := Extends(run, Execute(1, AddListing(13, 10, 11)), Race(Waiting(13, Listed(true, 5)), GONE, 6));
    Stores13();
    run := Extends(run, InsertListing(1), Race(Open, RELISTED, 6));
    Delists13();
    run := Extends(run, Execute(1, Delist(13)), Race(Open, BOTH, 7));
    CommitsBoth();
    run := Extends(run, Commit(1), At(Catalog(BOTH), map[2 := BEHIND], 7));
  }

  predicate LiveButNotLatest(v: Tables, id: nat) {
    id in v.listings && v.listings[id].live && !IsLatest(v.listings, id)
  }

  const LAST := map[14 := Listed(true, 4)]

  lemma Stores14()
    ensures Leads(At(Catalog(BOTH), map[2 := BEHIND], 7), InsertListing(2),
                  At(Catalog(BOTH), map[2 := Plain(Open, Own(LAST))], 7))
  {
    hide Leads;
    Stored(At(Catalog(BOTH), map[2 := BEHIND], 7), 2, 14, 4, LAST, At(Catalog(BOTH), map[2 := Plain(Open, Own(LAST))], 7));
  }

  lemma Commits14()
    ensures Leads(At(Catalog(BOTH), map[2 := Plain(Open, Own(LAST))], 7), Commit(2), At(Catalog(BOTH + LAST), map[], 7))
  {
    hide Leads;
    Commits(At(Catalog(BOTH), map[2 := Plain(Open, Own(LAST))], 7), 2, BOTH + LAST, At(Catalog(BOTH + LAST), map[], 7));
  }

  /** A listing can be live in the committed catalog although a newer, delisted one of the same asset is there:
      "the latest listing is listed" then denies what "some listing is live" affirms. */
  lemma LiveListingNeedNotBeNewest()
    ensures exists run: Run :: run.Valid() && LiveButNotLatest(run.states[|run.events|].tables, 14)
  {
    hide Leads;
    var run := FirstOvertakes();
    Stores14();
    run := Extends(run, InsertListing(2), At(Catalog(BOTH), map[2 := Plain(Open, Own(LAST))], 7));
    Commits14();
    run := Extends(run, Commit(2), At(Catalog(BOTH + LAST), map[], 7));
    var all := BOTH + LAST;
    assert 13 in all && Later(all[13], 13, all[14], 14);
    assert LiveButNotLatest(run.states[|run.events|].tables, 14);
  }
}
