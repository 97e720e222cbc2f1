/** What every run of the earlier body keeps, and exactly when its ledger is a chain. */
module RacyRuns {
  import opened Options
  import opened Rbac
  import opened PolicyWriter
  import opened PolicyWriterInvariant
  import opened PolicyRuns
  import opened RacyWriter

  // ---- rows that may have missed the policy ----

  // The row names the level before it, or none; in any case the same policy row.
  predicate ContinuesOrMisses(p: Option<Stamp>, row: LedgerRow) {
    (row.previous.None? || row.previous == StampLevel(p)) && (p.Some? ==> row.policyId == p.value.id)
  }

  predicate Loose(p: Option<Stamp>, rows: seq<LedgerRow>) {
    rows == [] || (Loose(p, rows[..|rows| - 1]) && ContinuesOrMisses(Replay(p, rows[..|rows| - 1]), rows[|rows| - 1]))
  }

  lemma LooseSnoc(p: Option<Stamp>, rows: seq<LedgerRow>, row: LedgerRow)
    ensures Replay(p, rows + [row]) == After(Replay(p, rows), row)
    ensures Loose(p, rows + [row]) <==> Loose(p, rows) && ContinuesOrMisses(Replay(p, rows), row)
  {
  }

  lemma {:induction false} LooseAppend(p: Option<Stamp>, a: seq<LedgerRow>, b: seq<LedgerRow>)
    ensures Replay(p, a + b) == Replay(Replay(p, a), b)
    ensures Loose(p, a + b) <==> Loose(p, a) && Loose(Replay(p, a), b)
  {
    if b == [] {
      assert a + b == a;
    } else {
      var init := b[..|b| - 1];
      LooseAppend(p, a, init);
      assert (a + b)[..|a + b| - 1] == a + init;
    }
  }

  predicate AllFound(rows: seq<LedgerRow>) {
    forall r :: r in rows ==> r.previous.Some?
  }

  // At most one row has a NULL previous level.
  predicate OneMissing(rows: seq<LedgerRow>) {
    forall i, j :: 0 <= i < j < |rows| ==> rows[i].previous.Some? || rows[j].previous.Some?
  }

  lemma {:induction false} LooseLevels(p: Option<Stamp>, rows: seq<LedgerRow>)
    requires Loose(p, rows)
    ensures StampLevel(Replay(p, rows)) == if rows == [] then StampLevel(p) else Some(rows[|rows| - 1].level)
    ensures rows != [] ==> rows[0].previous.None? || rows[0].previous == StampLevel(p)
    ensures forall i :: 0 <= i < |rows| - 1 ==>
              rows[i + 1].previous.None? || rows[i + 1].previous == Some(rows[i].level)
  {
    if rows != [] {
      var init := rows[..|rows| - 1];
      LooseLevels(p, init);
      forall i | 0 <= i < |rows| - 1
        ensures rows[i + 1].previous.None? || rows[i + 1].previous == Some(rows[i].level)
      {
        assert init[i] == rows[i] && (i + 1 < |init| ==> init[i + 1] == rows[i + 1]);
      }
      if |rows| > 1 {
        assert init[0] == rows[0];
      }
    }
  }

  lemma ChainOfFound(p: Option<Stamp>, rows: seq<LedgerRow>)
    requires Loose(p, rows) && AllFound(rows)
    ensures ChainFrom(StampLevel(p), rows)
  {
    LooseLevels(p, rows);
  }

  lemma ChainIffOneMissing(rows: seq<LedgerRow>)
    requires Loose(None, rows)
    ensures ChainFrom(None, rows) <==> OneMissing(rows)
  {
    LooseLevels(None, rows);
    if OneMissing(rows) {
      forall i | 0 <= i < |rows| - 1 ensures rows[i + 1].previous == Some(rows[i].level) {
        assert rows[0].previous.Some? || rows[i + 1].previous.Some?;
      }
    } else {
      var i, j :| 0 <= i < j < |rows| && rows[i].previous.None? && rows[j].previous.None?;
      assert rows[(j - 1) + 1].previous.None?;
    }
  }

  // ---- what a transaction keeps ----

  ghost predicate Accounted(start: map<Key, Policy>, s: State, k: Key) {
    var p, rows := StampOf(PolicyAt(start, k)), RowsFor(s.ledger, k);
    && Loose(p, rows) && StampOf(PolicyAt(s.policies, k)) == Replay(p, rows)
    && (k in start ==> k in s.policies && AllFound(rows))
  }

  // A probe that found the policy holds its lock, so the level it saw is current.
  ghost predicate StageOk(s: State, x: nat, t: Txn, k: Key) {
    var e, seen := Pending(s, t, k), VisiblePolicy(s, t, k);
    match t.stage
    case Updating(c, previous) =>
      Settled(s, t, k) && (c.key == k && previous.Some? ==> Owns(s, x, k) && previous == LevelOf(seen))
    case Spending(c, previous) =>
      if c.key == k then
        && k in t.policies
        && StampOf(seen) == After(e, ChangeRow(c, previous, seen.value.id))
        && (e.Some? ==> seen.value.id == e.value.id) && (previous.Some? ==> previous == StampLevel(e))
      else Settled(s, t, k)
    case Inserting(_) => false
    case Relocking(_, _) => false
    case Failed(_) => true
    case _ => Settled(s, t, k)
  }

  // The probe of the call found a policy of the project.
  predicate ProbeFound(t: Txn, k: Key) {
    (t.stage.Updating? || t.stage.Spending?) && t.stage.call.key == k ==> t.stage.previous.Some?
  }

  ghost predicate RacyKey(start: map<Key, Policy>, s: State, x: nat, k: Key)
    requires x in s.txns
  {
    var t := s.txns[x];
    && (k in t.policies ==> Owns(s, x, k))
    && (RowsFor(t.ledger, k) != [] ==> k in t.policies)
    && Loose(StampOf(PolicyAt(s.policies, k)), RowsFor(t.ledger, k))
    && StageOk(s, x, t, k)
    && (k in start ==> AllFound(RowsFor(t.ledger, k)) && ProbeFound(t, k))
  }

  ghost predicate RacyInv(start: map<Key, Policy>, s: State) {
    && (forall k :: Accounted(start, s, k))
    && (forall x, k :: x in s.txns ==> RacyKey(start, s, x, k))
    && (forall k :: k in s.locks ==> s.locks[k] in s.txns)
  }

  lemma RacyInitial(s: State)
    requires Initial(s)
    ensures RacyInv(s.policies, s)
  {
  }

  lemma OtherKey(start: map<Key, Policy>, s: State, s': State, y: nat, k: Key)
    requires y in s.txns && y in s'.txns && s'.txns[y] == s.txns[y] && s'.policies == s.policies
    requires Owns(s, y, k) ==> Owns(s', y, k)
    requires RacyKey(start, s, y, k)
    ensures RacyKey(start, s', y, k)
  {
    hide Loose, Replay, RowsFor;
  }

  // Transaction x moves, and may take locks that nobody else holds.
  lemma RacyLocal(start: map<Key, Policy>, s: State, x: nat, t: Txn, locks: map<Key, nat>)
    requires RacyInv(start, s) && Takes(s, x, locks)
    requires forall k :: RacyKey(start, Put(s, x, t, locks), x, k)
    ensures RacyInv(start, Put(s, x, t, locks))
  {
    hide RacyKey, Loose, Replay, RowsFor;
    var s' := Put(s, x, t, locks);
    forall y, k | y in s'.txns ensures RacyKey(start, s', y, k) {
      if y != x {
        OtherKey(start, s, s', y, k);
      }
    }
    forall k ensures Accounted(start, s', k) {
      assert Accounted(start, s, k);
    }
  }

  // ---- the statements ----

  lemma RacyProbeKey(start: map<Key, Policy>, s: State, x: nat, k: Key)
    requires x in s.txns && s.txns[x].stage.Probing? && Ready(s, x)
    requires RacyKey(start, s, x, k) && RacyKey(start, s, x, s.txns[x].stage.call.key)
    requires k in start ==> k in s.policies
    ensures RacyKey(start, Apply(s, x, RacyProbe(s, s.txns[x])), x, k)
    ensures Takes(s, x, LocksAfter(s, x, RacyProbe(s, s.txns[x])))
  {
    hide Loose, Replay, RowsFor, AllFound;
  }

  lemma RacyUpsertKey(start: map<Key, Policy>, s: State, x: nat, freshId: nat, k: Key)
    requires x in s.txns && s.txns[x].stage.Updating? && RacyReady(s, x)
    requires RacyKey(start, s, x, k)
    ensures RacyKey(start, Apply(s, x, RacyUpsert(s, s.txns[x], freshId)), x, k)
    ensures Takes(s, x, LocksAfter(s, x, RacyUpsert(s, s.txns[x], freshId)))
  {
    hide Loose, Replay, RowsFor, AllFound;
  }

  lemma RacySpendKey(start: map<Key, Policy>, s: State, x: nat, k: Key)
    requires x in s.txns && s.txns[x].stage.Spending?
    requires RacyKey(start, s, x, k) && RacyKey(start, s, x, s.txns[x].stage.call.key)
    ensures RacyKey(start, Apply(s, x, SpendStatement(s, s.txns[x])), x, k)
    ensures Takes(s, x, LocksAfter(s, x, SpendStatement(s, s.txns[x])))
  {
    hide Loose, Replay, RowsFor, GuardOn, ChangeChecks, Spent;
    var t, c := s.txns[x], s.txns[x].stage.call;
    var row := ChangeRow(c, t.stage.previous, VisiblePolicy(s, t, c.key).value.id);
    RowsForSnoc(t.ledger, row, k);
    LooseSnoc(StampOf(PolicyAt(s.policies, k)), RowsFor(t.ledger, k), row);
  }

  lemma RacyStatementKey(start: map<Key, Policy>, s: State, e: Event, k: Key)
    requires RacyInv(start, s) && e.Proceed? && RacyEnabled(s, e)
    ensures RacyKey(start, RacyStep(s, e), e.txn, k) && Takes(s, e.txn, RacyStep(s, e).locks)
  {
    hide RacyKey, RacyProbe, RacyUpsert, SpendStatement, Takes, Loose, Replay, RowsFor;
    var x := e.txn;
    assert RacyKey(start, s, x, k) && RacyKey(start, s, x, s.txns[x].stage.call.key) && Accounted(start, s, k);
    match s.txns[x].stage
    case Probing(_) => RacyProbeKey(start, s, x, k);
    case Updating(_, _) => RacyUpsertKey(start, s, x, e.freshId, k);
    case Spending(_, _) => RacySpendKey(start, s, x, k);
  }

  lemma RacyStatement(start: map<Key, Policy>, s: State, e: Event)
    requires RacyInv(start, s) && e.Proceed? && RacyEnabled(s, e)
    ensures RacyInv(start, RacyStep(s, e))
  {
    hide RacyInv, RacyKey, RacyProbe, RacyUpsert, SpendStatement, Takes;
    var x, s' := e.txn, RacyStep(s, e);
    RacyStatementKey(start, s, e, s.txns[x].stage.call.key);
    forall k ensures RacyKey(start, s', x, k) {
      RacyStatementKey(start, s, e, k);
    }
    RacyLocal(start, s, x, s'.txns[x], s'.locks);
  }

  // ---- everything else ----

  lemma RacyBegin(start: map<Key, Policy>, s: State, x: nat, tenant: Option<nat>)
    requires RacyInv(start, s) && x !in s.txns
    ensures RacyInv(start, Step(s, Begin(x, tenant)))
  {
    hide Accounted;
    var t := Txn(tenant, Idle, map[], map[], []);
    RacyLocal(start, s, x, t, s.locks);
  }

  lemma RacyQuiet(start: map<Key, Policy>, s: State, e: Event)
    requires RacyInv(start, s) && Enabled(s, e) && (e.Record? || e.Enter?)
    ensures RacyInv(start, Step(s, e))
  {
    hide Loose, Replay, RowsFor, Accounted, DatabaseAccepts;
    var x := e.txn;
    var s' := Step(s, e);
    forall k ensures RacyKey(start, s', x, k) {
      assert RacyKey(start, s, x, k);
    }
    RacyLocal(start, s, x, s'.txns[x], s.locks);
  }

  lemma RacyAbort(start: map<Key, Policy>, s: State, x: nat)
    requires RacyInv(start, s) && x in s.txns
    ensures RacyInv(start, Step(s, Abort(x)))
  {
    hide RacyKey, Loose, Replay, RowsFor;
    var s' := Step(s, Abort(x));
    forall y, k | y in s'.txns ensures RacyKey(start, s', y, k) {
      OtherKey(start, s, s', y, k);
    }
    forall k ensures Accounted(start, s', k) {
      assert Accounted(start, s, k);
    }
  }

  lemma RacyGrants(start: map<Key, Policy>, s: State, s': State)
    requires RacyInv(start, s) && s' == s.(grants := s'.grants)
    ensures RacyInv(start, s')
  {
    hide RacyKey, Loose, Replay, RowsFor;
    forall y, k | y in s'.txns ensures RacyKey(start, s', y, k) {
      OtherKey(start, s, s', y, k);
    }
    forall k ensures Accounted(start, s', k) {
      assert Accounted(start, s, k);
    }
  }

  lemma RacyCommitAccounted(start: map<Key, Policy>, s: State, x: nat, k: Key)
    requires x in s.txns && s.txns[x].stage.Idle? && Accounted(start, s, k) && RacyKey(start, s, x, k)
    ensures Accounted(start, StepCommit(s, x), k)
  {
    hide Loose, Replay, RowsFor;
    RowsForAppend(s.ledger, s.txns[x].ledger, k);
    LooseAppend(StampOf(PolicyAt(start, k)), RowsFor(s.ledger, k), RowsFor(s.txns[x].ledger, k));
  }

  lemma RacyCommitOther(start: map<Key, Policy>, s: State, x: nat, y: nat, k: Key)
    requires x in s.txns && y in s.txns && x != y && RacyKey(start, s, x, k) && RacyKey(start, s, y, k)
    ensures RacyKey(start, StepCommit(s, x), y, k)
  {
    hide AllFound;
  }

  lemma RacyCommit(start: map<Key, Policy>, s: State, x: nat)
    requires RacyInv(start, s) && x in s.txns && s.txns[x].stage.Idle?
    ensures RacyInv(start, StepCommit(s, x))
  {
    hide RacyKey, Accounted;
    var s' := StepCommit(s, x);
    forall y, k | y in s'.txns ensures RacyKey(start, s', y, k) {
      RacyCommitOther(start, s, x, y, k);
    }
    forall k ensures Accounted(start, s', k) {
      assert Accounted(start, s, k) && RacyKey(start, s, x, k);
      RacyCommitAccounted(start, s, x, k);
    }
  }

  lemma RacyStepInv(start: map<Key, Policy>, s: State, e: Event)
    requires RacyInv(start, s) && RacyEnabled(s, e)
    ensures RacyInv(start, RacyStep(s, e))
  {
    hide RacyInv, RacyReady, DatabaseAccepts;
    match e
    case Grant(g) => RacyGrants(start, s, Step(s, e));
    case Revoke(i) => RacyGrants(start, s, Step(s, e));
    case Begin(x, tenant) => RacyBegin(start, s, x, tenant);
    case Record(_, _, _) => RacyQuiet(start, s, e);
    case Enter(_, _, _, _, _) => RacyQuiet(start, s, e);
    case Proceed(_, _) => RacyStatement(start, s, e);
    case Commit(x) => RacyCommit(start, s, x);
    case Abort(x) => RacyAbort(start, s, x);
  }

  lemma {:induction false} RacyRunInv(run: Run, n: nat)
    requires RacyRun(run) && n <= |run.events|
    ensures RacyInv(run.states[0].policies, run.states[n])
  {
    hide RacyInv, RacyStep, RacyEnabled;
    if n == 0 {
      RacyInitial(run.states[0]);
    } else {
      RacyRunInv(run, n - 1);
      RacyStepInv(run.states[0].policies, run.states[n - 1], run.events[n - 1]);
    }
  }

  // ---- exactly when the ledger is a chain ----

  /** In every run of the earlier body, a project that has a policy at the start keeps a chain of ledger rows. One that
      starts without keeps it if and only if at most one of its rows says that there was none. */
  lemma RacyLedgerIsAChainIff(run: Run, k: Key)
    requires RacyRun(run)
    ensures var before, rows := PolicyAt(run.states[0].policies, k), RowsFor(run.states[|run.events|].ledger, k);
            ChainFrom(LevelOf(before), rows) <==> before.Some? || OneMissing(rows)
  {
    hide RacyEnabled, RacyStep, Loose, RowsFor, ChainFrom, OneMissing, RacyKey;
    RacyRunInv(run, |run.events|);
    var start, s := run.states[0].policies, run.states[|run.events|];
    assert Accounted(start, s, k);
    if k in start {
      ChainOfFound(StampOf(PolicyAt(start, k)), RowsFor(s.ledger, k));
    } else {
      ChainIffOneMissing(RowsFor(s.ledger, k));
    }
  }

  /** A row the earlier body spends continues the account of its transaction if and only if its probe had found a
      policy, or there still is none at the upsert. */
  lemma RacyRowContinuesIff(run: Run, n: nat, x: nat, freshId: nat)
    requires RacyRun(run) && n <= |run.events| && x in run.states[n].txns && run.states[n].txns[x].stage.Updating?
    requires RacyUpsert(run.states[n], run.states[n].txns[x], freshId).txn.stage.Spending?
    ensures var s, t := run.states[n], run.states[n].txns[x];
            var u := RacyUpsert(s, t, freshId).txn;
            var k := t.stage.call.key;
            Continues(Pending(s, t, k), ChangeRow(u.stage.call, u.stage.previous, VisiblePolicy(s, u, k).value.id))
            <==> t.stage.previous.Some? || VisiblePolicy(s, t, k).None?
  {
    hide RacyEnabled, RacyStep, Loose, RowsFor, Replay, Accounted;
    RacyRunInv(run, n);
    assert RacyKey(run.states[0].policies, run.states[n], x, run.states[n].txns[x].stage.call.key);
  }
}
