/** A project whose writes are all tightens: its overrides only tighten and its level never moves. */
module TightenRuns {
  import opened Options
  import opened Overrides
  import opened Rbac
  import opened PolicyWriter
  import opened PolicyWriterInvariant
  import opened PolicyRuns

  predicate IsTighten(a: Option<ActionRow>) {
    a.Some? && a.value.kind == TightenAutonomyOverrides
  }

  ghost predicate AllTighten(s: State, t: Txn, rows: seq<LedgerRow>) {
    forall r :: r in rows ==> IsTighten(VisibleAction(s, t, r.action))
  }

  predicate Tighter(o: Option<Policy>, n: Option<Policy>) {
    o.Some? && n.Some? && n.value.level == o.value.level && IsMonotonic(o.value.overrides, n.value.overrides)
  }

  lemma TighterIsTransitive(a: Option<Policy>, b: Option<Policy>, c: Option<Policy>)
    requires Tighter(a, b) && Tighter(b, c)
    ensures Tighter(a, c)
  {
  }

  // The transaction's own view of a project is tighter than the committed one.
  ghost predicate ViewTighter(s: State, t: Txn, k: Key) {
    Tighter(PolicyAt(s.policies, k), VisiblePolicy(s, t, k))
  }

  // As long as the pending rows of a project are all tightens, the pending view is tighter.
  ghost predicate TightKey(s: State, t: Txn, k: Key) {
    var rows := RowsFor(t.ledger, k);
    t.stage.Failed? || !AllTighten(s, t, rows) ||
    if t.stage.Spending? && t.stage.call.key == k then
      t.stage.call.kind == TightenAutonomyOverrides ==> ViewTighter(s, t, k)
    else
      rows != [] ==> ViewTighter(s, t, k)
  }

  // A tighten about to be written has passed the monotonicity test against the row it holds.
  ghost predicate TightCall(s: State, t: Txn) {
    t.stage.Updating? && t.stage.call.kind == TightenAutonomyOverrides ==>
      var held := VisiblePolicy(s, t, t.stage.call.key);
      held.Some? && held.value.level == t.stage.call.level
      && IsMonotonic(held.value.overrides, t.stage.call.overrides)
  }

  ghost predicate TightTxn(s: State, x: nat)
    requires x in s.txns
  {
    TightCall(s, s.txns[x]) && forall k :: TightKey(s, s.txns[x], k)
  }

  ghost predicate TightInv(s: State) {
    forall x :: x in s.txns ==> TightTxn(s, x)
  }

  // ---- statements ----

  // Short of the spend a statement adds no ledger row and no action.
  lemma StatementSameRows(s: State, t: Txn, freshId: nat)
    requires InCall(t) && !t.stage.Spending?
    ensures var t' := Statement(s, t, freshId).txn; t'.ledger == t.ledger && t'.actions == t.actions
  {
    hide IsMonotonic, VisiblePolicy;
  }

  lemma SameRowsTighten(s: State, t: Txn, t': Txn, rows: seq<LedgerRow>)
    requires t'.actions == t.actions
    ensures AllTighten(s, t', rows) == AllTighten(s, t, rows)
  {
  }

  lemma StatementTightKey(s: State, x: nat, freshId: nat, k: Key)
    requires x in s.txns && Ready(s, x) && !s.txns[x].stage.Spending?
    requires CallOk(s, x, s.txns[x]) && TxnKey(s, x, k)
    requires TightCall(s, s.txns[x]) && TightKey(s, s.txns[x], k)
    ensures TightKey(s, Statement(s, s.txns[x], freshId).txn, k)
  {
    hide AllTighten, RowsFor, Linked, Replay;
    var t := s.txns[x];
    var t' := Statement(s, t, freshId).txn;
    StatementSameRows(s, t, freshId);
    SameRowsTighten(s, t, t', RowsFor(t.ledger, k));
    if t.stage.Updating? && t.stage.call.key == k && t'.stage.Spending?
       && t.stage.call.kind == TightenAutonomyOverrides && AllTighten(s, t, RowsFor(t.ledger, k)) {
      if RowsFor(t.ledger, k) == [] {
        assert VisiblePolicy(s, t, k) == PolicyAt(s.policies, k);
      } else {
        TighterIsTransitive(PolicyAt(s.policies, k), VisiblePolicy(s, t, k), VisiblePolicy(s, t', k));
      }
    }
  }

  lemma SpendTightKey(s: State, x: nat, k: Key)
    requires x in s.txns && s.txns[x].stage.Spending?
    requires TxnOk(s, x)
    requires forall j :: j in s.policies ==> LevelOk(s.policies[j].level)
    requires TightKey(s, s.txns[x], k)
    ensures TightKey(s, SpendStatement(s, s.txns[x]).txn, k)
  {
    SpendOk(s, x);
    var t, t' := s.txns[x], SpendStatement(s, s.txns[x]).txn;
    if t'.stage.Idle? && AllTighten(s, t', RowsFor(t'.ledger, k)) {
      var row := t'.ledger[|t.ledger|];
      assert t'.ledger == t.ledger + [row];
      RowsForSnoc(t.ledger, row, k);
      assert forall r :: r in RowsFor(t.ledger, k) ==> r in RowsFor(t'.ledger, k);
      assert AllTighten(s, t, RowsFor(t.ledger, k));
      if row.key == k {
        assert row in RowsFor(t'.ledger, k);
      }
    }
  }

  lemma StatementTight(s: State, x: nat, freshId: nat)
    requires x in s.txns && Ready(s, x)
    requires TxnOk(s, x) && TightTxn(s, x)
    requires forall j :: j in s.policies ==> LevelOk(s.policies[j].level)
    ensures var t' := Statement(s, s.txns[x], freshId).txn;
            TightCall(s, t') && forall k :: TightKey(s, t', k)
  {
    var t, t' := s.txns[x], Statement(s, s.txns[x], freshId).txn;
    forall k ensures TightKey(s, t', k) {
      assert TightKey(s, t, k) && TxnKey(s, x, k);
      if t.stage.Spending? {
        SpendTightKey(s, x, k);
      } else {
        StatementTightKey(s, x, freshId, k);
      }
    }
    hide TightKey, TxnKey;
    if t.stage.Spending? {
      SpendOk(s, x);
    }
  }

  // ---- commits ----

  lemma CommitTightKey(start: map<Key, Policy>, s: State, x: nat, y: nat, k: Key)
    requires Inv(start, s)
    requires x in s.txns && y in s.txns && x != y
    requires TightKey(s, s.txns[y], k)
    ensures TightKey(StepCommit(s, x), s.txns[y], k)
  {
    var s', t := StepCommit(s, x), s.txns[y];
    assert TxnOk(s, x) && TxnOk(s, y);
    assert TxnKey(s, x, k) && TxnKey(s, y, k);
    if k !in s.txns[x].policies {
      forall r | r in RowsFor(t.ledger, k) ensures VisibleAction(s', t, r.action) == VisibleAction(s, t, r.action) {
        RowsForMembers(t.ledger, k);
        assert RowAuthorized(s, t, r);
      }
    }
  }

  // A row held by one transaction is not changed by the commit of another.
  lemma CommitTightCall(start: map<Key, Policy>, s: State, x: nat, y: nat)
    requires Inv(start, s) && x in s.txns && y in s.txns && x != y
    requires TightCall(s, s.txns[y])
    ensures TightCall(StepCommit(s, x), s.txns[y])
  {
    hide KeyAccounted, RowsFor, Linked, Replay;
    var t := s.txns[y];
    assert TxnOk(s, x) && TxnOk(s, y);
    if t.stage.Updating? {
      assert TxnKey(s, x, t.stage.call.key) && TxnKey(s, y, t.stage.call.key);
    }
  }

  lemma CommitTight(start: map<Key, Policy>, s: State, x: nat, y: nat)
    requires Inv(start, s) && TightInv(s)
    requires x in s.txns && y in s.txns && x != y
    ensures TightTxn(StepCommit(s, x), y)
  {
    hide Inv, TightKey, TightCall, StepCommit;
    assert TightTxn(s, y);
    CommitTightCall(start, s, x, y);
    assert y in StepCommit(s, x).txns && StepCommit(s, x).txns[y] == s.txns[y] by {
      CommitKeepsOthers(s, x, y);
    }
    forall k ensures TightKey(StepCommit(s, x), s.txns[y], k) {
      assert TightKey(s, s.txns[y], k);
      CommitTightKey(start, s, x, y, k);
    }
  }

  lemma CommitKeepsOthers(s: State, x: nat, y: nat)
    requires x in s.txns && y in s.txns && x != y
    ensures y in StepCommit(s, x).txns && StepCommit(s, x).txns[y] == s.txns[y]
  {
  }

  /** A commit whose rows for a project are all tightens leaves the stored level alone, keeps every overridden
      action, and on each of them keeps what is disabled disabled, what needs approval in need of it, and every
      minimum level at least as high. */
  lemma CommittedTightens(start: map<Key, Policy>, s: State, x: nat, k: Key)
    requires Inv(start, s) && TightInv(s)
    requires x in s.txns && s.txns[x].stage.Idle?
    requires var rows := RowsFor(s.txns[x].ledger, k);
             rows != [] && forall r :: r in rows ==> IsTighten(VisibleAction(s, s.txns[x], r.action))
    ensures var o, n := PolicyAt(s.policies, k), PolicyAt(StepCommit(s, x).policies, k);
            && o.Some? && n.Some? && n.value.level == o.value.level
            && forall action :: action in o.value.overrides ==>
                 && action in n.value.overrides
                 && (o.value.overrides[action].allow.Some? ==> n.value.overrides[action].allow == Some(false))
                 && (o.value.overrides[action].requiresApproval.Some? ==>
                       n.value.overrides[action].requiresApproval == Some(true))
                 && (o.value.overrides[action].minLevel.Some? ==>
                       && n.value.overrides[action].minLevel.Some?
                       && n.value.overrides[action].minLevel.value >= o.value.overrides[action].minLevel.value)
  {
    assert TightTxn(s, x) && TightKey(s, s.txns[x], k);
    assert AllTighten(s, s.txns[x], RowsFor(s.txns[x].ledger, k));
  }

  // A transaction keeps its tightness facts while the committed tables stay.
  lemma QuietTight(s: State, s': State, x: nat, t: Txn)
    requires x in s.txns && TightTxn(s, x) && TxnOk(s, x)
    requires s'.policies == s.policies && s'.actions == s.actions
    requires t.policies == s.txns[x].policies && t.ledger == s.txns[x].ledger
    requires forall id :: id in s.txns[x].actions ==> id in t.actions && t.actions[id] == s.txns[x].actions[id]
    requires forall id :: id in t.actions && id !in s.txns[x].actions ==> id !in s.actions
    requires t.stage == s.txns[x].stage
             || (s.txns[x].stage.Idle? && (t.stage.Probing? || t.stage.Failed?))
    ensures TightCall(s', t) && forall k :: TightKey(s', t, k)
  {
    forall k ensures TightKey(s', t, k) {
      assert TightKey(s, s.txns[x], k);
      RowsForMembers(t.ledger, k);
      forall r | r in RowsFor(t.ledger, k)
        ensures VisibleAction(s', t, r.action) == VisibleAction(s, s.txns[x], r.action)
      {
        assert RowAuthorized(s, s.txns[x], r);
      }
    }
  }

  lemma SameTables(s: State, s': State, t: Txn)
    requires s'.policies == s.policies && s'.actions == s.actions
    requires TightCall(s, t) && forall k :: TightKey(s, t, k)
    ensures TightCall(s', t) && forall k :: TightKey(s', t, k)
  {
    forall k ensures TightKey(s', t, k) {
      assert TightKey(s, t, k);
      assert AllTighten(s, t, RowsFor(t.ledger, k)) == AllTighten(s', t, RowsFor(t.ledger, k));
    }
  }

  lemma StepTight(start: map<Key, Policy>, s: State, e: Event)
    requires Inv(start, s) && TightInv(s) && Enabled(s, e)
    ensures TightInv(Step(s, e))
  {
    var s' := Step(s, e);
    hide Statement, TightKey, DatabaseAccepts;
    forall y | y in s'.txns ensures TightTxn(s', y) {
      if e.Commit? {
        CommitTight(start, s, e.txn, y);
      } else if e.Proceed? && e.txn == y {
        assert TxnOk(s, y) && TightTxn(s, y);
        StatementTight(s, y, e.freshId);
        SameTables(s, s', Statement(s, s.txns[y], e.freshId).txn);
      } else if y in s.txns {
        assert TxnOk(s, y) && TightTxn(s, y);
        QuietTight(s, s', y, s'.txns[y]);
      }
    }
  }

  lemma {:induction false} RunTight(run: Run, n: nat)
    requires run.Valid() && n <= |run.events|
    ensures TightInv(run.states[n])
  {
    if n != 0 {
      RunInv(run, n - 1);
      RunTight(run, n - 1);
      hide Step, Inv, TightInv, Enabled;
      StepTight(run.states[0].policies, run.states[n - 1], run.events[n - 1]);
    }
  }

  // ---- runs ----

  predicate TightenRow(s: State, r: LedgerRow) {
    r.action in s.actions && s.actions[r.action].kind == TightenAutonomyOverrides
  }

  predicate TightenRows(s: State, rows: seq<LedgerRow>) {
    forall r :: r in rows ==> TightenRow(s, r)
  }

  lemma NoRowsInBetween(s: State, k: Key)
    ensures NewRows(s, s, k) == []
  {
  }

  lemma OnlyCommitsAddRows(s: State, e: Event, k: Key)
    requires Enabled(s, e)
    ensures s.ledger <= Step(s, e).ledger
    ensures NewRows(s, Step(s, e), k) == if e.Commit? then RowsFor(s.txns[e.txn].ledger, k) else []
  {
    if e.Commit? {
      assert Step(s, e).ledger[|s.ledger|..] == s.txns[e.txn].ledger;
    } else {
      assert Step(s, e).ledger == s.ledger;
      NoRowsInBetween(s, k);
    }
  }

  lemma StepTightens(start: map<Key, Policy>, s: State, e: Event, k: Key)
    requires Inv(start, s) && TightInv(s) && Enabled(s, e)
    requires s.ledger <= Step(s, e).ledger
    requires NewRows(s, Step(s, e), k) != [] && TightenRows(Step(s, e), NewRows(s, Step(s, e), k))
    ensures Tighter(PolicyAt(s.policies, k), PolicyAt(Step(s, e).policies, k))
  {
    OnlyCommitsAddRows(s, e, k);
    CommitStepTightens(start, s, e.txn, k);
  }

  lemma CommitStepTightens(start: map<Key, Policy>, s: State, x: nat, k: Key)
    requires Inv(start, s) && TightInv(s)
    requires x in s.txns && s.txns[x].stage.Idle?
    requires RowsFor(s.txns[x].ledger, k) != [] && TightenRows(StepCommit(s, x), RowsFor(s.txns[x].ledger, k))
    ensures Tighter(PolicyAt(s.policies, k), PolicyAt(StepCommit(s, x).policies, k))
  {
    var t := s.txns[x];
    assert TxnOk(s, x);
    RowsForMembers(t.ledger, k);
    forall r | r in RowsFor(t.ledger, k) ensures IsTighten(VisibleAction(s, t, r.action)) {
      assert TightenRow(StepCommit(s, x), r);
      assert RowAuthorized(s, t, r);
    }
    CommittedTightens(start, s, x, k);
  }

  // Rows committed before a step are judged alike before and after it.
  lemma EarlierRowsTighten(start: map<Key, Policy>, s: State, e: Event, rows: seq<LedgerRow>)
    requires Inv(start, s) && Enabled(s, e)
    requires forall r :: r in rows ==> r in s.ledger
    requires TightenRows(Step(s, e), rows)
    ensures TightenRows(s, rows)
  {
    if e.Commit? {
      assert TxnOk(s, e.txn);
      assert Step(s, e).actions == s.actions + s.txns[e.txn].actions;
    } else {
      assert Step(s, e).actions == s.actions;
    }
    hide Step;
    forall r | r in rows ensures TightenRow(s, r) {
      assert TightenRow(Step(s, e), r);
    }
  }

  lemma NewRowsSplit(start: map<Key, Policy>, a: State, s: State, e: Event, k: Key)
    requires Inv(start, s) && Enabled(s, e)
    requires a.ledger <= s.ledger <= Step(s, e).ledger
    requires TightenRows(Step(s, e), NewRows(a, Step(s, e), k))
    ensures NewRows(a, Step(s, e), k) == NewRows(a, s, k) + NewRows(s, Step(s, e), k)
    ensures TightenRows(s, NewRows(a, s, k)) && TightenRows(Step(s, e), NewRows(s, Step(s, e), k))
  {
    hide Step, Inv, Enabled;
    NewRowsStep(a, s, Step(s, e), k);
    RowsForMembers(s.ledger[|a.ledger|..], k);
    EarlierRowsTighten(start, s, e, NewRows(a, s, k));
  }

  /** Over any stretch of a run in which the writes to a project are all tightens: without a write its policy
      is the same; otherwise it existed before, its level has not moved, every overridden action is still
      overridden, and on each of them a set `allow` now reads false, a set `requires_approval` reads true, and
      a set minimum level is at least as high. */
  lemma {:induction false} TightensOnlyTighten(run: Run, i: nat, j: nat, k: Key)
    requires run.Valid() && i <= j <= |run.events|
    requires run.states[i].ledger <= run.states[j].ledger
    requires TightenRows(run.states[j], NewRows(run.states[i], run.states[j], k))
    ensures var o, n := PolicyAt(run.states[i].policies, k), PolicyAt(run.states[j].policies, k);
            if NewRows(run.states[i], run.states[j], k) == [] then o == n
            else
              && o.Some? && n.Some? && n.value.level == o.value.level
              && forall action :: action in o.value.overrides ==>
                   && action in n.value.overrides
                   && (o.value.overrides[action].allow.Some? ==> n.value.overrides[action].allow == Some(false))
                   && (o.value.overrides[action].requiresApproval.Some? ==>
                         n.value.overrides[action].requiresApproval == Some(true))
                   && (o.value.overrides[action].minLevel.Some? ==>
                         && n.value.overrides[action].minLevel.Some?
                         && n.value.overrides[action].minLevel.value >= o.value.overrides[action].minLevel.value)
  {
    hide Step, Inv, TightInv, Enabled, RowsFor, TightenRows;
    PolicyMovesWithItsLedger(run, i, j, k);
    if i == j {
      NoRowsInBetween(run.states[i], k);
    } else {
      var a, b, c := run.states[i], run.states[j - 1], run.states[j];
      PolicyMovesWithItsLedger(run, i, j - 1, k);
      PolicyMovesWithItsLedger(run, j - 1, j, k);
      RunInv(run, j - 1);
      RunTight(run, j - 1);
      NewRowsSplit(run.states[0].policies, a, b, run.events[j - 1], k);
      TightensOnlyTighten(run, i, j - 1, k);
      if NewRows(b, c, k) != [] {
        StepTightens(run.states[0].policies, b, run.events[j - 1], k);
        if NewRows(a, b, k) != [] {
          TighterIsTransitive(PolicyAt(a.policies, k), PolicyAt(b.policies, k), PolicyAt(c.policies, k));
        }
      }
    }
  }
}
