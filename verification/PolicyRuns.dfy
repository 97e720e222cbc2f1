/** What holds over whole runs of the policy writer, whatever the interleaving and whoever aborts. */
module PolicyRuns {
  import opened Options
  import opened Rbac
  import opened PolicyWriter
  import opened PolicyWriterInvariant

  lemma {:induction false} RunInv(run: Run, n: nat)
    requires run.Valid() && n <= |run.events|
    ensures Inv(run.states[0].policies, run.states[n])
  {
    if n == 0 {
      InitialInv(run.states[0]);
    } else {
      RunInv(run, n - 1);
      StepInv(run.states[0].policies, run.states[n - 1], run.events[n - 1]);
    }
  }

  // ---- the ledger of one project is a chain ----

  predicate ChainFrom(first: Option<int>, rows: seq<LedgerRow>) {
    && (rows != [] ==> rows[0].previous == first)
    && (forall i :: 0 <= i < |rows| - 1 ==> rows[i + 1].previous == Some(rows[i].level))
  }

  lemma {:induction false} LinkedIsChain(p: Option<Stamp>, rows: seq<LedgerRow>)
    requires Linked(p, rows)
    ensures ChainFrom(StampLevel(p), rows)
    ensures rows != [] ==> Replay(p, rows).Some? && Replay(p, rows).value.level == rows[|rows| - 1].level
    ensures rows != [] ==> forall r :: r in rows ==> r.policyId == Replay(p, rows).value.id
    ensures p.Some? && rows != [] ==> Replay(p, rows).value.id == p.value.id
    ensures rows != [] ==> Replay(p, rows).value.writes == (if p.Some? then p.value.writes else 0) + |rows|
  {
    if rows != [] {
      var init, last := rows[..|rows| - 1], rows[|rows| - 1];
      LinkedIsChain(p, init);
      assert rows == init + [last];
    }
  }

  function WritesOf(p: Option<Policy>): nat {
    if p.Some? then p.value.writes else 0
  }

  /** The committed ledger rows of a project, in lock order, chain from the level it started with (NULL only
      if there was no row) to the stored level, all about one policy row, and there is exactly one ledger row
      for each write the policy row has taken. */
  lemma LedgerIsAChain(run: Run, k: Key)
    requires run.Valid()
    ensures var before, now := PolicyAt(run.states[0].policies, k), PolicyAt(run.Last().policies, k);
            var rows := RowsFor(run.Last().ledger, k);
            && ChainFrom(LevelOf(before), rows)
            && (rows != [] ==> now.Some? && now.value.level == rows[|rows| - 1].level
                               && now.value.id == rows[|rows| - 1].policyId
                               && |now.value.overrides| == rows[|rows| - 1].keyCount)
            && (forall r :: r in rows ==> now.Some? && r.policyId == now.value.id)
            && (before.Some? ==> now.Some? && now.value.id == before.value.id)
            && WritesOf(now) == WritesOf(before) + |rows|
  {
    RunInv(run, |run.events|);
    assert KeyAccounted(run.states[0].policies, run.Last(), k);
    LinkedIsChain(StampOf(PolicyAt(run.states[0].policies, k)), RowsFor(run.Last().ledger, k));
  }

  // ---- a committed policy moves only together with its ledger ----

  // The rows committed for a project between two states.
  function NewRows(a: State, b: State, k: Key): seq<LedgerRow>
    requires a.ledger <= b.ledger
  {
    RowsFor(b.ledger[|a.ledger|..], k)
  }

  lemma NewRowsStep(a: State, b: State, c: State, k: Key)
    requires a.ledger <= b.ledger <= c.ledger
    ensures NewRows(a, c, k) == NewRows(a, b, k) + NewRows(b, c, k)
  {
    RowsForAppend(b.ledger[|a.ledger|..], c.ledger[|b.ledger|..], k);
    assert c.ledger[|a.ledger|..] == b.ledger[|a.ledger|..] + c.ledger[|b.ledger|..];
  }

  lemma StepMovesWithLedger(start: map<Key, Policy>, s: State, e: Event, k: Key)
    requires Inv(start, s) && Enabled(s, e)
    ensures s.ledger <= Step(s, e).ledger
    ensures PolicyAt(Step(s, e).policies, k) != PolicyAt(s.policies, k) ==> NewRows(s, Step(s, e), k) != []
    ensures PolicyAt(s.policies, k).Some? ==> PolicyAt(Step(s, e).policies, k).Some?
  {
    if e.Commit? {
      assert TxnOk(s, e.txn) && TxnKey(s, e.txn, k);
      assert Step(s, e).ledger[|s.ledger|..] == s.txns[e.txn].ledger;
    }
  }

  /** Between any two moments of a run the policy of a project is untouched unless the ledger grew for it. */
  lemma {:induction false} PolicyMovesWithItsLedger(run: Run, i: nat, j: nat, k: Key)
    requires run.Valid() && i <= j <= |run.events|
    ensures run.states[i].ledger <= run.states[j].ledger
    ensures NewRows(run.states[i], run.states[j], k) == [] ==>
              PolicyAt(run.states[i].policies, k) == PolicyAt(run.states[j].policies, k)
    ensures PolicyAt(run.states[i].policies, k).Some? ==> PolicyAt(run.states[j].policies, k).Some?
  {
    hide Step, Inv;
    if i < j {
      PolicyMovesWithItsLedger(run, i, j - 1, k);
      RunInv(run, j - 1);
      StepMovesWithLedger(run.states[0].policies, run.states[j - 1], run.events[j - 1], k);
      NewRowsStep(run.states[i], run.states[j - 1], run.states[j], k);
    }
  }

  // ---- every ledger row spends an action of its own, recorded under a sufficient grant ----

  // Step i of the run recorded the action, while its actor was entitled to it by an active grant.
  predicate RecordedUnderGrant(run: Run, i: nat, id: nat, row: ActionRow)
    requires run.Valid()
  {
    && i < |run.events|
    && run.events[i].Record? && run.events[i].id == id && run.events[i].row == row
    && row.provenance == RequestAuthenticated
    && Entitled(run.states[i].grants, row.key.tenant, row.principal, row.kind)
  }

  // Step i of the run gave the grant.
  predicate GivenAt(run: Run, i: nat, g: Grant)
    requires run.Valid()
  {
    i < |run.events| && run.events[i].Grant? && run.events[i].grant == g
  }

  predicate WithdrawnAt(run: Run, i: nat, j: nat)
    requires run.Valid()
  {
    i < |run.events| && run.events[i].Revoke? && run.events[i].index == j
  }

  // Row j of the grants as it stood at the start, or as a step before n gave it.
  ghost predicate Issued(run: Run, n: nat, j: nat, g: Grant)
    requires run.Valid()
  {
    if j < |run.states[0].grants| then run.states[0].grants[j] == g
    else g.status == Active && exists i :: 0 <= i < n && GivenAt(run, i, g)
  }

  lemma GrantRowsOnlyGrow(s: State, e: Event)
    requires Enabled(s, e)
    ensures |s.grants| <= |Step(s, e).grants|
    ensures e.Grant? ==> Step(s, e).grants == s.grants + [e.grant]
    ensures e.Revoke? ==> Step(s, e).grants == s.grants[e.index := s.grants[e.index].(status := Revoked)]
    ensures !e.Grant? && !e.Revoke? ==> Step(s, e).grants == s.grants
  {
    hide Statement, DatabaseAccepts, EnterStage, Ready;
  }

  lemma {:induction false} NotYetWithdrawn(run: Run, n: nat, j: nat, i: nat)
    requires run.Valid() && i <= n <= |run.events| && |run.states[n].grants| <= j
    ensures |run.states[i].grants| <= j && !WithdrawnAt(run, i, j)
  {
    if i < n {
      GrantRowsOnlyGrow(run.states[n - 1], run.events[n - 1]);
      hide Step;
      NotYetWithdrawn(run, n - 1, j, i);
    }
  }

  /** A grant row is one that stood at the start or that a step gave, and it is active until it is revoked. */
  lemma {:induction false} GrantsFollowTheirEvents(run: Run, n: nat, j: nat)
    requires run.Valid() && n <= |run.events| && j < |run.states[n].grants|
    ensures exists g :: Issued(run, n, j, g)
              && run.states[n].grants[j]
                 == if exists i :: 0 <= i < n && WithdrawnAt(run, i, j) then g.(status := Revoked) else g
  {
    if n == 0 {
      assert Issued(run, 0, j, run.states[0].grants[j]);
    } else {
      var e, before := run.events[n - 1], run.states[n - 1].grants;
      GrantRowsOnlyGrow(run.states[n - 1], e);
      hide Step;
      if j < |before| {
        GrantsFollowTheirEvents(run, n - 1, j);
        var g :| Issued(run, n - 1, j, g) && before[j]
                 == if exists i :: 0 <= i < n - 1 && WithdrawnAt(run, i, j) then g.(status := Revoked) else g;
        assert Issued(run, n, j, g);
        assert e.Revoke? && e.index == j <==> WithdrawnAt(run, n - 1, j);
      } else {
        assert GivenAt(run, n - 1, e.grant);
        forall i | 0 <= i < n ensures !WithdrawnAt(run, i, j) {
          NotYetWithdrawn(run, n - 1, j, i);
        }
        NotYetWithdrawn(run, n - 1, j, 0);
        assert Issued(run, n, j, e.grant);
      }
    }
  }

  ghost predicate Known(s: State, id: nat, row: ActionRow) {
    (id in s.actions && s.actions[id] == row)
    || exists x :: x in s.txns && id in s.txns[x].actions && s.txns[x].actions[id] == row
  }

  // Only a recording adds to the pending actions of a transaction.
  lemma PendingActionStep(s: State, e: Event, x: nat)
    requires Enabled(s, e) && x in Step(s, e).txns
    ensures Step(s, e).txns[x].actions == (if x in s.txns then s.txns[x].actions else map[])
            || (e.Record? && e.txn == x && x in s.txns && Step(s, e).txns[x].actions == s.txns[x].actions[e.id := e.row])
  {
    hide Statement, DatabaseAccepts;
    if e.Proceed? {
      StatementStaysInItsProject(s, s.txns[e.txn], e.freshId, Key(0, 0));
    }
  }

  lemma KnownStep(s: State, e: Event, id: nat, row: ActionRow)
    requires Enabled(s, e)
    requires Known(Step(s, e), id, row)
    ensures Known(s, id, row) || (e.Record? && e.id == id && e.row == row && DatabaseAccepts(row, s.grants))
  {
    var s' := Step(s, e);
    if !(id in s'.actions && s'.actions[id] == row) {
      var x :| x in s'.txns && id in s'.txns[x].actions && s'.txns[x].actions[id] == row;
      PendingActionStep(s, e, x);
      hide Step;
      if x in s.txns && id in s.txns[x].actions && s.txns[x].actions[id] == row {
      }
    } else if e.Commit? {
      assert s'.actions == s.actions + s.txns[e.txn].actions;
      hide Step, StepCommit;
    } else {
      assert s'.actions == s.actions;
    }
  }

  lemma {:induction false} AllowedActionWasRecorded(run: Run, n: nat, id: nat, row: ActionRow)
    requires run.Valid() && n <= |run.events|
    requires Known(run.states[n], id, row) && row.decision == Allowed
    ensures exists i :: 0 <= i < n && RecordedUnderGrant(run, i, id, row)
  {
    if n != 0 {
      KnownStep(run.states[n - 1], run.events[n - 1], id, row);
      if Known(run.states[n - 1], id, row) {
        AllowedActionWasRecorded(run, n - 1, id, row);
      } else {
        AllowedMeansSufficientGrant(row, run.states[n - 1].grants);
        assert RecordedUnderGrant(run, n - 1, id, row);
      }
    }
  }

  /** No action is spent twice, and each spent action is an allowed one of the same tenant and project that
      was recorded at an earlier step, when its authenticated actor was an active administrator of the tenant
      or, for a tighten, an active operator. */
  lemma EverySpendIsAuthorized(run: Run)
    requires run.Valid()
    ensures DistinctActions(run.Last().ledger)
    ensures forall r :: r in run.Last().ledger ==>
              && r.action in run.Last().actions
              && run.Last().actions[r.action].decision == Allowed
              && run.Last().actions[r.action].key == r.key
              && exists i :: 0 <= i < |run.events|
                    && RecordedUnderGrant(run, i, r.action, run.Last().actions[r.action])
  {
    RunInv(run, |run.events|);
    forall r | r in run.Last().ledger
      ensures exists i :: 0 <= i < |run.events|
                && RecordedUnderGrant(run, i, r.action, run.Last().actions[r.action])
    {
      assert Known(run.Last(), r.action, run.Last().actions[r.action]);
      AllowedActionWasRecorded(run, |run.events|, r.action, run.Last().actions[r.action]);
    }
  }

  // ---- isolation, and refusals that cannot happen ----

  predicate StaysInProject(s: State, e: Event, s': State, k: Key)
    requires Enabled(s, e)
  {
    && (e.Proceed? ==>
          && s'.policies == s.policies
          && e.txn in s'.txns
          && Some(s.txns[e.txn].stage.call.key.tenant) == s.txns[e.txn].tenant
          && (k != s.txns[e.txn].stage.call.key ==>
                VisiblePolicy(s', s'.txns[e.txn], k) == VisiblePolicy(s, s.txns[e.txn], k)))
    && (PolicyAt(s'.policies, k) != PolicyAt(s.policies, k) ==>
          e.Commit? && s.txns[e.txn].tenant == Some(k.tenant))
  }

  lemma StatementStaysInItsProject(s: State, t: Txn, freshId: nat, k: Key)
    requires InCall(t)
    ensures var t' := Statement(s, t, freshId).txn;
            t'.actions == t.actions && t'.tenant == t.tenant
            && (k != t.stage.call.key ==> VisiblePolicy(s, t', k) == VisiblePolicy(s, t, k))
  {
  }

  lemma StepStaysInItsProject(start: map<Key, Policy>, s: State, e: Event, k: Key)
    requires Inv(start, s) && Enabled(s, e)
    ensures StaysInProject(s, e, Step(s, e), k)
  {
    hide KeyAccounted, StageAccounted, Linked, Replay, DatabaseAccepts, Statement;
    if e.Proceed? {
      assert TxnOk(s, e.txn);
      StatementStaysInItsProject(s, s.txns[e.txn], e.freshId, k);
    } else if e.Commit? {
      assert TxnOk(s, e.txn) && TxnKey(s, e.txn, k);
    }
  }

  /** In a reachable state a statement of the writer leaves every committed policy alone and, seen from its
      own transaction, every policy but that of its project. A commit changes policies of its tenant only. */
  lemma WriterStaysInItsProject(run: Run, n: nat, k: Key)
    requires run.Valid() && n < |run.events|
    ensures StaysInProject(run.states[n], run.events[n], run.states[n + 1], k)
  {
    RunInv(run, n);
    StepStaysInItsProject(run.states[0].policies, run.states[n], run.events[n], k);
  }

  // Refusals that the protocol rules out.
  predicate Spurious(stage: Stage) {
    stage.Failed?
    && (stage.refusal == RowUnavailable || stage.refusal == ChangeCheckFailed || stage.refusal.GuardTripped?)
  }

  lemma StatementNotSpurious(start: map<Key, Policy>, s: State, x: nat, freshId: nat)
    requires Inv(start, s)
    requires x in s.txns && Ready(s, x)
    ensures !Spurious(Statement(s, s.txns[x], freshId).txn.stage)
  {
    assert TxnOk(s, x);
    match s.txns[x].stage
    case Relocking(c, _) => assert TxnKey(s, x, c.key);
    case Spending(_, _) => SpendOk(s, x);
    case _ =>
  }

  lemma StepNotSpurious(start: map<Key, Policy>, s: State, e: Event, x: nat)
    requires Inv(start, s) && Enabled(s, e)
    requires x in Step(s, e).txns
    requires x in s.txns ==> !Spurious(s.txns[x].stage)
    ensures !Spurious(Step(s, e).txns[x].stage)
  {
    hide Inv, Statement, DatabaseAccepts;
    if e.Proceed? {
      StatementNotSpurious(start, s, e.txn, e.freshId);
    }
  }

  lemma {:induction false} NeverSpurious(run: Run, n: nat, x: nat)
    requires run.Valid() && n <= |run.events| && x in run.states[n].txns
    ensures !Spurious(run.states[n].txns[x].stage)
  {
    hide Step, Inv, Enabled;
    if n != 0 {
      RunInv(run, n - 1);
      if x in run.states[n - 1].txns {
        NeverSpurious(run, n - 1, x);
      }
      StepNotSpurious(run.states[0].policies, run.states[n - 1], run.events[n - 1], x);
    }
  }

  lemma SpendNeverWaits(start: map<Key, Policy>, s: State, x: nat)
    requires Inv(start, s) && x in s.txns && s.txns[x].stage.Spending?
    ensures Ready(s, x)
  {
    var c := s.txns[x].stage.call;
    assert TxnOk(s, x) && TxnKey(s, x, c.key);
    forall y | y in s.txns && y != x ensures !Spent(s.txns[y].ledger, c.action) {
      assert TxnOk(s, y);
      forall r | r in s.txns[y].ledger ensures r.action != c.action {
        PendingRowOwned(s, y, r);
        assert RowAuthorized(s, s.txns[y], r);
      }
    }
  }

  /** In a reachable state no call has failed for want of the row it relocks, on the ledger guard, or on the
      ledger's CHECKs, and a spend never waits for another transaction. */
  lemma NoSpuriousRefusal(run: Run, n: nat, x: nat)
    requires run.Valid() && n <= |run.events| && x in run.states[n].txns
    ensures !Spurious(run.states[n].txns[x].stage)
    ensures run.states[n].txns[x].stage.Spending? ==> Ready(run.states[n], x)
  {
    NeverSpurious(run, n, x);
    if run.states[n].txns[x].stage.Spending? {
      RunInv(run, n);
      SpendNeverWaits(run.states[0].policies, run.states[n], x);
    }
  }
}
