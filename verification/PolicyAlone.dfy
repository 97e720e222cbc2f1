/** A call of the writer that meets nobody else runs to its end, waits for nothing, and commits what it says. */
module PolicyAlone {
  import opened Options
  import opened Overrides
  import opened Rbac
  import opened PolicyWriter
  import opened PolicyRuns
  import opened PolicyTables

  // No transaction but x is open, and x holds every lock there is.
  predicate Alone(s: State, x: nat) {
    s.txns.Keys == {x} && forall k :: k in s.locks ==> s.locks[k] == x
  }

  predicate SameTables(s: State, s': State) {
    s'.policies == s.policies && s'.ledger == s.ledger && s'.actions == s.actions && s'.grants == s.grants
  }

  // A statement looks at the committed tables and its own transaction only.
  lemma StatementReadsTables(s: State, s': State, t: Txn, freshId: nat)
    requires SameTables(s, s') && InCall(t)
    ensures Statement(s', t, freshId).txn == Statement(s, t, freshId).txn
  {
  }

  lemma StatementComesNearer(s: State, t: Txn, freshId: nat)
    requires InCall(t)
    ensures Remaining(Statement(s, t, freshId).txn.stage) < Remaining(t.stage)
  {
  }

  ghost predicate Extends(longer: Run, run: Run) {
    longer.Valid() && run.Valid() && run.states <= longer.states && run.events <= longer.events
  }

  lemma Extended(run: Run, e: Event) returns (longer: Run)
    requires run.Valid() && Enabled(run.Last(), e)
    ensures Extends(longer, run) && longer.Last() == Step(run.Last(), e)
  {
    hide Step, Enabled, Initial;
    longer := Run(run.states + [Step(run.Last(), e)], run.events + [e]);
  }

  lemma AloneIsReady(s: State, x: nat)
    requires Alone(s, x) && InCall(s.txns[x])
    ensures Enabled(s, Proceed(x, 0)) && forall freshId :: Enabled(s, Proceed(x, freshId))
  {
  }

  lemma ProceedAlone(s: State, x: nat, freshId: nat)
    requires Alone(s, x) && InCall(s.txns[x]) && Enabled(s, Proceed(x, freshId))
    ensures var s' := Step(s, Proceed(x, freshId));
            Alone(s', x) && SameTables(s, s') && s'.txns[x] == Statement(s, s.txns[x], freshId).txn
  {
    hide Statement, Ready;
  }

  lemma {:induction false} RunsToItsEnd(run: Run, x: nat, freshId: nat) returns (longer: Run)
    requires run.Valid() && Alone(run.Last(), x)
    ensures Extends(longer, run) && Alone(longer.Last(), x) && SameTables(run.Last(), longer.Last())
    ensures longer.Last().txns[x] == Finish(run.Last(), run.Last().txns[x], freshId)
    ensures !InCall(longer.Last().txns[x])
    decreases Remaining(run.Last().txns[x].stage)
  {
    hide Step, Enabled, Statement, Run.Valid;
    var s, t := run.Last(), run.Last().txns[x];
    longer := run;
    if InCall(t) {
      AloneIsReady(s, x);
      longer := Extended(run, Proceed(x, freshId));
      ProceedAlone(s, x, freshId);
      StatementComesNearer(s, t, freshId);
      FinishReadsTables(s, longer.Last(), longer.Last().txns[x], freshId);
      longer := RunsToItsEnd(longer, x, freshId);
    }
  }

  lemma {:induction false} FinishReadsTables(s: State, s': State, t: Txn, freshId: nat)
    requires SameTables(s, s')
    ensures Finish(s', t, freshId) == Finish(s, t, freshId)
    decreases Remaining(t.stage)
  {
    hide Statement;
    if InCall(t) {
      StatementReadsTables(s, s', t, freshId);
      StatementComesNearer(s, t, freshId);
      FinishReadsTables(s, s', Statement(s, t, freshId).txn, freshId);
    }
  }

  lemma NobodyHoldsALock(run: Run)
    requires run.Valid() && run.Last().txns == map[]
    ensures run.Last().locks == map[]
  {
    RunInv(run, |run.events|);
  }

  lemma BeginsAlone(run: Run, x: nat, tenant: Option<nat>) returns (longer: Run)
    requires run.Valid() && run.Last().txns == map[]
    ensures Extends(longer, run) && Alone(longer.Last(), x) && SameTables(run.Last(), longer.Last())
    ensures longer.Last().txns == map[x := Txn(tenant, Idle, map[], map[], [])]
  {
    hide Statement, DatabaseAccepts;
    NobodyHoldsALock(run);
    longer := Extended(run, Begin(x, tenant));
  }

  lemma EntersAlone(run: Run, x: nat, action: nat, project: nat, level: int, newOverrides: Option<OverrideMap>)
    returns (longer: Run)
    requires run.Valid() && Alone(run.Last(), x) && run.Last().txns[x].stage.Idle?
    ensures Extends(longer, run) && Alone(longer.Last(), x) && SameTables(run.Last(), longer.Last())
    ensures var s, t := run.Last(), run.Last().txns[x];
            longer.Last().txns[x] == t.(stage := EnterStage(s, t, action, project, level, newOverrides))
  {
    hide Statement, DatabaseAccepts, EnterStage;
    longer := Extended(run, Enter(x, action, project, level, newOverrides));
  }

  // An idle transaction commits what is pending; a failed one leaves nothing behind.
  lemma EndsAlone(run: Run, x: nat) returns (longer: Run)
    requires run.Valid() && Alone(run.Last(), x) && !InCall(run.Last().txns[x])
    ensures Extends(longer, run) && longer.Last().txns == map[]
    ensures var s, t, s' := run.Last(), run.Last().txns[x], longer.Last();
            s' == if t.stage.Idle? then
                    State(s.grants, s.actions + t.actions, s.policies + t.policies, s.ledger + t.ledger, map[], s'.locks)
                  else State(s.grants, s.actions, s.policies, s.ledger, map[], s'.locks)
  {
    hide Statement, DatabaseAccepts;
    longer := Extended(run, if run.Last().txns[x].stage.Idle? then Commit(x) else Abort(x));
    assert longer.Last().txns.Keys == {};
  }

  lemma {:induction false} FinishKeepsActions(s: State, t: Txn, freshId: nat)
    ensures Finish(s, t, freshId).actions == t.actions
    decreases Remaining(t.stage)
  {
    hide Statement;
    if InCall(t) {
      StatementStaysInItsProject(s, t, freshId, Key(0, 0));
      StatementComesNearer(s, t, freshId);
      FinishKeepsActions(s, Statement(s, t, freshId).txn, freshId);
    }
  }

  /** From any reachable state with no open transaction a call of the writer, in a transaction of its own, can
      run without waiting to a commit or, refused, to an abort, and leaves the tables SoloWrite says. */
  lemma LoneCallIsARun(run: Run, x: nat, tenant: Option<nat>, action: nat, project: nat, level: int,
                       newOverrides: Option<OverrideMap>, freshId: nat) returns (longer: Run)
    requires run.Valid() && run.Last().txns == map[]
    ensures Extends(longer, run) && longer.Last().txns == map[]
    ensures longer.Last().grants == run.Last().grants && longer.Last().actions == run.Last().actions
    ensures var s := run.Last();
            Tables(longer.Last().policies, longer.Last().ledger) ==
            match SoloWrite(Tables(s.policies, s.ledger), s.actions, tenant, action, project, level,
                            if newOverrides.Some? then newOverrides.value else map[], freshId)
            case Ok(tables) => tables
            case Err(_) => Tables(s.policies, s.ledger)
  {
    hide Step, Enabled, Statement, Run.Valid, Finish, SoloWrite, EnterStage;
    longer := BeginsAlone(run, x, tenant);
    var s1 := longer.Last();
    longer := EntersAlone(longer, x, action, project, level, newOverrides);
    var entered := longer.Last().txns[x];
    UninterruptedCallIsSoloWrite(s1, tenant, action, project, level, newOverrides, freshId);
    FinishReadsTables(s1, longer.Last(), entered, freshId);
    FinishKeepsActions(s1, entered, freshId);
    longer := RunsToItsEnd(longer, x, freshId);
    longer := EndsAlone(longer, x);
    assert run.Last().actions + map[] == run.Last().actions;
  }

  lemma RecordsAlone(run: Run, x: nat, id: nat, row: ActionRow) returns (longer: Run)
    requires run.Valid() && Alone(run.Last(), x)
    requires run.Last().txns[x] == Txn(Some(row.key.tenant), Idle, map[], map[], [])
    requires id !in run.Last().actions && DatabaseAccepts(row, run.Last().grants)
    ensures Extends(longer, run) && Alone(longer.Last(), x) && SameTables(run.Last(), longer.Last())
    ensures longer.Last().txns[x] == Txn(Some(row.key.tenant), Idle, map[], map[id := row], [])
  {
    hide Statement, DatabaseAccepts, Initial;
    longer := Extended(run, Record(x, id, row));
  }

  /** In such a state any action that the CHECKs and the guard accept can be recorded and committed. */
  lemma ActionCanBeRecorded(run: Run, x: nat, id: nat, row: ActionRow) returns (longer: Run)
    requires run.Valid() && run.Last().txns == map[]
    requires id !in run.Last().actions && DatabaseAccepts(row, run.Last().grants)
    ensures Extends(longer, run) && longer.Last().txns == map[]
    ensures var s := run.Last();
            longer.Last() == State(s.grants, s.actions[id := row], s.policies, s.ledger, map[], longer.Last().locks)
  {
    hide Step, Enabled, DatabaseAccepts, Run.Valid;
    longer := BeginsAlone(run, x, Some(row.key.tenant));
    longer := RecordsAlone(longer, x, id, row);
    longer := EndsAlone(longer, x);
    assert run.Last().policies + map[] == run.Last().policies;
    assert run.Last().actions + map[id := row] == run.Last().actions[id := row];
    assert run.Last().ledger + [] == run.Last().ledger;
  }
}
