/** The earlier body of the writer: it upserts without looking again, and spends the level its probe saw. */
module RacyWriter {
  import opened Options
  import opened Rbac
  import opened PolicyWriter
  import opened PolicyWriterInvariant
  import opened PolicyRuns

  // The tighten block, then straight to the upsert whether or not the probe found a row.
  function RacyAfterProbe(c: Call, probed: Option<Policy>): Stage {
    match AfterProbe(c, probed)
    case Failed(refusal) => Failed(refusal)
    case _ => Updating(c, LevelOf(probed))
  }

  function RacyProbe(s: State, t: Txn): Effect
    requires t.stage.Probing?
  {
    var probed := VisiblePolicy(s, t, t.stage.call.key);
    Moved(t, RacyAfterProbe(t.stage.call, probed), probed.Some?)
  }

  // INSERT ... ON CONFLICT DO UPDATE.
  function RacyUpsert(s: State, t: Txn, freshId: nat): Effect
    requires t.stage.Updating?
  {
    var c := t.stage.call;
    var row := VisiblePolicy(s, t, c.key);
    var written := match row
      case Some(p) => p.(level := c.level, overrides := c.overrides, writes := p.writes + 1)
      case None => Policy(freshId, c.level, c.overrides, 1);
    if !LevelOk(c.level) then Moved(t, Failed(LevelOutOfRange), false)
    else Wrote(t, c.key, written, Spending(c, t.stage.previous))
  }

  // The upsert waits for whoever holds the row or is inserting it.
  predicate RacyReady(s: State, x: nat)
    requires x in s.txns
  {
    match s.txns[x].stage
    case Updating(c, _) => LevelOk(c.level) ==> LockFree(s, x, c.key)
    case Inserting(_) => false
    case Relocking(_, _) => false
    case _ => Ready(s, x)
  }

  predicate RacyEnabled(s: State, e: Event) {
    if e.Proceed? then e.txn in s.txns && RacyReady(s, e.txn) else Enabled(s, e)
  }

  function RacyStep(s: State, e: Event): State
    requires RacyEnabled(s, e)
  {
    if e.Proceed? then
      var t := s.txns[e.txn];
      Apply(s, e.txn, match t.stage
                      case Probing(_) => RacyProbe(s, t)
                      case Updating(_, _) => RacyUpsert(s, t, e.freshId)
                      case Spending(_, _) => SpendStatement(s, t))
    else Step(s, e)
  }

  predicate RacyRun(run: Run) {
    && |run.states| == |run.events| + 1
    && Initial(run.states[0])
    && forall i :: 0 <= i < |run.events| ==>
         RacyEnabled(run.states[i], run.events[i]) && run.states[i + 1] == RacyStep(run.states[i], run.events[i])
  }

  // ---- a run that breaks the chain ----

  const ADMIN: Rbac.Grant := Rbac.Grant(1, "admin", TenantAdmin, Active)
  const PROJECT: Key := Key(1, 7)
  const SET_POLICY: ActionRow :=
    ActionRow(PROJECT, SetAutonomyPolicy, "admin", RequestAuthenticated, TenantAdmin, Some(TenantAdmin), Allowed)

  function Empty(): State {
    State([ADMIN], map[], map[], [], map[], map[])
  }

  lemma AdminMaySet()
    ensures DatabaseAccepts(SET_POLICY, [ADMIN])
  {
    DatabaseAcceptsExactlyTheEvaluation(SET_POLICY, [ADMIN]);
    assert ActiveGrants([ADMIN], 1, "admin") == [ADMIN] + ActiveGrants([], 1, "admin");
  }

  // A transaction that has recorded an action of its own and stands at a stage.
  function Writer(action: nat, stage: Stage, policies: map<Key, Policy>, ledger: seq<LedgerRow>): Txn {
    Txn(Some(1), stage, policies, map[action := SET_POLICY], ledger)
  }

  function SetTo(action: nat, level: int): Call {
    Call(action, SetAutonomyPolicy, PROJECT, level, map[])
  }

  // One event leads from s to s'.
  predicate Leads(s: State, e: Event, s': State) {
    RacyEnabled(s, e) && s' == RacyStep(s, e)
  }

  lemma Begins(s: State, x: nat)
    requires x !in s.txns
    ensures Leads(s, Begin(x, Some(1)), s.(txns := s.txns[x := Txn(Some(1), Idle, map[], map[], [])]))
  {
  }

  lemma Records(s: State, x: nat, action: nat)
    requires x in s.txns && s.txns[x] == Txn(Some(1), Idle, map[], map[], [])
    requires action !in s.actions && forall y :: y in s.txns ==> action !in s.txns[y].actions
    requires s.grants == [ADMIN]
    ensures Leads(s, Record(x, action, SET_POLICY), s.(txns := s.txns[x := Writer(action, Idle, map[], [])]))
  {
    AdminMaySet();
    hide DatabaseAccepts;
  }

  lemma Enters(s: State, x: nat, action: nat, level: int)
    requires x in s.txns && s.txns[x] == Writer(action, Idle, map[], [])
    ensures Leads(s, Enter(x, action, 7, level, None),
                  s.(txns := s.txns[x := Writer(action, Probing(SetTo(action, level)), map[], [])]))
  {
  }

  lemma ProbesNothing(s: State, x: nat, action: nat, level: int)
    requires x in s.txns && s.txns[x] == Writer(action, Probing(SetTo(action, level)), map[], [])
    requires PROJECT !in s.policies
    ensures Leads(s, Proceed(x, 0),
                  s.(txns := s.txns[x := Writer(action, Updating(SetTo(action, level), None), map[], [])]))
  {
  }

  function Upserted(row: Option<Policy>, level: int): Policy {
    if row.Some? then row.value.(level := level, overrides := map[], writes := row.value.writes + 1)
    else Policy(5, level, map[], 1)
  }

  lemma Upserts(s: State, x: nat, action: nat, level: int)
    requires x in s.txns && s.txns[x] == Writer(action, Updating(SetTo(action, level), None), map[], [])
    requires LevelOk(level) && PROJECT !in s.locks
    ensures Leads(s, Proceed(x, 5),
                  s.(txns := s.txns[x := Writer(action, Spending(SetTo(action, level), None),
                                                map[PROJECT := Upserted(PolicyAt(s.policies, PROJECT), level)], [])],
                     locks := s.locks[PROJECT := x]))
  {
  }

  lemma Spends(s: State, x: nat, action: nat, level: int, p: Policy)
    requires x in s.txns
             && s.txns[x] == Writer(action, Spending(SetTo(action, level), None), map[PROJECT := p], [])
    requires LevelOk(level) && p.level == level && !Spent(s.ledger, action)
    requires forall y :: y in s.txns && y != x ==> s.txns[y].ledger == []
    ensures Leads(s, Proceed(x, 0),
                  s.(txns := s.txns[x := Writer(action, Idle, map[PROJECT := p],
                                                [LedgerRow(PROJECT, action, p.id, None, level, 0)])]))
  {
    var t := s.txns[x];
    var row := LedgerRow(PROJECT, action, p.id, None, level, 0);
    assert SpendStatement(s, t).txn == Writer(action, Idle, map[PROJECT := p], [row]) by {
      assert t.ledger + [row] == [row];
    }
  }

  lemma Appends(run: Run, e: Event, s: State) returns (longer: Run)
    requires RacyRun(run) && Leads(run.states[|run.events|], e, s)
    ensures RacyRun(longer) && longer.states[0] == run.states[0] && longer.states[|longer.events|] == s
  {
    hide RacyStep, RacyEnabled;
    longer := Run(run.states + [s], run.events + [e]);
  }

  // One transaction records its action, enters the writer and probes before any policy exists.
  lemma RunToProbe(run: Run, x: nat, action: nat, level: int) returns (longer: Run)
    requires RacyRun(run)
    requires var s := run.states[|run.events|];
             x !in s.txns && s.grants == [ADMIN] && PROJECT !in s.policies
             && action !in s.actions && forall y :: y in s.txns ==> action !in s.txns[y].actions
    ensures RacyRun(longer) && longer.states[0] == run.states[0]
    ensures var s := run.states[|run.events|];
            longer.states[|longer.events|]
            == s.(txns := s.txns[x := Writer(action, Updating(SetTo(action, level), None), map[], [])])
  {
    hide Leads;
    var s := run.states[|run.events|];
    var s1 := s.(txns := s.txns[x := Txn(Some(1), Idle, map[], map[], [])]);
    var s2 := s.(txns := s1.txns[x := Writer(action, Idle, map[], [])]);
    var s3 := s.(txns := s2.txns[x := Writer(action, Probing(SetTo(action, level)), map[], [])]);
    var s4 := s.(txns := s3.txns[x := Writer(action, Updating(SetTo(action, level), None), map[], [])]);
    Begins(s, x);
    Records(s1, x, action);
    Enters(s2, x, action, level);
    ProbesNothing(s3, x, action, level);
    longer := Appends(run, Begin(x, Some(1)), s1);
    longer := Appends(longer, Record(x, action, SET_POLICY), s2);
    longer := Appends(longer, Enter(x, action, 7, level, None), s3);
    longer := Appends(longer, Proceed(x, 0), s4);
    assert s4.txns == s.txns[x := s4.txns[x]];
  }

  // Having probed nothing, it upserts, spends and commits.
  lemma RunToCommit(run: Run, x: nat, action: nat, level: int) returns (longer: Run)
    requires RacyRun(run) && LevelOk(level)
    requires var s := run.states[|run.events|];
             x in s.txns && s.txns[x] == Writer(action, Updating(SetTo(action, level), None), map[], [])
             && s.locks == map[] && !Spent(s.ledger, action)
             && forall y :: y in s.txns && y != x ==> s.txns[y].ledger == []
    ensures RacyRun(longer) && longer.states[0] == run.states[0]
    ensures var s, n := run.states[|run.events|], longer.states[|longer.events|];
            var p := Upserted(PolicyAt(s.policies, PROJECT), level);
            n == State(s.grants, s.actions[action := SET_POLICY], s.policies[PROJECT := p],
                       s.ledger + [LedgerRow(PROJECT, action, p.id, None, level, 0)], s.txns - {x}, map[])
  {
    hide Leads, RacyStep, RacyEnabled, Spent;
    var s := run.states[|run.events|];
    var p := Upserted(PolicyAt(s.policies, PROJECT), level);
    var row := LedgerRow(PROJECT, action, p.id, None, level, 0);
    var s1 := s.(txns := s.txns[x := Writer(action, Spending(SetTo(action, level), None), map[PROJECT := p], [])],
                 locks := s.locks[PROJECT := x]);
    var s2 := s1.(txns := s1.txns[x := Writer(action, Idle, map[PROJECT := p], [row])]);
    Upserts(s, x, action, level);
    Spends(s1, x, action, level, p);
    longer := Appends(run, Proceed(x, 5), s1);
    longer := Appends(longer, Proceed(x, 0), s2);
    Commits(s2, x);
    longer := Appends(longer, Commit(x), StepCommit(s2, x));
    assert s2.txns - {x} == s.txns - {x};
    assert Release(s2.locks, x) == map[];
  }

  lemma Commits(s: State, x: nat)
    requires x in s.txns && s.txns[x].stage.Idle?
    ensures Leads(s, Commit(x), StepCommit(s, x))
  {
  }

  /** Two first writes under the earlier body can both record that no policy existed before them. */
  lemma RacyLedgerIsNotAChain()
    ensures exists run :: RacyRun(run)
              && !ChainFrom(LevelOf(PolicyAt(run.states[0].policies, PROJECT)),
                            RowsFor(run.states[|run.events|].ledger, PROJECT))
  {
    var run := Run([Empty()], []);
    run := RunToProbe(run, 1, 11, 3);
    run := RunToProbe(run, 2, 12, 2);
    run := RunToCommit(run, 1, 11, 3);
    assert PROJECT in run.states[|run.events|].policies;
    run := RunToCommit(run, 2, 12, 2);
    var row1, row2 := LedgerRow(PROJECT, 11, 5, None, 3, 0), LedgerRow(PROJECT, 12, 5, None, 2, 0);
    assert run.states[|run.events|].ledger == [] + [row1] + [row2];
    RowsForSnoc([], row1, PROJECT);
    RowsForSnoc([] + [row1], row2, PROJECT);
    hide RacyRun, RowsFor;
  }
}
