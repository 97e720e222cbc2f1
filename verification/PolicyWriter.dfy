/** The role-gated policy writer as interleaved READ COMMITTED transactions.

    A transaction sees the committed rows and its own pending ones. A row lock on a policy is also the
    claim of a pending inserter on its unique key; both last until the transaction ends. A step that would
    wait is simply not enabled. A raised exception leaves the transaction with nothing to do but abort. */
module PolicyWriter {
  import opened Options
  import opened Overrides
  import opened Rbac

  // `writes` counts the UPDATEs the row has taken; it stands for updated_at.
  datatype Policy = Policy(id: nat, level: int, overrides: OverrideMap, writes: nat)

  datatype LedgerRow = LedgerRow(key: Key, action: nat, policyId: nat, previous: Option<int>, level: int,
                                 keyCount: nat)

  // The loaded arguments of one call of the writer.
  datatype Call = Call(action: nat, kind: ActionKind, key: Key, level: int, overrides: OverrideMap)

  datatype Refusal =
    | TenantUnset | NoSuchAction | ActionNotAllowed
    | NoExistingPolicy | TightenMayNotChangeLevel | TightenWouldRelaxOverrides
    | LevelOutOfRange | RowUnavailable | ActionAlreadySpent | ChangeCheckFailed | GuardTripped(raise: LedgerRaise)

  datatype LedgerRaise = ChangeActionNotAllowed | ChangeLevelMismatch | ChangeTightenLevelMoved

  // Where a transaction stands inside the writer. Idle and Failed are outside of a call.
  datatype Stage =
    | Idle
    | Probing(call: Call)
    | Inserting(call: Call)
    | Relocking(call: Call, created: bool)
    | Updating(call: Call, previous: Option<int>)
    | Spending(call: Call, previous: Option<int>)
    | Failed(refusal: Refusal)

  datatype Txn = Txn(tenant: Option<nat>, stage: Stage, policies: map<Key, Policy>,
                     actions: map<nat, ActionRow>, ledger: seq<LedgerRow>)

  datatype State = State(grants: seq<Grant>, actions: map<nat, ActionRow>, policies: map<Key, Policy>,
                         ledger: seq<LedgerRow>, txns: map<nat, Txn>, locks: map<Key, nat>)

  datatype Event =
    | Grant(grant: Rbac.Grant)
    | Revoke(index: nat)
    | Begin(txn: nat, tenant: Option<nat>)
    | Record(txn: nat, id: nat, row: ActionRow)
    | Enter(txn: nat, action: nat, project: nat, level: int, newOverrides: Option<OverrideMap>)
    | Proceed(txn: nat, freshId: nat) // the next statement of the call; freshId is for a row it may insert
    | Commit(txn: nat)
    | Abort(txn: nat)

  // ---- reading ----

  function PolicyAt(m: map<Key, Policy>, k: Key): Option<Policy> {
    if k in m then Some(m[k]) else None
  }

  function VisiblePolicy(s: State, t: Txn, k: Key): Option<Policy> {
    if k in t.policies then Some(t.policies[k]) else PolicyAt(s.policies, k)
  }

  function VisibleAction(s: State, t: Txn, id: nat): Option<ActionRow> {
    if id in t.actions then Some(t.actions[id]) else if id in s.actions then Some(s.actions[id]) else None
  }

  function LevelOf(p: Option<Policy>): Option<int> {
    if p.Some? then Some(p.value.level) else None
  }

  predicate LockFree(s: State, txn: nat, k: Key) {
    k in s.locks ==> s.locks[k] == txn
  }

  predicate Spent(ledger: seq<LedgerRow>, action: nat) {
    exists r :: r in ledger && r.action == action
  }

  predicate LevelOk(level: int) {
    0 <= level <= 5
  }

  function Coalesce(m: Option<OverrideMap>): OverrideMap {
    if m.Some? then m.value else map[]
  }

  // ---- the statements of the writer ----

  /** GUC check, action load, decision check. Both action kinds are policy kinds. */
  function EnterStage(s: State, t: Txn, action: nat, project: nat, level: int,
                      newOverrides: Option<OverrideMap>): Stage {
    if t.tenant.None? then Failed(TenantUnset)
    else
      var key := Key(t.tenant.value, project);
      var found := VisibleAction(s, t, action);
      if found.None? || found.value.key != key then Failed(NoSuchAction)
      else if found.value.decision != Allowed then Failed(ActionNotAllowed)
      else Probing(Call(action, found.value.kind, key, level, Coalesce(newOverrides)))
  }

  /** The tighten block and the branch on the probe. */
  function AfterProbe(c: Call, probed: Option<Policy>): Stage {
    if c.kind == TightenAutonomyOverrides && probed.None? then Failed(NoExistingPolicy)
    else if c.kind == TightenAutonomyOverrides && c.level != probed.value.level then
      Failed(TightenMayNotChangeLevel)
    else if c.kind == TightenAutonomyOverrides && !IsMonotonic(probed.value.overrides, c.overrides) then
      Failed(TightenWouldRelaxOverrides)
    else if probed.None? then Inserting(c)
    else Updating(c, LevelOf(probed))
  }

  function ChangeRow(c: Call, previous: Option<int>, policyId: nat): LedgerRow {
    LedgerRow(c.key, c.action, policyId, previous, c.level, |c.overrides|)
  }

  // The CHECKs of admin_policy_changes; a NULL previous level passes.
  predicate ChangeChecks(row: LedgerRow) {
    (row.previous.Some? ==> LevelOk(row.previous.value)) && LevelOk(row.level)
  }

  /** The insert guard of admin_policy_changes, on the action and the policy row it looks up. */
  function GuardOn(found: Option<ActionRow>, policy: Option<Policy>, row: LedgerRow): Option<LedgerRaise> {
    var matched := found.Some? && found.value.key == row.key;
    if !matched || found.value.decision != Allowed then Some(ChangeActionNotAllowed)
    else
      var stored := if policy.Some? && policy.value.id == row.policyId then Some(policy.value.level) else None;
      if stored != Some(row.level) then Some(ChangeLevelMismatch)
      else if found.value.kind == TightenAutonomyOverrides && row.previous != Some(row.level) then
        Some(ChangeTightenLevelMoved)
      else None
  }

  function LedgerGuard(s: State, t: Txn, row: LedgerRow): Option<LedgerRaise> {
    GuardOn(VisibleAction(s, t, row.action), VisiblePolicy(s, t, row.key), row)
  }

  // ---- enabledness and effect ----

  // Outside of a call there is no statement; inside, the next one may have to wait for another transaction.
  predicate Ready(s: State, x: nat)
    requires x in s.txns
  {
    match s.txns[x].stage
    case Probing(c) => c.key in s.policies ==> LockFree(s, x, c.key)
    case Inserting(c) => c.key !in s.policies && LevelOk(c.level) ==> LockFree(s, x, c.key)
    case Relocking(c, _) => c.key in s.policies ==> LockFree(s, x, c.key)
    case Updating(_, _) => true
    case Spending(c, _) => forall y :: y in s.txns && y != x ==> !Spent(s.txns[y].ledger, c.action)
    case _ => false
  }

  predicate Enabled(s: State, e: Event) {
    match e
    case Grant(g) =>
      g.status == Active
      && forall h :: h in s.grants ==> !(h.tenant == g.tenant && h.principal == g.principal && h.role == g.role)
    case Revoke(i) => i < |s.grants| && s.grants[i].status == Active
    case Begin(x, _) => x !in s.txns
    case Record(x, id, row) =>
      && x in s.txns && s.txns[x].stage.Idle?
      && s.txns[x].tenant == Some(row.key.tenant)
      && id !in s.actions && (forall y :: y in s.txns ==> id !in s.txns[y].actions)
      && DatabaseAccepts(row, s.grants)
    case Enter(x, _, _, _, _) => x in s.txns && s.txns[x].stage.Idle?
    case Proceed(x, _) => x in s.txns && Ready(s, x)
    case Commit(x) => x in s.txns && s.txns[x].stage.Idle?
    case Abort(x) => x in s.txns
  }

  // What a statement does to its own transaction, and whether it ends up holding the row lock of its project.
  datatype Effect = Effect(txn: Txn, locks: bool)

  function Moved(t: Txn, stage: Stage, locks: bool): Effect {
    Effect(t.(stage := stage), locks)
  }

  function Wrote(t: Txn, k: Key, p: Policy, stage: Stage): Effect {
    Effect(t.(policies := t.policies[k := p], stage := stage), true)
  }

  // SELECT ... FOR UPDATE, then the tighten block.
  function ProbeStatement(s: State, t: Txn): Effect
    requires t.stage.Probing?
  {
    var c := t.stage.call;
    var probed := VisiblePolicy(s, t, c.key);
    Moved(t, AfterProbe(c, probed), probed.Some?)
  }

  // INSERT ... ON CONFLICT DO NOTHING: the CHECK comes first, then the unique key.
  function InsertStatement(s: State, t: Txn, freshId: nat): Effect
    requires t.stage.Inserting?
  {
    var c := t.stage.call;
    if !LevelOk(c.level) then Moved(t, Failed(LevelOutOfRange), false)
    else if VisiblePolicy(s, t, c.key).Some? then Moved(t, Relocking(c, false), false)
    else Wrote(t, c.key, Policy(freshId, c.level, c.overrides, 0), Relocking(c, true))
  }

  // SELECT ... FOR UPDATE again; a row of its own making has no previous level.
  function RelockStatement(s: State, t: Txn): Effect
    requires t.stage.Relocking?
  {
    var c := t.stage.call;
    var row := VisiblePolicy(s, t, c.key);
    if row.None? then Moved(t, Failed(RowUnavailable), false)
    else Moved(t, Updating(c, if t.stage.created then None else LevelOf(row)), true)
  }

  function UpdateStatement(s: State, t: Txn): Effect
    requires t.stage.Updating?
  {
    var c := t.stage.call;
    var row := VisiblePolicy(s, t, c.key);
    if !LevelOk(c.level) then Moved(t, Failed(LevelOutOfRange), false)
    else if row.None? then Moved(t, Spending(c, t.stage.previous), false)
    else
      Wrote(t, c.key, row.value.(level := c.level, overrides := c.overrides, writes := row.value.writes + 1),
            Spending(c, t.stage.previous))
  }

  function Spend(t: Txn, row: LedgerRow): Txn {
    t.(ledger := t.ledger + [row], stage := Idle)
  }

  // INSERT into the ledger. Without a policy row there is no id to cite and the guard refuses.
  function SpendStatement(s: State, t: Txn): Effect
    requires t.stage.Spending?
  {
    var c := t.stage.call;
    var policy := VisiblePolicy(s, t, c.key);
    if policy.None? then Moved(t, Failed(GuardTripped(ChangeLevelMismatch)), false)
    else
      var row := ChangeRow(c, t.stage.previous, policy.value.id);
      var guard := LedgerGuard(s, t, row);
      if guard.Some? then Moved(t, Failed(GuardTripped(guard.value)), false)
      else if !ChangeChecks(row) then Moved(t, Failed(ChangeCheckFailed), false)
      else if Spent(s.ledger, c.action) || Spent(t.ledger, c.action) then
        Moved(t, Failed(ActionAlreadySpent), false)
      else Effect(Spend(t, row), false)
  }

  predicate InCall(t: Txn) {
    !t.stage.Idle? && !t.stage.Failed?
  }

  function Statement(s: State, t: Txn, freshId: nat): Effect
    requires InCall(t)
  {
    match t.stage
    case Probing(_) => ProbeStatement(s, t)
    case Inserting(_) => InsertStatement(s, t, freshId)
    case Relocking(_, _) => RelockStatement(s, t)
    case Updating(_, _) => UpdateStatement(s, t)
    case Spending(_, _) => SpendStatement(s, t)
  }

  function Apply(s: State, x: nat, effect: Effect): State
    requires x in s.txns && InCall(s.txns[x])
  {
    s.(txns := s.txns[x := effect.txn],
       locks := if effect.locks then s.locks[s.txns[x].stage.call.key := x] else s.locks)
  }

  function Release(locks: map<Key, nat>, x: nat): map<Key, nat> {
    map k | k in locks && locks[k] != x :: locks[k]
  }

  function StepCommit(s: State, x: nat): State
    requires x in s.txns
  {
    var t := s.txns[x];
    State(s.grants, s.actions + t.actions, s.policies + t.policies, s.ledger + t.ledger, s.txns - {x},
          Release(s.locks, x))
  }

  function Step(s: State, e: Event): State
    requires Enabled(s, e)
  {
    match e
    case Grant(g) => s.(grants := s.grants + [g])
    case Revoke(i) => s.(grants := s.grants[i := s.grants[i].(status := Revoked)])
    case Begin(x, tenant) => s.(txns := s.txns[x := Txn(tenant, Idle, map[], map[], [])])
    case Record(x, id, row) =>
      var t := s.txns[x];
      s.(txns := s.txns[x := t.(actions := t.actions[id := row])])
    case Enter(x, action, project, level, m) =>
      s.(txns := s.txns[x := s.txns[x].(stage := EnterStage(s, s.txns[x], action, project, level, m))])
    case Proceed(x, freshId) => Apply(s, x, Statement(s, s.txns[x], freshId))
    case Commit(x) => StepCommit(s, x)
    case Abort(x) => s.(txns := s.txns - {x}, locks := Release(s.locks, x))
  }

  // A database into which nothing has been recorded yet; policies and grants may already exist.
  predicate Initial(s: State) {
    && s.actions == map[] && s.ledger == [] && s.txns == map[] && s.locks == map[]
    && forall k :: k in s.policies ==> LevelOk(s.policies[k].level)
  }

  datatype Run = Run(states: seq<State>, events: seq<Event>) {
    predicate Valid() {
      && |states| == |events| + 1
      && Initial(states[0])
      && forall i :: 0 <= i < |events| ==> Enabled(states[i], events[i]) && states[i + 1] == Step(states[i], events[i])
    }

    function Last(): State
      requires Valid()
    {
      states[|events|]
    }
  }
}
