/** The body of the writer as it executes: local variables, row updates, and a rollback on every raise. */
module PolicyTables {
  import opened Options
  import opened Overrides
  import opened Rbac
  import opened PolicyWriter

  // The outcome of a call that nobody interrupts.
  datatype Tables = Tables(policies: map<Key, Policy>, ledger: seq<LedgerRow>)

  /** What one call of the writer does to the tables, said without its statements: the refusal that comes
      first, or the policy row with the new level and overrides and one ledger row citing the level before. */
  function SoloWrite(tables: Tables, actions: map<nat, ActionRow>, tenant: Option<nat>, action: nat, project: nat,
                     level: int, newOverrides: OverrideMap, freshId: nat): Result<Tables, Refusal> {
    if tenant.None? then Err(TenantUnset)
    else
      var key := Key(tenant.value, project);
      var before := PolicyAt(tables.policies, key);
      if action !in actions || actions[action].key != key then Err(NoSuchAction)
      else if actions[action].decision != Allowed then Err(ActionNotAllowed)
      else if actions[action].kind == TightenAutonomyOverrides && before.None? then Err(NoExistingPolicy)
      else if actions[action].kind == TightenAutonomyOverrides && before.value.level != level then
        Err(TightenMayNotChangeLevel)
      else if actions[action].kind == TightenAutonomyOverrides
              && !IsMonotonic(before.value.overrides, newOverrides) then Err(TightenWouldRelaxOverrides)
      else if !LevelOk(level) then Err(LevelOutOfRange)
      else if before.Some? && !LevelOk(before.value.level) then Err(ChangeCheckFailed)
      else if Spent(tables.ledger, action) then Err(ActionAlreadySpent)
      else
        var id := if before.Some? then before.value.id else freshId;
        var writes := if before.Some? then before.value.writes else 0;
        Ok(Tables(tables.policies[key := Policy(id, level, newOverrides, writes + 1)],
                  tables.ledger + [LedgerRow(key, action, id, LevelOf(before), level, |newOverrides|)]))
  }

  // The call's transaction has a tenant and its action is an allowed one of that tenant and project.
  predicate Authorized(actions: map<nat, ActionRow>, tenant: Option<nat>, action: nat, project: nat) {
    && tenant.Some? && action in actions
    && actions[action].key == Key(tenant.value, project) && actions[action].decision == Allowed
  }

  /** An authorized tighten of a stored policy at its own level is refused as relaxing exactly when it drops an
      overridden action or loosens one of its fields. */
  lemma RefusedExactlyWhenItRelaxes(tables: Tables, actions: map<nat, ActionRow>, tenant: Option<nat>, action: nat,
                                    project: nat, newOverrides: OverrideMap, freshId: nat)
    requires Authorized(actions, tenant, action, project) && actions[action].kind == TightenAutonomyOverrides
    requires Key(tenant.value, project) in tables.policies
    ensures var before := tables.policies[Key(tenant.value, project)];
            SoloWrite(tables, actions, tenant, action, project, before.level, newOverrides, freshId)
            == Err(TightenWouldRelaxOverrides)
            <==> exists a :: a in before.overrides
                   && (|| a !in newOverrides
                       || (before.overrides[a].allow.Some? && newOverrides[a].allow != Some(false))
                       || (before.overrides[a].requiresApproval.Some?
                           && newOverrides[a].requiresApproval != Some(true))
                       || (before.overrides[a].minLevel.Some?
                           && (newOverrides[a].minLevel.None?
                               || newOverrides[a].minLevel.value < before.overrides[a].minLevel.value)))
  {
    var o := tables.policies[Key(tenant.value, project)].overrides;
    if !IsMonotonic(o, newOverrides) {
      var a :| a in o && !(a in newOverrides && Tightens(o[a], newOverrides[a]));
      assert a in o;
    } else {
      assert forall a :: a in o ==> a in newOverrides && Tightens(o[a], newOverrides[a]);
    }
  }

  /** When a call writes: the action is authorized and not yet spent, the level and any stored level lie
      between 0 and 5, and a tighten finds a policy at its level and drops or loosens no override of it. */
  lemma WritesExactlyWhen(tables: Tables, actions: map<nat, ActionRow>, tenant: Option<nat>, action: nat, project: nat,
                          level: int, newOverrides: OverrideMap, freshId: nat)
    ensures SoloWrite(tables, actions, tenant, action, project, level, newOverrides, freshId).Ok? <==>
            && Authorized(actions, tenant, action, project)
            && (forall r :: r in tables.ledger ==> r.action != action)
            && 0 <= level <= 5
            && var key := Key(tenant.value, project);
               && (key in tables.policies ==> 0 <= tables.policies[key].level <= 5)
               && (actions[action].kind == TightenAutonomyOverrides ==>
                     && key in tables.policies && tables.policies[key].level == level
                     && var o, n := tables.policies[key].overrides, newOverrides;
                        forall a :: a in o ==>
                          && a in n
                          && (o[a].allow.Some? ==> n[a].allow == Some(false))
                          && (o[a].requiresApproval.Some? ==> n[a].requiresApproval == Some(true))
                          && (o[a].minLevel.Some? ==> n[a].minLevel.Some? && n[a].minLevel.value >= o[a].minLevel.value))
  {
    if Authorized(actions, tenant, action, project) && Key(tenant.value, project) in tables.policies {
      var o := tables.policies[Key(tenant.value, project)].overrides;
      assert IsMonotonic(o, newOverrides) ==> forall a :: a in o ==> a in newOverrides && Tightens(o[a], newOverrides[a]);
    }
  }

  /** What the insert guard, the CHECKs and the unique key of the ledger let in, and which raise refuses the rest. */
  lemma ChangeRefusals(found: Option<ActionRow>, policy: Option<Policy>, ledger: seq<LedgerRow>, row: LedgerRow)
    ensures var allowed := found.Some? && found.value.key == row.key && found.value.decision == Allowed;
            var cited := policy.Some? && policy.value.id == row.policyId && policy.value.level == row.level;
            && (GuardOn(found, policy, row) == Some(ChangeActionNotAllowed) <==> !allowed)
            && (GuardOn(found, policy, row) == Some(ChangeLevelMismatch) <==> allowed && !cited)
            && (GuardOn(found, policy, row) == Some(ChangeTightenLevelMoved) <==>
                  allowed && cited && found.value.kind == TightenAutonomyOverrides && row.previous != Some(row.level))
    ensures ChangeChecks(row) <==> 0 <= row.level <= 5 && (row.previous.None? || 0 <= row.previous.value <= 5)
    ensures Spent(ledger, row.action) <==> exists i :: 0 <= i < |ledger| && ledger[i].action == row.action
  {
    if i :| 0 <= i < |ledger| && ledger[i].action == row.action {
      assert ledger[i] in ledger;
    }
  }

  class PolicyDatabase {
    var actions: map<nat, ActionRow>
    var policies: map<Key, Policy>
    var ledger: seq<LedgerRow>

    constructor (actions: map<nat, ActionRow>, policies: map<Key, Policy>, ledger: seq<LedgerRow>)
      ensures this.actions == actions && this.policies == policies && this.ledger == ledger
    {
      this.actions, this.policies, this.ledger := actions, policies, ledger;
    }

    function RowGuard(row: LedgerRow): Option<LedgerRaise>
      reads this`actions, this`policies
    {
      GuardOn(if row.action in actions then Some(actions[row.action]) else None, PolicyAt(policies, row.key), row)
    }

    /** The ledger's insert guard and CHECKs, then its unique key. */
    method InsertChange(row: LedgerRow) returns (raised: Option<Refusal>)
      modifies this`ledger
      ensures raised == if RowGuard(row).Some? then Some(GuardTripped(RowGuard(row).value))
                        else if !ChangeChecks(row) then Some(ChangeCheckFailed)
                        else if Spent(old(ledger), row.action) then Some(ActionAlreadySpent)
                        else None
      ensures ledger == if raised.None? then old(ledger) + [row] else old(ledger)
    {
      var guard := RowGuard(row);
      if guard.Some? {
        return Some(GuardTripped(guard.value));
      }
      if !ChangeChecks(row) {
        return Some(ChangeCheckFailed);
      }
      var i := 0;
      while i < |ledger|
        invariant 0 <= i <= |ledger|
        invariant forall j :: 0 <= j < i ==> ledger[j].action != row.action
      {
        if ledger[i].action == row.action {
          return Some(ActionAlreadySpent);
        }
        i := i + 1;
      }
      ledger := ledger + [row];
      return None;
    }

    /** One call, nobody else writing. It either does exactly what SoloWrite says or leaves the tables alone. */
    method WriteAutonomyPolicy(tenant: Option<nat>, action: nat, project: nat, level: int,
                               newOverrides: Option<OverrideMap>, freshId: nat)
      returns (raised: Option<Refusal>)
      modifies this`policies, this`ledger
      ensures var outcome := SoloWrite(Tables(old(policies), old(ledger)), actions, tenant, action, project, level,
                                       if newOverrides.Some? then newOverrides.value else map[], freshId);
              match outcome
              case Ok(tables) => raised.None? && policies == tables.policies && ledger == tables.ledger
              case Err(refusal) => raised == Some(refusal) && policies == old(policies) && ledger == old(ledger)
    {
      if tenant.None? {
        return Some(TenantUnset);
      }
      var key := Key(tenant.value, project);
      if action !in actions || actions[action].key != key {
        return Some(NoSuchAction);
      }
      if actions[action].decision != Allowed {
        return Some(ActionNotAllowed);
      }
      var start := policies;
      var found, created := key in policies, false;
      var previous := LevelOf(PolicyAt(policies, key));
      if actions[action].kind == TightenAutonomyOverrides {
        if !found {
          return Some(NoExistingPolicy);
        }
        if Some(level) != previous {
          return Some(TightenMayNotChangeLevel);
        }
        if !IsMonotonic(policies[key].overrides, Coalesce(newOverrides)) {
          return Some(TightenWouldRelaxOverrides);
        }
      }
      if !LevelOk(level) {
        return Some(LevelOutOfRange);
      }
      if !found {
        policies := policies[key := Policy(freshId, level, Coalesce(newOverrides), 0)];
        created := true;
        previous := LevelOf(PolicyAt(policies, key));
        if created {
          previous := None;
        }
      }
      var row := policies[key];
      policies := policies[key := row.(level := level, overrides := Coalesce(newOverrides), writes := row.writes + 1)];
      raised := InsertChange(LedgerRow(key, action, row.id, previous, level, |Coalesce(newOverrides)|));
      if raised.Some? {
        policies := start;
      }
    }
  }

  // ---- the interleaved statements, run to the end of the call, do the same ----

  function Remaining(stage: Stage): nat {
    match stage
    case Probing(_) => 5
    case Inserting(_) => 4
    case Relocking(_, _) => 3
    case Updating(_, _) => 2
    case Spending(_, _) => 1
    case _ => 0
  }

  // The transaction after the rest of its call, if nobody else commits meanwhile.
  function Finish(s: State, t: Txn, freshId: nat): Txn
    decreases Remaining(t.stage)
  {
    if InCall(t) then Finish(s, Statement(s, t, freshId).txn, freshId) else t
  }

  lemma FinishStep(s: State, t: Txn, freshId: nat)
    requires InCall(t)
    ensures Finish(s, t, freshId) == Finish(s, Statement(s, t, freshId).txn, freshId)
  {
  }

  lemma FinishUpdating(s: State, t: Txn, freshId: nat)
    requires t.stage.Updating? && LevelOk(t.stage.call.level) && VisiblePolicy(s, t, t.stage.call.key).Some?
    ensures var c := t.stage.call;
            var row := VisiblePolicy(s, t, c.key).value;
            var t' := t.(policies := t.policies[c.key := row.(level := c.level, overrides := c.overrides, writes := row.writes + 1)],
                         stage := Spending(c, t.stage.previous));
            Finish(s, t, freshId) == SpendStatement(s, t').txn
  {
    var t1 := Statement(s, t, freshId).txn;
    FinishStep(s, t, freshId);
    FinishStep(s, t1, freshId);
    assert !InCall(SpendStatement(s, t1).txn);
  }

  lemma FinishInserting(s: State, t: Txn, freshId: nat)
    requires t.stage.Inserting? && LevelOk(t.stage.call.level) && VisiblePolicy(s, t, t.stage.call.key).None?
    ensures var c := t.stage.call;
            var t' := t.(policies := t.policies[c.key := Policy(freshId, c.level, c.overrides, 1)],
                         stage := Spending(c, None));
            Finish(s, t, freshId) == SpendStatement(s, t').txn
  {
    var c := t.stage.call;
    var p := Policy(freshId, c.level, c.overrides, 0);
    var t1 := t.(policies := t.policies[c.key := p], stage := Relocking(c, true));
    var t2 := t1.(stage := Updating(c, None));
    assert Statement(s, t, freshId).txn == t1;
    assert Statement(s, t1, freshId).txn == t2;
    FinishStep(s, t, freshId);
    FinishStep(s, t1, freshId);
    FinishUpdating(s, t2, freshId);
    assert t1.policies[c.key := p.(writes := 1)] == t.policies[c.key := p.(writes := 1)];
    hide Finish, Statement;
  }

  // The pending rows of a finished call, or its refusal, are those of the outcome.
  predicate Matches(s: State, done: Txn, outcome: Result<Tables, Refusal>) {
    match outcome
    case Ok(tables) => done.stage.Idle? && tables == Tables(s.policies + done.policies, s.ledger + done.ledger)
    case Err(refusal) => done.stage == Failed(refusal)
  }

  lemma SpendsLaterWrite(s: State, tenant: nat, c: Call, freshId: nat)
    requires c.key.tenant == tenant && c.key in s.policies && LevelOk(c.level)
    requires c.kind == TightenAutonomyOverrides ==>
               c.level == s.policies[c.key].level && IsMonotonic(s.policies[c.key].overrides, c.overrides)
    requires c.action in s.actions && s.actions[c.action].key == c.key
             && s.actions[c.action].decision == Allowed && s.actions[c.action].kind == c.kind
    ensures var row := s.policies[c.key];
            var written := map[c.key := Policy(row.id, c.level, c.overrides, row.writes + 1)];
            Matches(s, SpendStatement(s, Txn(Some(tenant), Spending(c, Some(row.level)), written, map[], [])).txn,
                    SoloWrite(Tables(s.policies, s.ledger), s.actions, Some(tenant), c.action, c.key.project, c.level,
                              c.overrides, freshId))
  {
    hide IsMonotonic;
  }

  lemma CallOnStoredRow(s: State, tenant: nat, c: Call, freshId: nat)
    requires c.key.tenant == tenant && c.key in s.policies
    requires c.action in s.actions && s.actions[c.action].key == c.key
             && s.actions[c.action].decision == Allowed && s.actions[c.action].kind == c.kind
    ensures Matches(s, Finish(s, Txn(Some(tenant), Probing(c), map[], map[], []), freshId),
                    SoloWrite(Tables(s.policies, s.ledger), s.actions, Some(tenant), c.action, c.key.project, c.level,
                              c.overrides, freshId))
  {
    hide IsMonotonic, SpendStatement, Spent;
    var t0 := Txn(Some(tenant), Probing(c), map[], map[], []);
    var t1 := Statement(s, t0, freshId).txn;
    FinishStep(s, t0, freshId);
    if InCall(t1) {
      if LevelOk(c.level) {
        FinishUpdating(s, t1, freshId);
        SpendsLaterWrite(s, tenant, c, freshId);
      } else {
        FinishStep(s, t1, freshId);
      }
    }
  }

  lemma SpendsFirstWrite(s: State, tenant: nat, c: Call, freshId: nat)
    requires c.key.tenant == tenant && c.key !in s.policies && LevelOk(c.level) && c.kind == SetAutonomyPolicy
    requires c.action in s.actions && s.actions[c.action].key == c.key
             && s.actions[c.action].decision == Allowed && s.actions[c.action].kind == c.kind
    ensures var written := map[c.key := Policy(freshId, c.level, c.overrides, 1)];
            Matches(s, SpendStatement(s, Txn(Some(tenant), Spending(c, None), written, map[], [])).txn,
                    SoloWrite(Tables(s.policies, s.ledger), s.actions, Some(tenant), c.action, c.key.project, c.level,
                              c.overrides, freshId))
  {
    hide IsMonotonic;
  }

  lemma CallOnMissingRow(s: State, tenant: nat, c: Call, freshId: nat)
    requires c.key.tenant == tenant && c.key !in s.policies
    requires c.action in s.actions && s.actions[c.action].key == c.key
             && s.actions[c.action].decision == Allowed && s.actions[c.action].kind == c.kind
    ensures Matches(s, Finish(s, Txn(Some(tenant), Probing(c), map[], map[], []), freshId),
                    SoloWrite(Tables(s.policies, s.ledger), s.actions, Some(tenant), c.action, c.key.project, c.level,
                              c.overrides, freshId))
  {
    hide IsMonotonic, SpendStatement, Spent;
    var t0 := Txn(Some(tenant), Probing(c), map[], map[], []);
    var t1 := Statement(s, t0, freshId).txn;
    FinishStep(s, t0, freshId);
    if InCall(t1) {
      if LevelOk(c.level) {
        FinishInserting(s, t1, freshId);
        SpendsFirstWrite(s, tenant, c, freshId);
      } else {
        FinishStep(s, t1, freshId);
      }
    }
  }

  /** A new transaction that runs a call of the writer to its end has pending exactly what SoloWrite says, or
      has failed with the same refusal. */
  lemma UninterruptedCallIsSoloWrite(s: State, tenant: Option<nat>, action: nat, project: nat, level: int,
                                     newOverrides: Option<OverrideMap>, freshId: nat)
    ensures var idle := Txn(tenant, Idle, map[], map[], []);
            var entered := idle.(stage := EnterStage(s, idle, action, project, level, newOverrides));
            Matches(s, Finish(s, entered, freshId),
                    SoloWrite(Tables(s.policies, s.ledger), s.actions, tenant, action, project, level,
                              if newOverrides.Some? then newOverrides.value else map[], freshId))
  {
    var idle := Txn(tenant, Idle, map[], map[], []);
    var stage := EnterStage(s, idle, action, project, level, newOverrides);
    if stage.Probing? {
      if stage.call.key in s.policies {
        CallOnStoredRow(s, tenant.value, stage.call, freshId);
      } else {
        CallOnMissingRow(s, tenant.value, stage.call, freshId);
      }
    }
    hide Statement;
  }
}
