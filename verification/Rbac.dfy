/** Role ranks, the authorization partition, and the guard on admin_actions. */
module Rbac {
  import opened Options

  datatype Role = TenantViewer | TenantOperator | TenantAdmin
  datatype ActionKind = SetAutonomyPolicy | TightenAutonomyOverrides
  datatype Decision = Allowed | RefusedUnauthenticatedActor | RefusedNoGrant | RefusedInsufficientRole
  datatype Provenance = CallerSuppliedUnverified | RequestAuthenticated
  datatype GrantStatus = Active | Revoked

  datatype Grant = Grant(tenant: nat, principal: string, role: Role, status: GrantStatus)

  // The key of a project: projects are addressed together with their tenant.
  datatype Key = Key(tenant: nat, project: nat)

  datatype ActionRow = ActionRow(key: Key, kind: ActionKind, principal: string, provenance: Provenance,
                                 required: Role, actorRole: Option<Role>, decision: Decision)

  datatype Authorization = Authorization(decision: Decision, required: Role, actorRole: Option<Role>)

  function Rank(r: Role): int {
    match r
    case TenantViewer => 1
    case TenantOperator => 2
    case TenantAdmin => 3
  }

  function RankOf(r: Option<Role>): Option<int> {
    if r.Some? then Some(Rank(r.value)) else None
  }

  function RequiredRole(kind: ActionKind): Role {
    match kind
    case SetAutonomyPolicy => TenantAdmin
    case TightenAutonomyOverrides => TenantOperator
  }

  predicate Holds(g: Grant, tenant: nat, principal: string) {
    g.tenant == tenant && g.principal == principal && g.status == Active
  }

  // The active grants of one principal in one tenant, in table order.
  function ActiveGrants(rows: seq<Grant>, tenant: nat, principal: string): (active: seq<Grant>)
    ensures forall g :: g in active <==> g in rows && Holds(g, tenant, principal)
  {
    if rows == [] then []
    else (if Holds(rows[0], tenant, principal) then [rows[0]] else []) + ActiveGrants(rows[1..], tenant, principal)
  }

  // `max` with a rank key: the first grant of greatest rank.
  function HighestGrant(active: seq<Grant>): (g: Grant)
    requires active != []
    ensures g in active
    ensures forall h :: h in active ==> Rank(h.role) <= Rank(g.role)
  {
    if |active| == 1 then active[0]
    else
      var rest := HighestGrant(active[1..]);
      assert forall h :: h in active ==> h == active[0] || h in active[1..];
      if Rank(rest.role) > Rank(active[0].role) then rest else active[0]
  }

  /** The partition of the recorded grant state: every request gets one decision. */
  function EvaluateAuthorization(tenant: nat, kind: ActionKind, principal: string, provenance: Provenance,
                                 grants: seq<Grant>): Authorization {
    var required := RequiredRole(kind);
    if provenance != RequestAuthenticated then
      Authorization(RefusedUnauthenticatedActor, required, None)
    else
      var active := ActiveGrants(grants, tenant, principal);
      if active == [] then
        Authorization(RefusedNoGrant, required, None)
      else
        var held := HighestGrant(active);
        if Rank(held.role) < Rank(required) then
          Authorization(RefusedInsufficientRole, required, Some(held.role))
        else
          Authorization(Allowed, required, Some(held.role))
  }

  // ---- the database side: aggregates over the active grants, NULL when there are none ----

  function MaxRank(active: seq<Grant>): Option<int> {
    if active == [] then None
    else
      var rest := MaxRank(active[1..]);
      if rest.Some? && rest.value > Rank(active[0].role) then rest else Some(Rank(active[0].role))
  }

  // bool_or(g.admin_role = NEW.actor_role): NULL inputs are skipped, and so is an empty input.
  function AnyHasRole(active: seq<Grant>, role: Option<Role>): SqlBool {
    if active == [] || role.None? then None
    else SqlOr(Some(active[0].role == role.value),
               if active[1..] == [] then Some(false) else AnyHasRole(active[1..], role))
  }

  // The CHECK constraints of admin_actions that relate its columns.
  predicate ActionChecks(row: ActionRow) {
    && row.required == RequiredRole(row.kind)
    && CheckPasses(SqlOr(Some(row.decision != Allowed),
                         SqlAtLeast(RankOf(row.actorRole), Some(Rank(row.required)))))
    && CheckPasses(SqlOr(Some(row.decision != RefusedInsufficientRole),
                         SqlLess(RankOf(row.actorRole), Some(Rank(row.required)))))
    && (row.actorRole.Some? == (row.decision in {Allowed, RefusedInsufficientRole}))
    && ((row.provenance == CallerSuppliedUnverified) == (row.decision == RefusedUnauthenticatedActor))
  }

  datatype GuardRaise = NoActiveGrantForRecordedRole | ActorRoleIsNotHighestActiveGrant
                      | HighestActiveGrantRankBelowRequired | SufficientActiveGrantExists
                      | ActiveGrantExistsForPrincipal

  /** The insert guard of admin_actions, raise by raise. */
  function ActionGuard(row: ActionRow, grants: seq<Grant>): Option<GuardRaise> {
    var active := ActiveGrants(grants, row.key.tenant, row.principal);
    var maxRank := MaxRank(active);
    var hasRole := AnyHasRole(active, row.actorRole);
    var actorRank := RankOf(row.actorRole);
    var requiredRank := Some(Rank(row.required));
    match row.decision
    case Allowed =>
      if hasRole != Some(true) then Some(NoActiveGrantForRecordedRole)
      else if actorRank != maxRank then Some(ActorRoleIsNotHighestActiveGrant)
      else if IfTaken(SqlLess(maxRank, requiredRank)) then Some(HighestActiveGrantRankBelowRequired)
      else None
    case RefusedInsufficientRole =>
      if hasRole != Some(true) then Some(NoActiveGrantForRecordedRole)
      else if actorRank != maxRank then Some(ActorRoleIsNotHighestActiveGrant)
      else if IfTaken(SqlNot(SqlLess(maxRank, requiredRank))) then Some(SufficientActiveGrantExists)
      else None
    case RefusedNoGrant =>
      if |active| != 0 then Some(ActiveGrantExistsForPrincipal) else None
    case RefusedUnauthenticatedActor => None
  }

  predicate DatabaseAccepts(row: ActionRow, grants: seq<Grant>) {
    ActionChecks(row) && ActionGuard(row, grants).None?
  }

  lemma {:induction false} AggregatesAgree(active: seq<Grant>, role: Option<Role>)
    ensures active == [] ==> MaxRank(active).None?
    ensures active != [] ==> MaxRank(active) == Some(Rank(HighestGrant(active).role))
    ensures AnyHasRole(active, role) == Some(true) <==> role.Some? && exists g :: g in active && g.role == role.value
  {
    if active != [] {
      AggregatesAgree(active[1..], role);
      assert forall h :: h in active <==> h == active[0] || h in active[1..];
      if role.Some? && active[0].role == role.value {
        assert active[0] in active;
      }
    }
  }

  // The guard in terms of the highest active grant.
  lemma GuardByHighestGrant(row: ActionRow, grants: seq<Grant>)
    ensures var active := ActiveGrants(grants, row.key.tenant, row.principal);
            ActionGuard(row, grants).None? <==>
            match row.decision
            case Allowed => active != [] && row.actorRole == Some(HighestGrant(active).role)
                            && Rank(row.required) <= Rank(HighestGrant(active).role)
            case RefusedInsufficientRole => active != [] && row.actorRole == Some(HighestGrant(active).role)
                            && Rank(HighestGrant(active).role) < Rank(row.required)
            case RefusedNoGrant => active == []
            case RefusedUnauthenticatedActor => true
  {
    var active := ActiveGrants(grants, row.key.tenant, row.principal);
    AggregatesAgree(active, row.actorRole);
    hide ActiveGrants, HighestGrant, MaxRank, AnyHasRole;
  }

  /** What the CHECKs and the guard let through is exactly what the evaluation returns. */
  lemma DatabaseAcceptsExactlyTheEvaluation(row: ActionRow, grants: seq<Grant>)
    ensures DatabaseAccepts(row, grants) <==>
            Authorization(row.decision, row.required, row.actorRole)
            == EvaluateAuthorization(row.key.tenant, row.kind, row.principal, row.provenance, grants)
  {
    GuardByHighestGrant(row, grants);
    hide ActiveGrants, HighestGrant, ActionGuard;
  }

  lemma HighestRankIsOrderFree(a: seq<Grant>, b: seq<Grant>)
    requires forall g :: g in a <==> g in b
    requires a != []
    ensures b != [] && HighestGrant(a).role == HighestGrant(b).role
  {
    assert a[0] in b;
    assert HighestGrant(a) in b && HighestGrant(b) in a;
  }

  /** The evaluation depends on the set of grants only, so a query may return them in any order. */
  lemma EvaluationIgnoresOrder(tenant: nat, kind: ActionKind, principal: string, provenance: Provenance,
                               a: seq<Grant>, b: seq<Grant>)
    requires forall g :: Holds(g, tenant, principal) ==> (g in a <==> g in b)
    ensures EvaluateAuthorization(tenant, kind, principal, provenance, a)
            == EvaluateAuthorization(tenant, kind, principal, provenance, b)
  {
    var x, y := ActiveGrants(a, tenant, principal), ActiveGrants(b, tenant, principal);
    assert forall g :: g in x <==> g in y;
    if y != [] {
      assert y[0] in x;
    }
    if x != [] {
      HighestRankIsOrderFree(x, y);
    }
    hide ActiveGrants, HighestGrant;
  }

  // ---- the same, read off the grant rows: admin stands above operator, operator above viewer ----

  predicate HasGrant(grants: seq<Grant>, tenant: nat, principal: string, role: Role) {
    Grant(tenant, principal, role, Active) in grants
  }

  function HighestHeld(grants: seq<Grant>, tenant: nat, principal: string): Option<Role> {
    if HasGrant(grants, tenant, principal, TenantAdmin) then Some(TenantAdmin)
    else if HasGrant(grants, tenant, principal, TenantOperator) then Some(TenantOperator)
    else if HasGrant(grants, tenant, principal, TenantViewer) then Some(TenantViewer)
    else None
  }

  predicate Below(a: Role, b: Role) {
    (a == TenantViewer && b != TenantViewer) || (a == TenantOperator && b == TenantAdmin)
  }

  // An administrator may do both; an operator may tighten.
  predicate Entitled(grants: seq<Grant>, tenant: nat, principal: string, kind: ActionKind) {
    || HasGrant(grants, tenant, principal, TenantAdmin)
    || (kind == TightenAutonomyOverrides && HasGrant(grants, tenant, principal, TenantOperator))
  }

  lemma HeldRank(grants: seq<Grant>, tenant: nat, principal: string, role: Role)
    requires HasGrant(grants, tenant, principal, role)
    ensures var active := ActiveGrants(grants, tenant, principal);
            active != [] && Rank(role) <= Rank(HighestGrant(active).role)
  {
    assert Grant(tenant, principal, role, Active) in ActiveGrants(grants, tenant, principal);
  }

  lemma HighestGrantIsHeld(grants: seq<Grant>, tenant: nat, principal: string)
    ensures var active := ActiveGrants(grants, tenant, principal);
            HighestHeld(grants, tenant, principal)
            == if active == [] then None else Some(HighestGrant(active).role)
  {
    hide ActiveGrants, HighestGrant;
    var active := ActiveGrants(grants, tenant, principal);
    if active != [] {
      var held := HighestGrant(active);
      assert Holds(held, tenant, principal);
      assert held == Grant(tenant, principal, held.role, Active);
    }
    if role :| HasGrant(grants, tenant, principal, role) {
      HeldRank(grants, tenant, principal, HighestHeld(grants, tenant, principal).value);
    }
  }

  lemma RankIsBelow(a: Role, b: Role)
    ensures Rank(a) < Rank(b) <==> Below(a, b)
  {
  }

  /** The partition in terms of the grant rows: which decision a request gets, which role is recorded as
      required, and that the actor's recorded role is the highest it holds. */
  lemma EvaluationMeans(tenant: nat, kind: ActionKind, principal: string, provenance: Provenance,
                        grants: seq<Grant>)
    ensures var a := EvaluateAuthorization(tenant, kind, principal, provenance, grants);
            var asked := provenance == RequestAuthenticated;
            var held := HighestHeld(grants, tenant, principal);
            && (a.decision == RefusedUnauthenticatedActor <==> !asked)
            && (a.decision == RefusedNoGrant <==> asked && held.None?)
            && (a.decision == RefusedInsufficientRole <==>
                  asked && held.Some? && !Entitled(grants, tenant, principal, kind))
            && (a.decision == Allowed <==> asked && Entitled(grants, tenant, principal, kind))
            && a.required == (if kind == SetAutonomyPolicy then TenantAdmin else TenantOperator)
            && a.actorRole == (if asked then held else None)
  {
    HighestGrantIsHeld(grants, tenant, principal);
    hide ActiveGrants, HighestGrant;
  }

  /** The CHECK constraints of admin_actions, decision by decision. */
  lemma ChecksMean(row: ActionRow)
    ensures ActionChecks(row) <==>
            && row.required == (if row.kind == SetAutonomyPolicy then TenantAdmin else TenantOperator)
            && (row.provenance == CallerSuppliedUnverified <==> row.decision == RefusedUnauthenticatedActor)
            && match row.decision
               case Allowed => row.actorRole.Some? && !Below(row.actorRole.value, row.required)
               case RefusedInsufficientRole => row.actorRole.Some? && Below(row.actorRole.value, row.required)
               case RefusedNoGrant => row.actorRole.None?
               case RefusedUnauthenticatedActor => row.actorRole.None?
  {
    if row.actorRole.Some? {
      RankIsBelow(row.actorRole.value, row.required);
    }
  }

  /** Which raise the insert guard gives, in terms of the grant rows. */
  lemma GuardRaises(row: ActionRow, grants: seq<Grant>)
    ensures var held := HighestHeld(grants, row.key.tenant, row.principal);
            ActionGuard(row, grants) ==
            match row.decision
            case RefusedUnauthenticatedActor => None
            case RefusedNoGrant => if held.None? then None else Some(ActiveGrantExistsForPrincipal)
            case _ =>
              if row.actorRole.None? || !HasGrant(grants, row.key.tenant, row.principal, row.actorRole.value) then
                Some(NoActiveGrantForRecordedRole)
              else if row.actorRole != held then Some(ActorRoleIsNotHighestActiveGrant)
              else if row.decision == Allowed && Below(held.value, row.required) then
                Some(HighestActiveGrantRankBelowRequired)
              else if row.decision == RefusedInsufficientRole && !Below(held.value, row.required) then
                Some(SufficientActiveGrantExists)
              else None
  {
    var active := ActiveGrants(grants, row.key.tenant, row.principal);
    AggregatesAgree(active, row.actorRole);
    HighestGrantIsHeld(grants, row.key.tenant, row.principal);
    if row.actorRole.Some? {
      assert HasGrant(grants, row.key.tenant, row.principal, row.actorRole.value) <==>
             exists g :: g in active && g.role == row.actorRole.value by {
        assert forall g :: g in active ==> g == Grant(row.key.tenant, row.principal, g.role, Active);
      }
      RankIsBelow(row.actorRole.value, row.required);
    }
    hide ActiveGrants, HighestGrant, MaxRank, AnyHasRole, HasGrant, Below;
  }

  /** An action can be recorded as allowed exactly when its authenticated actor is then entitled to it:
      an active administrator of the tenant, or, for a tighten, an active operator. */
  lemma AllowedMeansSufficientGrant(row: ActionRow, grants: seq<Grant>)
    requires DatabaseAccepts(row, grants)
    ensures row.decision == Allowed <==>
            row.provenance == RequestAuthenticated && Entitled(grants, row.key.tenant, row.principal, row.kind)
    ensures row.required == if row.kind == SetAutonomyPolicy then TenantAdmin else TenantOperator
  {
    DatabaseAcceptsExactlyTheEvaluation(row, grants);
    EvaluationMeans(row.key.tenant, row.kind, row.principal, row.provenance, grants);
    hide DatabaseAccepts, EvaluateAuthorization, HighestHeld, Entitled;
  }
}
