/** The build-readiness auditor: spine gaps, the level ladder R0 to R5, and the staging flag. */
module Readiness {
  import opened Options
  import opened Bags
  import opened Findings

  // The declarable intake categories, in file order.
  datatype Category =
    | ProjectManifest | ProductBrief | BusinessObjectives | ScopeAndBoundaries | UsersRolesPermissions
    | UserJourneysAndWorkflows | NonFunctionalRequirements | DomainPack | DataModelAndContracts
    | IntegrationsAndExternalSystems | ExistingAssetsAndRepositories | ArchitectureAndTechnologyConstraints
    | SecurityPrivacyCompliance | EnvironmentsAndDeploymentTargets | SecretsAndCredentialsManifest
    | ToolAccessManifest | HumanApprovalPolicy | OperationsObservabilitySupport | GoLiveChecklist
    | RiskRegisterAndAssuranceRequirements | PriorDecisionsAndArchitectureLog | ProductionAuthority

  const R3_CATEGORIES := [UserJourneysAndWorkflows, DataModelAndContracts, ArchitectureAndTechnologyConstraints]
  const R4_CATEGORIES := [IntegrationsAndExternalSystems, ToolAccessManifest]
  const R5_CATEGORIES :=
    [ProjectManifest, ProductBrief, BusinessObjectives, ScopeAndBoundaries, UsersRolesPermissions,
     UserJourneysAndWorkflows, NonFunctionalRequirements, DomainPack, DataModelAndContracts,
     IntegrationsAndExternalSystems, ExistingAssetsAndRepositories, ArchitectureAndTechnologyConstraints,
     SecurityPrivacyCompliance, EnvironmentsAndDeploymentTargets, SecretsAndCredentialsManifest,
     ToolAccessManifest, HumanApprovalPolicy, OperationsObservabilitySupport, GoLiveChecklist,
     RiskRegisterAndAssuranceRequirements, PriorDecisionsAndArchitectureLog, ProductionAuthority]

  datatype Declaration = Declaration(category: Category, declared: bool)

  datatype Level = R0 | R1 | R2 | R3 | R4 | R5

  datatype Gate = AutonomyPolicyAbsent | CostBudgetAbsent

  datatype SpineKind = RequirementWithoutCriterion | CriterionInvalidParent | CriterionWithoutOracle | OracleInvalidParent

  datatype SpineGap = SpineGap(kind: SpineKind, ref: nat)

  datatype StagingReason = EnvironmentsDeclared | R4WithoutEnvironments | R3WithoutEnvironments | BelowR3

  datatype Audit = Audit(level: Level, staging: bool, goLive: bool, stagingReason: StagingReason, spineGaps: seq<SpineGap>,
                         safe: seq<Artifact>, blocked: seq<Artifact>, missingR3: seq<Category>, missingR4: seq<Category>,
                         missingR5: seq<Category>, missingGates: seq<Gate>)

  // One reason against going live.
  datatype Blocker = SpineBlocker(gap: SpineGap) | CategoryBlocker(level: Level, category: Category) | GateBlocker(gate: Gate)

  // ---- what the audit reads off each artifact ----

  function RequirementSpine(s: seq<Artifact>): Artifact -> Option<SpineGap> {
    (a: Artifact) =>
      if a.kind == Requirement && !Covered(s, a.id) then Some(SpineGap(RequirementWithoutCriterion, a.ref)) else None
  }

  function AcceptanceSpine(s: seq<Artifact>): Artifact -> Option<SpineGap> {
    (a: Artifact) =>
      if a.kind != AcceptanceCriterion then None
      else if !ValidAcceptance(s, a) then Some(SpineGap(CriterionInvalidParent, a.ref))
      else if !Judged(s, a.id) then Some(SpineGap(CriterionWithoutOracle, a.ref))
      else None
  }

  function OracleSpine(s: seq<Artifact>): Artifact -> Option<SpineGap> {
    (a: Artifact) =>
      if a.kind == TestOracle && !ValidOracle(s, a) then Some(SpineGap(OracleInvalidParent, a.ref)) else None
  }

  function SpineOf(s: seq<Artifact>): seq<SpineGap> {
    Collect(s, RequirementSpine(s)) + Collect(s, AcceptanceSpine(s)) + Collect(s, OracleSpine(s))
  }

  function SafeAssumption(a: Artifact): Option<Artifact> {
    if a.kind == Assumption && a.classification == Some(SAFE) then Some(a) else None
  }

  function BlockedAssumption(a: Artifact): Option<Artifact> {
    if a.kind == Assumption && a.classification != Some(SAFE) then Some(a) else None
  }

  function DeclaredOf(ds: seq<Declaration>): set<Category> {
    set d | d in ds && d.declared :: d.category
  }

  function Undeclared(declared: set<Category>): Category -> Option<Category> {
    (c: Category) => if c in declared then None else Some(c)
  }

  function Missing(required: seq<Category>, declared: set<Category>): seq<Category> {
    Collect(required, Undeclared(declared))
  }

  function MissingGates(autonomy: bool, cost: bool): seq<Gate> {
    (if autonomy then [] else [AutonomyPolicyAbsent]) + (if cost then [] else [CostBudgetAbsent])
  }

  predicate AnyCovered(s: seq<Artifact>) {
    exists a :: a in s && ValidAcceptance(s, a)
  }

  // The highest level all of whose conditions, and those below it, hold.
  function LevelOf(s: seq<Artifact>, declared: set<Category>, gates: seq<Gate>): Level {
    if !HasRequirement(s) then R0
    else if !AnyCovered(s) then R1
    else if Missing(R3_CATEGORIES, declared) != [] then R2
    else if Missing(R4_CATEGORIES, declared) != [] || SpineOf(s) != [] then R3
    else if Missing(R5_CATEGORIES, declared) != [] || gates != [] then R4
    else R5
  }

  function Audited(s: seq<Artifact>, ds: seq<Declaration>, autonomy: bool, cost: bool): Audit {
    var declared, gates := DeclaredOf(ds), MissingGates(autonomy, cost);
    var level, environments := LevelOf(s, declared, gates), EnvironmentsAndDeploymentTargets in declared;
    var staging := level in {R3, R4, R5} && environments;
    Audit(level, staging, false,
          if staging then EnvironmentsDeclared
          else if level in {R4, R5} then R4WithoutEnvironments
          else if level == R3 then R3WithoutEnvironments
          else BelowR3,
          SpineOf(s), Collect(s, SafeAssumption), Collect(s, BlockedAssumption),
          Missing(R3_CATEGORIES, declared), Missing(R4_CATEGORIES, declared), Missing(R5_CATEGORIES, declared), gates)
  }

  function Categorized(level: Level, cs: seq<Category>): seq<Blocker> {
    seq(|cs|, i requires 0 <= i < |cs| => CategoryBlocker(level, cs[i]))
  }

  // Every category is consumed by some rule, so none is left to list as not assessed.
  function MissingForGoLive(a: Audit): seq<Blocker> {
    seq(|a.spineGaps|, i requires 0 <= i < |a.spineGaps| => SpineBlocker(a.spineGaps[i]))
    + Categorized(R3, a.missingR3) + Categorized(R4, a.missingR4) + Categorized(R5, a.missingR5)
    + seq(|a.missingGates|, i requires 0 <= i < |a.missingGates| => GateBlocker(a.missingGates[i]))
  }

  // ---- the audit ----

  method RequirementGapsOfSpine(s: seq<Artifact>, covered: set<nat>) returns (gaps: seq<SpineGap>)
    requires forall id :: id in covered <==> Covered(s, id)
    ensures gaps == Collect(s, RequirementSpine(s))
  {
    hide Covered;
    gaps := [];
    for i := 0 to |s|
      invariant gaps == Collect(s[..i], RequirementSpine(s))
    {
      CollectNext(s, i, RequirementSpine(s));
      if s[i].kind == Requirement && s[i].id !in covered {
        gaps := gaps + [SpineGap(RequirementWithoutCriterion, s[i].ref)];
      }
    }
    assert s[..|s|] == s;
  }

  method AcceptanceGapsOfSpine(s: seq<Artifact>, byId: map<nat, Artifact>, judged: set<nat>, before: seq<SpineGap>)
    returns (gaps: seq<SpineGap>)
    requires Indexes(byId, s) && forall id :: id in judged <==> Judged(s, id)
    ensures gaps == before + Collect(s, AcceptanceSpine(s))
  {
    hide Judged, Indexes, HasParentOf;
    gaps := before;
    for i := 0 to |s|
      invariant gaps == before + Collect(s[..i], AcceptanceSpine(s))
    {
      CollectNext(s, i, AcceptanceSpine(s));
      SameParent(byId, s, s[i], Requirement);
      if s[i].kind == AcceptanceCriterion {
        if KindOfParent(byId, s[i]) != Some(Requirement) {
          gaps := gaps + [SpineGap(CriterionInvalidParent, s[i].ref)];
        } else if s[i].id !in judged {
          gaps := gaps + [SpineGap(CriterionWithoutOracle, s[i].ref)];
        }
      }
    }
    assert s[..|s|] == s;
  }

  method OracleGapsOfSpine(s: seq<Artifact>, byId: map<nat, Artifact>, before: seq<SpineGap>) returns (gaps: seq<SpineGap>)
    requires Indexes(byId, s)
    ensures gaps == before + Collect(s, OracleSpine(s))
  {
    hide Indexes, HasParentOf;
    gaps := before;
    for i := 0 to |s|
      invariant gaps == before + Collect(s[..i], OracleSpine(s))
    {
      CollectNext(s, i, OracleSpine(s));
      SameParent(byId, s, s[i], AcceptanceCriterion);
      if s[i].kind == TestOracle && KindOfParent(byId, s[i]) != Some(AcceptanceCriterion) {
        gaps := gaps + [SpineGap(OracleInvalidParent, s[i].ref)];
      }
    }
    assert s[..|s|] == s;
  }

  lemma CoveredIsAny(s: seq<Artifact>, covered: set<nat>)
    requires forall id :: id in covered <==> Covered(s, id)
    ensures covered != {} <==> AnyCovered(s)
  {
    if AnyCovered(s) {
      var a :| a in s && ValidAcceptance(s, a);
      assert Covered(s, a.parent.value);
    }
    if covered != {} {
      var id :| id in covered;
    }
  }

  lemma AreCovered(s: seq<Artifact>, ids: set<nat>)
    requires forall id :: id in ids <==>
               exists a :: a in s && a.kind == AcceptanceCriterion && HasParentOf(s, a, Requirement) && a.parent == Some(id)
    ensures forall id :: id in ids <==> Covered(s, id)
  {
  }

  lemma AreJudged(s: seq<Artifact>, ids: set<nat>)
    requires forall id :: id in ids <==>
               exists a :: a in s && a.kind == TestOracle && HasParentOf(s, a, AcceptanceCriterion) && a.parent == Some(id)
    ensures forall id :: id in ids <==> Judged(s, id)
  {
  }

  method SpineGaps(s: seq<Artifact>) returns (anyCovered: bool, gaps: seq<SpineGap>)
    ensures anyCovered == AnyCovered(s) && gaps == SpineOf(s)
  {
    hide Indexes, Collect, Covered, Judged, AnyCovered;
    var byId := Index(s);
    var covered := CoveredIds(s, byId, AcceptanceCriterion, Requirement);
    AreCovered(s, covered);
    var judged := CoveredIds(s, byId, TestOracle, AcceptanceCriterion);
    AreJudged(s, judged);
    gaps := RequirementGapsOfSpine(s, covered);
    gaps := AcceptanceGapsOfSpine(s, byId, judged, gaps);
    gaps := OracleGapsOfSpine(s, byId, gaps);
    CoveredIsAny(s, covered);
    anyCovered := covered != {};
  }

  method EvaluateReadiness(s: seq<Artifact>, ds: seq<Declaration>, autonomy: bool, cost: bool) returns (audit: Audit)
    ensures audit == Audited(s, ds, autonomy, cost)
  {
    hide Collect, AnyCovered, SpineOf, Missing, DeclaredOf;
    var anyCovered, spineGaps := SpineGaps(s);
    var level := R2;
    if forall a :: a in s ==> a.kind != Requirement {
      level := R0;
    } else if !anyCovered {
      level := R1;
    }
    var declared := DeclaredOf(ds);
    var missingR3 := Missing(R3_CATEGORIES, declared);
    if level == R2 && missingR3 == [] {
      level := R3;
    }
    var missingR4 := Missing(R4_CATEGORIES, declared);
    if level == R3 && missingR4 == [] && spineGaps == [] {
      level := R4;
    }
    var missingR5 := Missing(R5_CATEGORIES, declared);
    var missingGates: seq<Gate> := [];
    if !autonomy {
      missingGates := missingGates + [AutonomyPolicyAbsent];
    }
    if !cost {
      missingGates := missingGates + [CostBudgetAbsent];
    }
    if level == R4 && missingR5 == [] && missingGates == [] {
      level := R5;
    }

    var staging, reason := false, BelowR3;
    if level in {R3, R4, R5} && EnvironmentsAndDeploymentTargets in declared {
      staging, reason := true, EnvironmentsDeclared;
    } else if level in {R4, R5} {
      reason := R4WithoutEnvironments;
    } else if level == R3 {
      reason := R3WithoutEnvironments;
    }
    return Audit(level, staging, false, reason, spineGaps, Collect(s, SafeAssumption), Collect(s, BlockedAssumption),
                 missingR3, missingR4, missingR5, missingGates);
  }
}
