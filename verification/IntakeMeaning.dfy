/** What the reports of the detector and the auditor say about the artifacts, entry by entry. */
module IntakeMeaning {
  import opened Options
  import opened Bags
  import opened Findings
  import opened Readiness
  import opened IntakeAgreement

  // The artifact's parent is there and has the kind.
  predicate Under(s: seq<Artifact>, a: Artifact, kind: Kind) {
    exists p :: p in s && a.parent == Some(p.id) && p.kind == kind
  }

  lemma ParentIs(s: seq<Artifact>, a: Artifact, kind: Kind)
    requires DistinctIds(s)
    ensures HasParentOf(s, a, kind) <==> Under(s, a, kind)
  {
    hide ById;
    if a.parent.Some? {
      ByIdFinds(s, a.parent.value);
      if p :| p in s && a.parent == Some(p.id) && p.kind == kind {
        IdIsUnique(s, p, ById(s, a.parent.value).value);
      }
    }
  }

  // Some artifact of the kind has this one as its parent.
  predicate HasChild(s: seq<Artifact>, a: Artifact, kind: Kind) {
    exists c :: c in s && c.kind == kind && c.parent == Some(a.id)
  }

  lemma CoveredMeans(s: seq<Artifact>, a: Artifact)
    requires DistinctIds(s) && a in s
    ensures a.kind == Requirement ==> (Covered(s, a.id) <==> HasChild(s, a, AcceptanceCriterion))
    ensures a.kind == AcceptanceCriterion ==> (Judged(s, a.id) <==> HasChild(s, a, TestOracle))
  {
    hide HasParentOf;
    forall c, kind ensures HasParentOf(s, c, kind) <==> Under(s, c, kind) {
      ParentIs(s, c, kind);
    }
    assert forall c :: c in s && c.parent == Some(a.id) ==> Under(s, c, a.kind);
  }

  // ---- gaps ----

  // What a gap says of the artifact it names.
  predicate GapSays(s: seq<Artifact>, g: Gap, a: Artifact) {
    g.ref == a.ref
    && match g.kind
       case NoRequirements => false
       case RequirementWithoutAcceptance =>
         a.kind == Requirement && !HasChild(s, a, AcceptanceCriterion) && g.classification.None?
       case AcceptanceWithoutOracle =>
         && a.kind == AcceptanceCriterion && Under(s, a, Requirement) && !HasChild(s, a, TestOracle)
         && g.classification.None?
       case UnresolvedAssumption =>
         a.kind == Assumption && a.classification != Some("safe_assumption") && g.classification == a.classification
  }

  lemma GapsOfOne(s: seq<Artifact>, a: Artifact, g: Gap)
    requires DistinctIds(s) && a in s
    ensures RequirementGap(s)(a) == Some(g) || AcceptanceGap(s)(a) == Some(g) || AssumptionGap(a) == Some(g)
            <==> GapSays(s, g, a)
  {
    hide Covered, Judged, HasParentOf, HasChild, Under;
    CoveredMeans(s, a);
    ParentIs(s, a, Requirement);
  }

  lemma InGaps(s: seq<Artifact>, g: Gap)
    ensures g in Detected(s).gaps <==>
            || (g == Gap(NoRequirements, -1, None) && !HasRequirement(s))
            || g in Collect(s, RequirementGap(s)) || g in Collect(s, AcceptanceGap(s)) || g in Collect(s, AssumptionGap)
  {
    hide Collect, HasRequirement, Sorted;
    SortedSorts(GapsOf(s), GapKey);
    BagMembers(GapsOf(s), Detected(s).gaps);
  }

  lemma InFound<U>(s: seq<Artifact>, f: Artifact -> Option<U>, y: U)
    ensures y in Collect(s, f) <==> exists a :: a in s && f(a) == Some(y)
  {
    CollectMembers(s, f, y);
    if a :| a in s && f(a) == Some(y) {
      var i :| 0 <= i < |s| && s[i] == a;
    }
  }

  /** The gaps reported: that there is no requirement; a requirement without a criterion; a criterion of a requirement
      without an oracle; an assumption not classified as safe. */
  lemma GapsMean(s: seq<Artifact>, g: Gap)
    requires DistinctIds(s)
    ensures g in Detected(s).gaps <==>
            || (g == Gap(NoRequirements, -1, None) && forall a :: a in s ==> a.kind != Requirement)
            || exists a :: a in s && GapSays(s, g, a)
  {
    hide RequirementGap, AcceptanceGap, AssumptionGap, GapSays, Collect, Detected;
    InGaps(s, g);
    InFound(s, RequirementGap(s), g);
    InFound(s, AcceptanceGap(s), g);
    InFound(s, AssumptionGap, g);
    forall a | a in s
      ensures RequirementGap(s)(a) == Some(g) || AcceptanceGap(s)(a) == Some(g) || AssumptionGap(a) == Some(g)
              <==> GapSays(s, g, a)
    {
      GapsOfOne(s, a, g);
    }
  }

  // In the order of the names of their kinds.
  predicate GapsInOrder(k: GapKind, l: GapKind) {
    k == l || k == AcceptanceWithoutOracle || l == UnresolvedAssumption
    || (k == NoRequirements && l == RequirementWithoutAcceptance)
  }

  predicate FaultsInOrder(k: ContradictionKind, l: ContradictionKind) {
    k == l || k == OrphanAcceptance || l == WrongKindParent || (k == OrphanOracle && l != OrphanAcceptance)
    || (k == RequirementHasParent && l == SelfParent)
  }

  /** Both lists come in the order of the names of the kinds, and within a kind in that of the refs. */
  lemma ReportIsOrdered(s: seq<Artifact>)
    ensures var gs, cs := Detected(s).gaps, Detected(s).contradictions;
            && (forall i, j :: 0 <= i < j < |gs| ==>
                  GapsInOrder(gs[i].kind, gs[j].kind) && (gs[i].kind == gs[j].kind ==> gs[i].ref <= gs[j].ref))
            && (forall i, j :: 0 <= i < j < |cs| ==>
                  FaultsInOrder(cs[i].kind, cs[j].kind) && (cs[i].kind == cs[j].kind ==> cs[i].ref <= cs[j].ref))
  {
    hide GapsOf, ContradictionsOf, Sorted;
    var gs, cs := Detected(s).gaps, Detected(s).contradictions;
    SortedSorts(GapsOf(s), GapKey);
    SortedSorts(ContradictionsOf(s), ContradictionKey);
    forall i, j | 0 <= i < j < |gs|
      ensures GapsInOrder(gs[i].kind, gs[j].kind) && (gs[i].kind == gs[j].kind ==> gs[i].ref <= gs[j].ref)
    {
      assert !Before(GapKey(gs[j]), GapKey(gs[i]));
    }
    forall i, j | 0 <= i < j < |cs|
      ensures FaultsInOrder(cs[i].kind, cs[j].kind) && (cs[i].kind == cs[j].kind ==> cs[i].ref <= cs[j].ref)
    {
      assert !Before(ContradictionKey(cs[j]), ContradictionKey(cs[i]));
    }
  }

  // ---- contradictions ----

  // What a contradiction says of the artifact it names.
  predicate FaultSays(s: seq<Artifact>, c: Contradiction, a: Artifact) {
    && c.ref == a.ref
    && (c.kind == SelfParent <==> a.parent == Some(a.id))
    && match c.kind
       case SelfParent => !c.oracle
       case RequirementHasParent => a.kind == Requirement && a.parent.Some? && !c.oracle
       case OrphanAcceptance => a.kind == AcceptanceCriterion && a.parent.None? && !c.oracle
       case OrphanOracle => a.kind == TestOracle && a.parent.None? && !c.oracle
       case WrongKindParent =>
         && a.parent.Some?
         && (|| (a.kind == AcceptanceCriterion && !Under(s, a, Requirement) && !c.oracle)
             || (a.kind == TestOracle && !Under(s, a, AcceptanceCriterion) && c.oracle))
  }

  lemma FaultsOfOne(s: seq<Artifact>, a: Artifact, c: Contradiction)
    requires DistinctIds(s) && a in s
    ensures Fault(s)(a) == Some(c) <==> FaultSays(s, c, a)
  {
    hide HasParentOf, Under, Skipped;
    SelfParentIsOwn(s, a);
    ParentIs(s, a, Requirement);
    ParentIs(s, a, AcceptanceCriterion);
    var p, r, k, o := SelfParentFault(a), RequirementFault(s)(a), AcceptanceFault(s)(a), OracleFault(s)(a);
    assert Fault(s)(a) == if p.Some? then p else if r.Some? then r else if k.Some? then k else o;
    assert a.kind != Requirement ==> r.None?;
    assert a.kind != AcceptanceCriterion ==> k.None?;
    assert a.kind != TestOracle ==> o.None?;
  }

  /** The contradictions reported, one at most for each artifact: it is its own parent; or, if it is not, a requirement
      has a parent, or a criterion or an oracle has none or one of the wrong kind. */
  lemma ContradictionsMean(s: seq<Artifact>, c: Contradiction)
    requires DistinctIds(s)
    ensures c in Detected(s).contradictions <==> exists a :: a in s && FaultSays(s, c, a)
  {
    hide Fault, FaultSays, Collect, Detected;
    OneContradictionEach(s);
    BagMembers(Detected(s).contradictions, Collect(s, Fault(s)));
    InFound(s, Fault(s), c);
    forall a | a in s ensures Fault(s)(a) == Some(c) <==> FaultSays(s, c, a) {
      FaultsOfOne(s, a, c);
    }
  }

  // ---- the audit ----

  predicate SpineSays(s: seq<Artifact>, g: SpineGap, a: Artifact) {
    g.ref == a.ref
    && match g.kind
       case RequirementWithoutCriterion => a.kind == Requirement && !HasChild(s, a, AcceptanceCriterion)
       case CriterionInvalidParent => a.kind == AcceptanceCriterion && !Under(s, a, Requirement)
       case CriterionWithoutOracle =>
         a.kind == AcceptanceCriterion && Under(s, a, Requirement) && !HasChild(s, a, TestOracle)
       case OracleInvalidParent => a.kind == TestOracle && !Under(s, a, AcceptanceCriterion)
  }

  lemma SpineOfOne(s: seq<Artifact>, a: Artifact, g: SpineGap)
    requires DistinctIds(s) && a in s
    ensures RequirementSpine(s)(a) == Some(g) || AcceptanceSpine(s)(a) == Some(g) || OracleSpine(s)(a) == Some(g)
            <==> SpineSays(s, g, a)
  {
    hide Covered, Judged, HasParentOf, HasChild, Under;
    CoveredMeans(s, a);
    ParentIs(s, a, Requirement);
    ParentIs(s, a, AcceptanceCriterion);
  }

  /** The spine gaps listed: a requirement without a criterion, a criterion or an oracle whose parent is not of the right
      kind, and a criterion of a requirement without an oracle. */
  lemma SpineGapsMean(s: seq<Artifact>, g: SpineGap)
    requires DistinctIds(s)
    ensures g in SpineOf(s) <==> exists a :: a in s && SpineSays(s, g, a)
  {
    hide RequirementSpine, AcceptanceSpine, OracleSpine, SpineSays, Collect;
    InFound(s, RequirementSpine(s), g);
    InFound(s, AcceptanceSpine(s), g);
    InFound(s, OracleSpine(s), g);
    forall a | a in s
      ensures RequirementSpine(s)(a) == Some(g) || AcceptanceSpine(s)(a) == Some(g) || OracleSpine(s)(a) == Some(g)
              <==> SpineSays(s, g, a)
    {
      SpineOfOne(s, a, g);
    }
  }

  predicate IsDeclared(ds: seq<Declaration>, c: Category) {
    exists d :: d in ds && d.category == c && d.declared
  }

  // Every requirement has a criterion, every criterion is one of a requirement and has an oracle, every oracle is one of a
  // criterion.
  predicate FullyTested(s: seq<Artifact>) {
    forall a :: a in s ==>
      && (a.kind == Requirement ==> HasChild(s, a, AcceptanceCriterion))
      && (a.kind == AcceptanceCriterion ==> Under(s, a, Requirement) && HasChild(s, a, TestOracle))
      && (a.kind == TestOracle ==> Under(s, a, AcceptanceCriterion))
  }

  lemma NoSpineGapMeans(s: seq<Artifact>)
    requires DistinctIds(s)
    ensures SpineOf(s) == [] <==> FullyTested(s)
  {
    hide SpineOf, HasChild, Under;
    if SpineOf(s) != [] {
      var g := SpineOf(s)[0];
      SpineGapsMean(s, g);
      var a :| a in s && SpineSays(s, g, a);
    } else {
      forall a, g | a in s ensures !SpineSays(s, g, a) {
        SpineGapsMean(s, g);
      }
      forall a | a in s
        ensures && (a.kind == Requirement ==> HasChild(s, a, AcceptanceCriterion))
                && (a.kind == AcceptanceCriterion ==> Under(s, a, Requirement) && HasChild(s, a, TestOracle))
                && (a.kind == TestOracle ==> Under(s, a, AcceptanceCriterion))
      {
        assert !SpineSays(s, SpineGap(RequirementWithoutCriterion, a.ref), a);
        assert !SpineSays(s, SpineGap(CriterionInvalidParent, a.ref), a);
        assert !SpineSays(s, SpineGap(CriterionWithoutOracle, a.ref), a);
        assert !SpineSays(s, SpineGap(OracleInvalidParent, a.ref), a);
      }
    }
  }

  lemma DeclaredMeans(ds: seq<Declaration>, c: Category)
    ensures c in DeclaredOf(ds) <==> IsDeclared(ds, c)
  {
  }

  lemma AnyCoveredMeans(s: seq<Artifact>)
    requires DistinctIds(s)
    ensures AnyCovered(s) <==> exists a :: a in s && a.kind == AcceptanceCriterion && Under(s, a, Requirement)
  {
    hide HasParentOf, Under;
    forall a ensures HasParentOf(s, a, Requirement) <==> Under(s, a, Requirement) {
      ParentIs(s, a, Requirement);
    }
  }

  lemma NothingMissing(ds: seq<Declaration>)
    ensures Missing(R3_CATEGORIES, DeclaredOf(ds)) == [] <==>
              && IsDeclared(ds, UserJourneysAndWorkflows) && IsDeclared(ds, DataModelAndContracts)
              && IsDeclared(ds, ArchitectureAndTechnologyConstraints)
    ensures Missing(R4_CATEGORIES, DeclaredOf(ds)) == [] <==>
              IsDeclared(ds, IntegrationsAndExternalSystems) && IsDeclared(ds, ToolAccessManifest)
    ensures Missing(R5_CATEGORIES, DeclaredOf(ds)) == [] <==> forall c: Category :: IsDeclared(ds, c)
  {
    hide Missing, DeclaredOf, IsDeclared;
    MissingNone(R3_CATEGORIES, DeclaredOf(ds));
    MissingNone(R4_CATEGORIES, DeclaredOf(ds));
    MissingNone(R5_CATEGORIES, DeclaredOf(ds));
    forall c: Category ensures c in R5_CATEGORIES && (c in DeclaredOf(ds) <==> IsDeclared(ds, c)) {
      InR5(c);
      DeclaredMeans(ds, c);
    }
  }

  lemma InR5(c: Category)
    ensures c in R5_CATEGORIES
  {
  }

  /** The ladder, rung by rung: R1 needs a requirement, R2 a criterion of one, R3 the workflows, data and architecture
      declared, R4 integrations and tool access declared and the artifacts fully tested, R5 every category declared and
      both gates passed. */
  lemma LevelMeans(s: seq<Artifact>, ds: seq<Declaration>, autonomy: bool, cost: bool)
    requires DistinctIds(s)
    ensures var level := Audited(s, ds, autonomy, cost).level;
            && (level != R0 <==> exists a :: a in s && a.kind == Requirement)
            && (level !in {R0, R1} <==>
                  && level != R0
                  && exists a :: a in s && a.kind == AcceptanceCriterion && Under(s, a, Requirement))
            && (level in {R3, R4, R5} <==>
                  && level !in {R0, R1}
                  && IsDeclared(ds, UserJourneysAndWorkflows) && IsDeclared(ds, DataModelAndContracts)
                  && IsDeclared(ds, ArchitectureAndTechnologyConstraints))
            && (level in {R4, R5} <==>
                  && level in {R3, R4, R5}
                  && IsDeclared(ds, IntegrationsAndExternalSystems) && IsDeclared(ds, ToolAccessManifest)
                  && FullyTested(s))
            && (level == R5 <==>
                  level in {R4, R5} && (forall c: Category :: IsDeclared(ds, c)) && autonomy && cost)
  {
    hide SpineOf, Missing, DeclaredOf, AnyCovered, IsDeclared, FullyTested, Under;
    NoSpineGapMeans(s);
    AnyCoveredMeans(s);
    NothingMissing(ds);
  }

  lemma MissingMeans(required: seq<Category>, ds: seq<Declaration>, c: Category)
    ensures c in Missing(required, DeclaredOf(ds)) <==> c in required && !IsDeclared(ds, c)
  {
    hide DeclaredOf, IsDeclared;
    DeclaredMeans(ds, c);
    CollectMembers(required, Undeclared(DeclaredOf(ds)), c);
    if c in required {
      var i :| 0 <= i < |required| && required[i] == c;
    }
  }

  lemma UndeclaredOf(ds: seq<Declaration>, c: Category)
    ensures c in Missing(R3_CATEGORIES, DeclaredOf(ds)) <==>
              !IsDeclared(ds, c)
              && (c == UserJourneysAndWorkflows || c == DataModelAndContracts || c == ArchitectureAndTechnologyConstraints)
    ensures c in Missing(R4_CATEGORIES, DeclaredOf(ds)) <==>
              !IsDeclared(ds, c) && (c == IntegrationsAndExternalSystems || c == ToolAccessManifest)
    ensures c in Missing(R5_CATEGORIES, DeclaredOf(ds)) <==> !IsDeclared(ds, c)
  {
    hide Missing, DeclaredOf, IsDeclared;
    MissingMeans(R3_CATEGORIES, ds, c);
    MissingMeans(R4_CATEGORIES, ds, c);
    MissingMeans(R5_CATEGORIES, ds, c);
    InR5(c);
  }

  /** What an audit lists as missing: under each rung its undeclared categories, and the gates not passed. */
  lemma MissingListsMean(s: seq<Artifact>, ds: seq<Declaration>, autonomy: bool, cost: bool, c: Category)
    ensures var audit := Audited(s, ds, autonomy, cost);
            && (c in audit.missingR3 <==>
                  !IsDeclared(ds, c)
                  && (c == UserJourneysAndWorkflows || c == DataModelAndContracts || c == ArchitectureAndTechnologyConstraints))
            && (c in audit.missingR4 <==>
                  !IsDeclared(ds, c) && (c == IntegrationsAndExternalSystems || c == ToolAccessManifest))
            && (c in audit.missingR5 <==> !IsDeclared(ds, c))
            && (AutonomyPolicyAbsent in audit.missingGates <==> !autonomy)
            && (CostBudgetAbsent in audit.missingGates <==> !cost)
  {
    hide SpineOf, Missing, DeclaredOf, IsDeclared, LevelOf, Collect;
    UndeclaredOf(ds, c);
  }

  lemma {:induction false} AllMissing(required: seq<Category>)
    ensures Missing(required, {}) == required
  {
    if required != [] {
      AllMissing(required[..|required| - 1]);
    }
  }

  /** With nothing declared each rung lists all it needs, in the order of the intake files. */
  lemma NothingDeclared(s: seq<Artifact>, autonomy: bool, cost: bool)
    ensures var audit := Audited(s, [], autonomy, cost);
            && audit.missingR3 == [UserJourneysAndWorkflows, DataModelAndContracts, ArchitectureAndTechnologyConstraints]
            && audit.missingR4 == [IntegrationsAndExternalSystems, ToolAccessManifest]
            && audit.missingR5 ==
                 [ProjectManifest, ProductBrief, BusinessObjectives, ScopeAndBoundaries, UsersRolesPermissions,
                  UserJourneysAndWorkflows, NonFunctionalRequirements, DomainPack, DataModelAndContracts,
                  IntegrationsAndExternalSystems, ExistingAssetsAndRepositories, ArchitectureAndTechnologyConstraints,
                  SecurityPrivacyCompliance, EnvironmentsAndDeploymentTargets, SecretsAndCredentialsManifest,
                  ToolAccessManifest, HumanApprovalPolicy, OperationsObservabilitySupport, GoLiveChecklist,
                  RiskRegisterAndAssuranceRequirements, PriorDecisionsAndArchitectureLog, ProductionAuthority]
  {
    hide SpineOf, Missing, LevelOf, Collect;
    assert DeclaredOf([]) == {};
    AllMissing(R3_CATEGORIES);
    AllMissing(R4_CATEGORIES);
    AllMissing(R5_CATEGORIES);
  }

  /** Every assumption is listed as safe or as blocked: safe only if it is classified so. */
  lemma AssumptionsMean(s: seq<Artifact>, ds: seq<Declaration>, autonomy: bool, cost: bool, a: Artifact)
    ensures var audit := Audited(s, ds, autonomy, cost);
            && (a in audit.safe <==> a in s && a.kind == Assumption && a.classification == Some("safe_assumption"))
            && (a in audit.blocked <==> a in s && a.kind == Assumption && a.classification != Some("safe_assumption"))
  {
    hide SpineOf, Missing, DeclaredOf, LevelOf, Collect;
    InFound(s, SafeAssumption, a);
    InFound(s, BlockedAssumption, a);
  }

  /** Staging takes R3 or more and declared environments, and the reason says which of the two is missing. */
  lemma StagingMeans(s: seq<Artifact>, ds: seq<Declaration>, autonomy: bool, cost: bool)
    ensures var audit, environments := Audited(s, ds, autonomy, cost), IsDeclared(ds, EnvironmentsAndDeploymentTargets);
            && (audit.staging <==> audit.level in {R3, R4, R5} && environments)
            && audit.stagingReason == (if audit.level in {R0, R1, R2} then BelowR3
                                       else if environments then EnvironmentsDeclared
                                       else if audit.level == R3 then R3WithoutEnvironments
                                       else R4WithoutEnvironments)
  {
    hide SpineOf, Missing, DeclaredOf, IsDeclared, LevelOf, Collect;
    DeclaredMeans(ds, EnvironmentsAndDeploymentTargets);
  }

  /** What is missing for go-live: each spine gap, each undeclared category under its rung, and each gate not passed. */
  lemma MissingForGoLiveMeans(audit: Audit, b: Blocker)
    ensures b in MissingForGoLive(audit) <==>
            match b
            case SpineBlocker(gap) => gap in audit.spineGaps
            case CategoryBlocker(level, c) =>
              (level == R3 && c in audit.missingR3) || (level == R4 && c in audit.missingR4)
              || (level == R5 && c in audit.missingR5)
            case GateBlocker(gate) => gate in audit.missingGates
  {
    var spine := seq(|audit.spineGaps|, i requires 0 <= i < |audit.spineGaps| => SpineBlocker(audit.spineGaps[i]));
    var gates := seq(|audit.missingGates|, i requires 0 <= i < |audit.missingGates| => GateBlocker(audit.missingGates[i]));
    var cs := Categorized(R3, audit.missingR3) + Categorized(R4, audit.missingR4) + Categorized(R5, audit.missingR5);
    assert MissingForGoLive(audit) == spine + cs + gates;
    assert b in MissingForGoLive(audit) <==> b in spine || b in cs || b in gates;
    CategorizedMeans(R3, audit.missingR3, b);
    CategorizedMeans(R4, audit.missingR4, b);
    CategorizedMeans(R5, audit.missingR5, b);
    hide Categorized;
    if b.SpineBlocker? && b.gap in audit.spineGaps {
      var i :| 0 <= i < |audit.spineGaps| && audit.spineGaps[i] == b.gap;
      assert spine[i] == b;
    }
    if b.GateBlocker? && b.gate in audit.missingGates {
      var i :| 0 <= i < |audit.missingGates| && audit.missingGates[i] == b.gate;
      assert gates[i] == b;
    }
  }

  lemma CategorizedMeans(level: Level, cs: seq<Category>, b: Blocker)
    ensures b in Categorized(level, cs) <==> b.CategoryBlocker? && b.level == level && b.category in cs
  {
    if b.CategoryBlocker? && b.level == level && b.category in cs {
      var i :| 0 <= i < |cs| && cs[i] == b.category;
      assert Categorized(level, cs)[i] == b;
    }
  }
}
