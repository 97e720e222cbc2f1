/** The detector and the auditor read the same parent graph: where they agree, and what the level means. */
module IntakeAgreement {
  import opened Options
  import opened Bags
  import opened Findings
  import opened Readiness

  predicate DistinctIds(s: seq<Artifact>) {
    forall i, j :: 0 <= i < j < |s| ==> s[i].id != s[j].id
  }

  // A ref names one artifact of each kind.
  predicate DistinctRefs(s: seq<Artifact>) {
    forall i, j :: 0 <= i < j < |s| ==> s[i].kind != s[j].kind || s[i].ref != s[j].ref
  }

  lemma {:induction false} ByIdFinds(s: seq<Artifact>, id: nat)
    ensures match ById(s, id)
            case Some(a) => a in s && a.id == id
            case None => forall a :: a in s ==> a.id != id
  {
    if s != [] && s[|s| - 1].id != id {
      ByIdFinds(s[..|s| - 1], id);
    }
  }

  lemma IdIsUnique(s: seq<Artifact>, a: Artifact, b: Artifact)
    requires DistinctIds(s) && a in s && b in s && a.id == b.id
    ensures a == b
  {
  }

  lemma SelfParentIsOwn(s: seq<Artifact>, a: Artifact)
    requires DistinctIds(s) && a in s
    ensures Skipped(s, a) <==> IsSelfParent(a)
    ensures IsSelfParent(a) ==> ParentOf(s, a) == Some(a)
  {
    ByIdFinds(s, a.id);
    if IsSelfParent(a) {
      IdIsUnique(s, a, ById(s, a.id).value);
    }
    if Skipped(s, a) {
      var b :| b in s && IsSelfParent(b) && b.id == a.id;
      IdIsUnique(s, a, b);
    }
  }

  // ---- at most one contradiction per artifact ----

  // The contradiction the four stages report about an artifact, if any.
  function Fault(s: seq<Artifact>): Artifact -> Option<Contradiction> {
    (a: Artifact) =>
      if SelfParentFault(a).Some? then SelfParentFault(a)
      else if RequirementFault(s)(a).Some? then RequirementFault(s)(a)
      else if AcceptanceFault(s)(a).Some? then AcceptanceFault(s)(a)
      else OracleFault(s)(a)
  }

  lemma OneFault(s: seq<Artifact>, a: Artifact)
    requires DistinctIds(s) && a in s
    ensures Found(SelfParentFault(a)) + Found(RequirementFault(s)(a)) + Found(AcceptanceFault(s)(a)) + Found(OracleFault(s)(a))
              == Found(Fault(s)(a))
  {
    hide HasParentOf, Skipped;
    SelfParentIsOwn(s, a);
  }

  lemma {:induction false} FourStages(s: seq<Artifact>, n: nat)
    requires DistinctIds(s) && n <= |s|
    ensures var p := s[..n];
            multiset(Collect(p, SelfParentFault) + Collect(p, RequirementFault(s)) + Collect(p, AcceptanceFault(s))
                     + Collect(p, OracleFault(s)))
            == multiset(Collect(p, Fault(s)))
  {
    hide Fault, SelfParentFault, RequirementFault, AcceptanceFault, OracleFault, Found, Collect;
    if n > 0 {
      FourStages(s, n - 1);
      var a := s[n - 1];
      OneFault(s, a);
      CollectNext(s, n - 1, SelfParentFault);
      CollectNext(s, n - 1, RequirementFault(s));
      CollectNext(s, n - 1, AcceptanceFault(s));
      CollectNext(s, n - 1, OracleFault(s));
      CollectNext(s, n - 1, Fault(s));
    } else {
      NothingCollected(s, SelfParentFault);
      NothingCollected(s, RequirementFault(s));
      NothingCollected(s, AcceptanceFault(s));
      NothingCollected(s, OracleFault(s));
      NothingCollected(s, Fault(s));
    }
  }

  lemma NothingCollected<T, U>(s: seq<T>, f: T -> Option<U>)
    ensures Collect(s[..0], f) == []
  {
  }

  /** Every artifact yields at most one contradiction: the report holds exactly the faults of the artifacts, once each. */
  lemma OneContradictionEach(s: seq<Artifact>)
    requires DistinctIds(s)
    ensures multiset(Detected(s).contradictions) == multiset(Collect(s, Fault(s)))
  {
    FourStages(s, |s|);
    assert s[..|s|] == s;
    SortedSorts(ContradictionsOf(s), ContradictionKey);
  }

  // ---- spine gaps and findings ----

  // The spine gap that the detector's findings about one artifact amount to.
  function SpineFromFindings(s: seq<Artifact>): Artifact -> Option<SpineGap> {
    (a: Artifact) =>
      if a.kind == Requirement && RequirementGap(s)(a).Some? then Some(SpineGap(RequirementWithoutCriterion, a.ref))
      else if a.kind == AcceptanceCriterion && Fault(s)(a).Some? then Some(SpineGap(CriterionInvalidParent, a.ref))
      else if a.kind == AcceptanceCriterion && AcceptanceGap(s)(a).Some? then Some(SpineGap(CriterionWithoutOracle, a.ref))
      else if a.kind == TestOracle && Fault(s)(a).Some? then Some(SpineGap(OracleInvalidParent, a.ref))
      else None
  }

  // A criterion or an oracle is at fault exactly when its parent is not the right one.
  lemma FaultMeans(s: seq<Artifact>, a: Artifact)
    requires DistinctIds(s) && a in s
    ensures a.kind == AcceptanceCriterion ==> (Fault(s)(a).Some? <==> !ValidAcceptance(s, a))
    ensures a.kind == TestOracle ==> (Fault(s)(a).Some? <==> !ValidOracle(s, a))
  {
    hide Covered, Judged, Skipped, ById;
    SelfParentIsOwn(s, a);
    var f := Fault(s)(a);
    assert IsSelfParent(a) ==> f.Some? && SelfParentFault(a).Some?;
    assert a.kind == AcceptanceCriterion ==> RequirementFault(s)(a).None? && OracleFault(s)(a).None?;
    assert a.kind == TestOracle ==> RequirementFault(s)(a).None? && AcceptanceFault(s)(a).None?;
    assert a.kind == AcceptanceCriterion && !IsSelfParent(a) ==> f == AcceptanceFault(s)(a);
    assert a.kind == TestOracle && !IsSelfParent(a) ==> f == OracleFault(s)(a);
    assert a.parent.None? ==> ParentOf(s, a).None?;
  }

  lemma SameSpineGap(s: seq<Artifact>, a: Artifact)
    requires DistinctIds(s) && a in s
    ensures Found(RequirementSpine(s)(a)) + Found(AcceptanceSpine(s)(a)) + Found(OracleSpine(s)(a))
              == Found(SpineFromFindings(s)(a))
  {
    hide Covered, Judged, Fault, HasParentOf;
    FaultMeans(s, a);
    var q, c, o, f := RequirementSpine(s)(a), AcceptanceSpine(s)(a), OracleSpine(s)(a), SpineFromFindings(s)(a);
    match a.kind
    case Requirement =>
      assert c.None? && o.None? && (q.Some? <==> RequirementGap(s)(a).Some?);
      assert q.Some? ==> q.value.ref == a.ref && q == f;
    case AcceptanceCriterion => assert q.None? && o.None? && c == f;
    case TestOracle => assert q.None? && c.None? && o == f;
    case _ => assert q.None? && c.None? && o.None? && f.None?;
  }

  lemma {:induction false} ThreeStages(s: seq<Artifact>, n: nat)
    requires DistinctIds(s) && n <= |s|
    ensures var p := s[..n];
            multiset(Collect(p, RequirementSpine(s)) + Collect(p, AcceptanceSpine(s)) + Collect(p, OracleSpine(s)))
            == multiset(Collect(p, SpineFromFindings(s)))
  {
    hide RequirementSpine, AcceptanceSpine, OracleSpine, SpineFromFindings, Found, Collect;
    if n > 0 {
      ThreeStages(s, n - 1);
      SameSpineGap(s, s[n - 1]);
      CollectNext(s, n - 1, RequirementSpine(s));
      CollectNext(s, n - 1, AcceptanceSpine(s));
      CollectNext(s, n - 1, OracleSpine(s));
      CollectNext(s, n - 1, SpineFromFindings(s));
    } else {
      NothingCollected(s, RequirementSpine(s));
      NothingCollected(s, AcceptanceSpine(s));
      NothingCollected(s, OracleSpine(s));
      NothingCollected(s, SpineFromFindings(s));
    }
  }

  // What an entry of the report says about the spine. An artifact that is its own parent is reported by its ref alone, so
  // whether it breaks the spine depends on its kind.
  function SpineOfGap(g: Gap): Option<SpineGap> {
    match g.kind
    case RequirementWithoutAcceptance => if g.ref >= 0 then Some(SpineGap(RequirementWithoutCriterion, g.ref)) else None
    case AcceptanceWithoutOracle => if g.ref >= 0 then Some(SpineGap(CriterionWithoutOracle, g.ref)) else None
    case _ => None
  }

  function SpineOfContradiction(c: Contradiction): Option<SpineGap> {
    match c.kind
    case OrphanAcceptance => Some(SpineGap(CriterionInvalidParent, c.ref))
    case OrphanOracle => Some(SpineGap(OracleInvalidParent, c.ref))
    case WrongKindParent => Some(SpineGap(if c.oracle then OracleInvalidParent else CriterionInvalidParent, c.ref))
    case _ => None
  }

  function SelfParentSpine(a: Artifact): Option<SpineGap> {
    if !IsSelfParent(a) then None
    else if a.kind == AcceptanceCriterion then Some(SpineGap(CriterionInvalidParent, a.ref))
    else if a.kind == TestOracle then Some(SpineGap(OracleInvalidParent, a.ref))
    else None
  }

  lemma SelfParentIsInvalid(s: seq<Artifact>, a: Artifact)
    requires DistinctIds(s) && a in s && IsSelfParent(a)
    ensures !ValidAcceptance(s, a)
  {
    SelfParentIsOwn(s, a);
  }

  // An own parent is reported as such, whatever its kind; what else can be wrong depends on the kind.
  lemma FaultIs(s: seq<Artifact>, a: Artifact)
    requires DistinctIds(s) && a in s
    ensures IsSelfParent(a) ==> Fault(s)(a) == SelfParentFault(a)
    ensures Fault(s)(a).Some? && !IsSelfParent(a) ==>
              match a.kind
              case Requirement => Fault(s)(a).value.kind == RequirementHasParent
              case AcceptanceCriterion => SpineOfContradiction(Fault(s)(a).value) == Some(SpineGap(CriterionInvalidParent, a.ref))
              case TestOracle => SpineOfContradiction(Fault(s)(a).value) == Some(SpineGap(OracleInvalidParent, a.ref))
              case _ => false
    ensures Fault(s)(a).Some? ==> (Fault(s)(a).value.kind == SelfParent <==> IsSelfParent(a))
  {
    hide Skipped, HasParentOf;
    var f, p, r, c, o := Fault(s)(a), SelfParentFault(a), RequirementFault(s)(a), AcceptanceFault(s)(a), OracleFault(s)(a);
    assert f == if p.Some? then p else if r.Some? then r else if c.Some? then c else o;
    assert r.Some? ==> a.kind == Requirement && r.value.kind == RequirementHasParent;
    assert c.Some? ==> a.kind == AcceptanceCriterion && c.value.kind in {OrphanAcceptance, WrongKindParent} && !c.value.oracle;
    assert o.Some? ==> a.kind == TestOracle && o.value.kind in {OrphanOracle, WrongKindParent};
  }

  lemma FromReport(s: seq<Artifact>, a: Artifact)
    requires DistinctIds(s) && a in s
    ensures Found(SpineFromFindings(s)(a))
            == Found(Through(RequirementGap(s), SpineOfGap)(a)) + Found(Through(AcceptanceGap(s), SpineOfGap)(a))
               + Found(Through(Fault(s), SpineOfContradiction)(a)) + Found(SelfParentSpine(a))
  {
    hide Covered, Judged, Fault, HasParentOf;
    FaultMeans(s, a);
    FaultIs(s, a);
    if IsSelfParent(a) {
      SelfParentIsInvalid(s, a);
    }
    var r, g, c := Through(RequirementGap(s), SpineOfGap)(a), Through(AcceptanceGap(s), SpineOfGap)(a),
      Through(Fault(s), SpineOfContradiction)(a);
    match a.kind
    case Requirement => assert g.None? && c.None? && r == SpineFromFindings(s)(a);
    case AcceptanceCriterion => assert r.None?;
    case TestOracle => assert r.None? && g.None?;
    case _ => assert r.None? && g.None? && c.None?;
  }

  lemma {:induction false} FourParts(s: seq<Artifact>, n: nat)
    requires DistinctIds(s) && n <= |s|
    ensures var p := s[..n];
            multiset(Collect(p, SpineFromFindings(s)))
            == multiset(Collect(p, Through(RequirementGap(s), SpineOfGap)) + Collect(p, Through(AcceptanceGap(s), SpineOfGap))
                        + Collect(p, Through(Fault(s), SpineOfContradiction)) + Collect(p, SelfParentSpine))
  {
    hide SpineFromFindings, RequirementGap, AcceptanceGap, Fault, SpineOfGap, SpineOfContradiction, SelfParentSpine, Through,
         Found, Collect;
    if n > 0 {
      FourParts(s, n - 1);
      FromReport(s, s[n - 1]);
      CollectNext(s, n - 1, SpineFromFindings(s));
      CollectNext(s, n - 1, Through(RequirementGap(s), SpineOfGap));
      CollectNext(s, n - 1, Through(AcceptanceGap(s), SpineOfGap));
      CollectNext(s, n - 1, Through(Fault(s), SpineOfContradiction));
      CollectNext(s, n - 1, SelfParentSpine);
    } else {
      NothingCollected(s, SpineFromFindings(s));
      NothingCollected(s, Through(RequirementGap(s), SpineOfGap));
      NothingCollected(s, Through(AcceptanceGap(s), SpineOfGap));
      NothingCollected(s, Through(Fault(s), SpineOfContradiction));
      NothingCollected(s, SelfParentSpine);
    }
  }

  lemma NoSpineInAssumption(a: Artifact)
    ensures Through(AssumptionGap, SpineOfGap)(a).None?
  {
    var found := AssumptionGap(a);
    if found.Some? {
      assert SpineOfGap(found.value).None?;
    }
  }

  lemma NoSpineElsewhere(s: seq<Artifact>)
    ensures Collect(Collect(s, AssumptionGap), SpineOfGap) == []
    ensures Collect(if HasRequirement(s) then [] else [Gap(NoRequirements, -1, None)], SpineOfGap) == []
  {
    CollectThrough(s, AssumptionGap, SpineOfGap);
    forall i | 0 <= i < |s| ensures Through(AssumptionGap, SpineOfGap)(s[i]).None? {
      NoSpineInAssumption(s[i]);
    }
    CollectNone(s, Through(AssumptionGap, SpineOfGap));
  }

  // The reported gaps that concern the spine are those of the artifacts.
  lemma GapsReported(s: seq<Artifact>)
    ensures multiset(Collect(Detected(s).gaps, SpineOfGap))
            == multiset(Collect(s, Through(RequirementGap(s), SpineOfGap)) + Collect(s, Through(AcceptanceGap(s), SpineOfGap)))
  {
    hide RequirementGap, AcceptanceGap, AssumptionGap, SpineOfGap, Through, Collect, Sorted, HasRequirement;
    var none, r, a, u := if HasRequirement(s) then [] else [Gap(NoRequirements, -1, None)],
      Collect(s, RequirementGap(s)), Collect(s, AcceptanceGap(s)), Collect(s, AssumptionGap);
    SortedSorts(GapsOf(s), GapKey);
    CollectOfBag(Detected(s).gaps, GapsOf(s), SpineOfGap);
    CollectAppend(none + r + a, u, SpineOfGap);
    CollectAppend(none + r, a, SpineOfGap);
    CollectAppend(none, r, SpineOfGap);
    CollectThrough(s, RequirementGap(s), SpineOfGap);
    CollectThrough(s, AcceptanceGap(s), SpineOfGap);
    NoSpineElsewhere(s);
  }

  function OnlySelfParent(c: Contradiction): Option<Contradiction> {
    if c.kind == SelfParent then Some(c) else None
  }

  // The reported contradictions, taken entry by entry, are those of the artifacts.
  lemma ContradictionsReported<V>(s: seq<Artifact>, g: Contradiction -> Option<V>)
    requires DistinctIds(s)
    ensures multiset(Collect(Detected(s).contradictions, g)) == multiset(Collect(s, Through(Fault(s), g)))
  {
    hide Fault, Through, Collect, Detected;
    OneContradictionEach(s);
    CollectOfBag(Detected(s).contradictions, Collect(s, Fault(s)), g);
    CollectThrough(s, Fault(s), g);
  }

  lemma SelfParentsReported(s: seq<Artifact>)
    requires DistinctIds(s)
    ensures multiset(Collect(Detected(s).contradictions, OnlySelfParent)) == multiset(Collect(s, SelfParentFault))
  {
    hide Collect, Detected, Fault;
    ContradictionsReported(s, OnlySelfParent);
    forall i | 0 <= i < |s| ensures Through(Fault(s), OnlySelfParent)(s[i]) == SelfParentFault(s[i]) {
      FaultIs(s, s[i]);
    }
    CollectAlike(s, Through(Fault(s), OnlySelfParent), SelfParentFault);
  }

  /** The spine gaps are, one for one, the report's uncovered requirements and criteria without an oracle, its orphaned and
      wrongly parented criteria and oracles, and those of its own-parent artifacts that are criteria or oracles. */
  lemma SpineGapsAreFindings(s: seq<Artifact>, ds: seq<Declaration>, autonomy: bool, cost: bool)
    requires DistinctIds(s)
    ensures multiset(Audited(s, ds, autonomy, cost).spineGaps)
            == multiset(Collect(Detected(s).gaps, SpineOfGap))
               + multiset(Collect(Detected(s).contradictions, SpineOfContradiction))
               + multiset(Collect(s, SelfParentSpine))
    ensures multiset(Collect(Detected(s).contradictions, OnlySelfParent)) == multiset(Collect(s, SelfParentFault))
    ensures multiset(Audited(s, ds, autonomy, cost).spineGaps) == multiset(Collect(s, SpineFromFindings(s)))
  {
    hide Collect, Detected, SpineFromFindings, Through, Fault;
    ThreeStages(s, |s|);
    FourParts(s, |s|);
    assert s[..|s|] == s;
    GapsReported(s);
    ContradictionsReported(s, SpineOfContradiction);
    SelfParentsReported(s);
  }

  // ---- the level ----

  lemma MissingNone(required: seq<Category>, declared: set<Category>)
    ensures Missing(required, declared) == [] <==> forall c :: c in required ==> c in declared
  {
    CollectNone(required, Undeclared(declared));
    forall c | c in required ensures exists i :: 0 <= i < |required| && required[i] == c {
    }
  }

  // With every requirement covered, a requirement makes a valid chain.
  lemma NoGapsMeansCovered(s: seq<Artifact>)
    requires HasRequirement(s) && SpineOf(s) == []
    ensures AnyCovered(s)
  {
    var r :| r in s && r.kind == Requirement;
    CollectNone(s, RequirementSpine(s));
    var i :| 0 <= i < |s| && s[i] == r;
    assert RequirementSpine(s)(s[i]).None?;
    var a :| a in s && ValidAcceptance(s, a) && a.parent == Some(r.id);
  }

  /** The level is R5 if and only if there is a requirement and nothing is listed as missing for go-live; go-live itself
      is never allowed. */
  lemma R5MeansNothingMissing(s: seq<Artifact>, ds: seq<Declaration>, autonomy: bool, cost: bool)
    ensures var audit := Audited(s, ds, autonomy, cost);
            && (audit.level == R5 <==> HasRequirement(s) && MissingForGoLive(audit) == [])
            && !audit.goLive
  {
    hide SpineOf, Missing, DeclaredOf, MissingGates, AnyCovered, HasRequirement;
    if HasRequirement(s) && SpineOf(s) == [] {
      NoGapsMeansCovered(s);
    }
  }

  /** R5 allows building to staging: the environments are among the categories it requires. */
  lemma R5AllowsStaging(s: seq<Artifact>, ds: seq<Declaration>, autonomy: bool, cost: bool)
    requires Audited(s, ds, autonomy, cost).level == R5
    ensures Audited(s, ds, autonomy, cost).staging
  {
    hide SpineOf, Missing, DeclaredOf, MissingGates, AnyCovered, HasRequirement;
    MissingNone(R5_CATEGORIES, DeclaredOf(ds));
    assert R5_CATEGORIES[13] == EnvironmentsAndDeploymentTargets;
  }

  function Rank(l: Level): nat {
    match l
    case R0 => 0
    case R1 => 1
    case R2 => 2
    case R3 => 3
    case R4 => 4
    case R5 => 5
  }

  lemma FewerMissing(required: seq<Category>, d: set<Category>, e: set<Category>)
    requires d <= e
    ensures Missing(required, d) == [] ==> Missing(required, e) == []
  {
    MissingNone(required, d);
    MissingNone(required, e);
  }

  /** For fixed artifacts, declaring more and passing more gates lowers neither the level nor the staging flag. */
  lemma ReadinessOnlyRises(s: seq<Artifact>, ds: seq<Declaration>, es: seq<Declaration>,
                           autonomy: bool, cost: bool, autonomy': bool, cost': bool)
    requires DeclaredOf(ds) <= DeclaredOf(es) && (autonomy ==> autonomy') && (cost ==> cost')
    ensures var before, after := Audited(s, ds, autonomy, cost), Audited(s, es, autonomy', cost');
            Rank(before.level) <= Rank(after.level) && (before.staging ==> after.staging)
  {
    hide SpineOf, Missing, DeclaredOf, AnyCovered, HasRequirement;
    FewerMissing(R3_CATEGORIES, DeclaredOf(ds), DeclaredOf(es));
    FewerMissing(R4_CATEGORIES, DeclaredOf(ds), DeclaredOf(es));
    FewerMissing(R5_CATEGORIES, DeclaredOf(ds), DeclaredOf(es));
  }

  // ---- the order of the artifacts ----

  lemma SameGraph(s: seq<Artifact>, t: seq<Artifact>)
    requires multiset(s) == multiset(t) && DistinctIds(s)
    ensures forall id :: ById(s, id) == ById(t, id)
    ensures forall a :: a in s <==> a in t
  {
    hide ById;
    BagMembers(s, t);
    forall id ensures ById(s, id) == ById(t, id) {
      ByIdFinds(s, id);
      ByIdFinds(t, id);
      if ById(s, id).Some? && ById(t, id).Some? {
        IdIsUnique(s, ById(s, id).value, ById(t, id).value);
      }
    }
  }

  lemma SameLookups(s: seq<Artifact>, t: seq<Artifact>)
    requires multiset(s) == multiset(t) && DistinctIds(s)
    ensures forall a, k :: HasParentOf(s, a, k) == HasParentOf(t, a, k)
    ensures forall id :: Covered(s, id) == Covered(t, id)
    ensures forall id :: Judged(s, id) == Judged(t, id)
    ensures forall a :: Skipped(s, a) == Skipped(t, a)
    ensures HasRequirement(s) == HasRequirement(t)
  {
    hide ById;
    SameGraph(s, t);
  }

  lemma SameBag<U>(s: seq<Artifact>, t: seq<Artifact>, f: Artifact -> Option<U>, g: Artifact -> Option<U>)
    requires multiset(s) == multiset(t) && forall a :: f(a) == g(a)
    ensures multiset(Collect(s, f)) == multiset(Collect(t, g))
  {
    CollectOfBag(s, t, f);
    CollectAlike(t, f, g);
  }

  lemma SameGapBag(s: seq<Artifact>, t: seq<Artifact>)
    requires multiset(s) == multiset(t) && DistinctIds(s)
    ensures multiset(GapsOf(s)) == multiset(GapsOf(t))
  {
    hide Collect, Covered, Judged, HasParentOf, HasRequirement;
    SameLookups(s, t);
    SameBag(s, t, RequirementGap(s), RequirementGap(t));
    SameBag(s, t, AcceptanceGap(s), AcceptanceGap(t));
    SameBag(s, t, AssumptionGap, AssumptionGap);
  }

  lemma SameContradictionBag(s: seq<Artifact>, t: seq<Artifact>)
    requires multiset(s) == multiset(t) && DistinctIds(s)
    ensures multiset(ContradictionsOf(s)) == multiset(ContradictionsOf(t))
  {
    hide Collect, Skipped, HasParentOf;
    SameLookups(s, t);
    SameBag(s, t, SelfParentFault, SelfParentFault);
    SameBag(s, t, RequirementFault(s), RequirementFault(t));
    SameBag(s, t, AcceptanceFault(s), AcceptanceFault(t));
    SameBag(s, t, OracleFault(s), OracleFault(t));
  }

  // ---- what the sort keys tell ----

  function KindOfGap(k: GapKind): Kind {
    match k
    case AcceptanceWithoutOracle => AcceptanceCriterion
    case UnresolvedAssumption => Assumption
    case _ => Requirement
  }

  predicate IsGapOf(g: Gap, a: Artifact) {
    && g.kind != NoRequirements && a.kind == KindOfGap(g.kind) && g.ref == a.ref
    && g.classification == if g.kind == UnresolvedAssumption then a.classification else None
  }

  lemma GapHasSource(s: seq<Artifact>, g: Gap)
    requires g in GapsOf(s)
    ensures g == Gap(NoRequirements, -1, None) || exists a :: a in s && IsGapOf(g, a)
  {
    hide Collect, Covered, Judged, HasParentOf;
    CollectMembers(s, RequirementGap(s), g);
    CollectMembers(s, AcceptanceGap(s), g);
    CollectMembers(s, AssumptionGap, g);
    if g != Gap(NoRequirements, -1, None) {
      var i :| 0 <= i < |s| && (RequirementGap(s)(s[i]) == Some(g) || AcceptanceGap(s)(s[i]) == Some(g) || AssumptionGap(s[i]) == Some(g));
      assert IsGapOf(g, s[i]);
    }
  }

  lemma GapKeysTell(s: seq<Artifact>)
    requires DistinctRefs(s)
    ensures KeyTells(GapsOf(s), GapKey)
  {
    hide GapsOf;
    forall g, h | g in GapsOf(s) && h in GapsOf(s) && GapKey(g) == GapKey(h) ensures g == h {
      GapHasSource(s, g);
      GapHasSource(s, h);
      if g.kind != NoRequirements {
        var a :| a in s && IsGapOf(g, a);
        var b :| b in s && IsGapOf(h, b);
        RefIsUnique(s, a, b);
      }
    }
  }

  lemma RefIsUnique(s: seq<Artifact>, a: Artifact, b: Artifact)
    requires DistinctRefs(s) && a in s && b in s && a.kind == b.kind && a.ref == b.ref
    ensures a == b
  {
  }

  // Kind, ref, and criteria before oracles.
  function FineKey(c: Contradiction): Key {
    (ContradictionRank(c.kind), 2 * c.ref + if c.oracle then 1 else 0)
  }

  lemma FineKeyTells(cs: seq<Contradiction>)
    ensures KeyTells(cs, FineKey)
  {
  }

  // Only the last stage reports on oracles.
  lemma OraclesComeLast(s: seq<Artifact>, i: nat, j: nat)
    requires i < j < |ContradictionsOf(s)|
    ensures var cs := ContradictionsOf(s); cs[i].oracle && cs[j].kind == cs[i].kind ==> cs[j].oracle
  {
    hide Collect, Skipped, HasParentOf;
    var early := Collect(s, SelfParentFault) + Collect(s, RequirementFault(s)) + Collect(s, AcceptanceFault(s));
    var cs := ContradictionsOf(s);
    if i < |early| {
      EarlyIsNotOracle(s, early[i]);
    } else {
      LateIsOracle(s, cs[j]);
      LateIsOracle(s, cs[i]);
    }
  }

  lemma EarlyIsNotOracle(s: seq<Artifact>, c: Contradiction)
    requires c in Collect(s, SelfParentFault) + Collect(s, RequirementFault(s)) + Collect(s, AcceptanceFault(s))
    ensures !c.oracle
  {
    hide Collect, Skipped, HasParentOf;
    CollectMembers(s, SelfParentFault, c);
    CollectMembers(s, RequirementFault(s), c);
    CollectMembers(s, AcceptanceFault(s), c);
  }

  lemma LateIsOracle(s: seq<Artifact>, c: Contradiction)
    requires c in Collect(s, OracleFault(s))
    ensures c.oracle <==> c.kind == WrongKindParent
  {
    hide Collect, Skipped, HasParentOf;
    CollectMembers(s, OracleFault(s), c);
  }

  lemma FineKeyBreaksTies(s: seq<Artifact>)
    ensures TieBroken(ContradictionsOf(s), ContradictionKey, FineKey)
  {
    hide ContradictionsOf;
    var cs := ContradictionsOf(s);
    forall i, j | 0 <= i < j < |cs|
      ensures Before(ContradictionKey(cs[j]), ContradictionKey(cs[i])) <==> Before(FineKey(cs[j]), FineKey(cs[i]))
    {
      OraclesComeLast(s, i, j);
    }
  }

  /** Given distinct ids, and refs unique per kind, the report is the same sequence for every order of the artifacts,
      although contradictions of different kinds of artifact can tie on the sort key. */
  lemma FindingsIgnoreOrder(s: seq<Artifact>, t: seq<Artifact>)
    requires multiset(s) == multiset(t) && DistinctIds(s) && DistinctRefs(s)
    ensures Detected(s) == Detected(t)
  {
    hide GapsOf, ContradictionsOf, Sorted, KeyTells, TieBroken;
    SameGapBag(s, t);
    GapKeysTell(s);
    SortForgetsOrder(GapsOf(s), GapsOf(t), GapKey);
    SameContradictionBag(s, t);
    FineKeyBreaksTies(s);
    FineKeyBreaksTies(t);
    StableSort(ContradictionsOf(s), ContradictionKey, FineKey);
    StableSort(ContradictionsOf(t), ContradictionKey, FineKey);
    FineKeyTells(ContradictionsOf(s));
    SortForgetsOrder(ContradictionsOf(s), ContradictionsOf(t), FineKey);
  }
}
