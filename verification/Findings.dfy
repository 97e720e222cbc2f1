/** The gap and contradiction detector over one project's intake artifacts. */
module Findings {
  import opened Options
  import opened Bags

  datatype Kind = Requirement | AcceptanceCriterion | TestOracle | Assumption | OtherKind(name: string)

  const SAFE := "safe_assumption"

  // Refs are numbered in the order of their text.
  datatype Artifact = Artifact(id: nat, kind: Kind, ref: nat, parent: Option<nat>, classification: Option<string>)

  datatype GapKind = AcceptanceWithoutOracle | NoRequirements | RequirementWithoutAcceptance | UnresolvedAssumption

  // No requirements is reported under the empty ref, before every other ref.
  datatype Gap = Gap(kind: GapKind, ref: int, classification: Option<string>)

  datatype ContradictionKind = OrphanAcceptance | OrphanOracle | RequirementHasParent | SelfParent | WrongKindParent

  // The summary of a wrong parent names the kind of its artifact; the other summaries add nothing to kind and ref.
  datatype Contradiction = Contradiction(kind: ContradictionKind, ref: nat, oracle: bool)

  datatype Report = Report(gaps: seq<Gap>, contradictions: seq<Contradiction>)

  // ---- the parent graph ----

  // The artifact stored last under an id.
  function ById(s: seq<Artifact>, id: nat): Option<Artifact> {
    if s == [] then None
    else if s[|s| - 1].id == id then Some(s[|s| - 1])
    else ById(s[..|s| - 1], id)
  }

  function ParentOf(s: seq<Artifact>, a: Artifact): Option<Artifact> {
    if a.parent.Some? then ById(s, a.parent.value) else None
  }

  predicate HasParentOf(s: seq<Artifact>, a: Artifact, kind: Kind) {
    ParentOf(s, a).Some? && ParentOf(s, a).value.kind == kind
  }

  // An acceptance criterion under a requirement, an oracle under an acceptance criterion.
  predicate ValidAcceptance(s: seq<Artifact>, a: Artifact) {
    a.kind == AcceptanceCriterion && HasParentOf(s, a, Requirement)
  }

  predicate ValidOracle(s: seq<Artifact>, a: Artifact) {
    a.kind == TestOracle && HasParentOf(s, a, AcceptanceCriterion)
  }

  predicate Covered(s: seq<Artifact>, id: nat) {
    exists a :: a in s && ValidAcceptance(s, a) && a.parent == Some(id)
  }

  predicate Judged(s: seq<Artifact>, id: nat) {
    exists o :: o in s && ValidOracle(s, o) && o.parent == Some(id)
  }

  predicate IsSelfParent(a: Artifact) {
    a.parent == Some(a.id)
  }

  // ---- what each stage finds in one artifact ----

  function RequirementGap(s: seq<Artifact>): Artifact -> Option<Gap> {
    (a: Artifact) =>
      if a.kind == Requirement && !Covered(s, a.id) then Some(Gap(RequirementWithoutAcceptance, a.ref, None)) else None
  }

  function AcceptanceGap(s: seq<Artifact>): Artifact -> Option<Gap> {
    (a: Artifact) =>
      if ValidAcceptance(s, a) && !Judged(s, a.id) then Some(Gap(AcceptanceWithoutOracle, a.ref, None)) else None
  }

  function AssumptionGap(a: Artifact): Option<Gap> {
    if a.kind == Assumption && a.classification != Some(SAFE) then Some(Gap(UnresolvedAssumption, a.ref, a.classification))
    else None
  }

  function SelfParentFault(a: Artifact): Option<Contradiction> {
    if IsSelfParent(a) then Some(Contradiction(SelfParent, a.ref, false)) else None
  }

  // The stages after the first skip the ids found to be their own parents.
  predicate Skipped(s: seq<Artifact>, a: Artifact) {
    exists b :: b in s && IsSelfParent(b) && b.id == a.id
  }

  function RequirementFault(s: seq<Artifact>): Artifact -> Option<Contradiction> {
    (a: Artifact) =>
      if a.kind == Requirement && !Skipped(s, a) && a.parent.Some? then Some(Contradiction(RequirementHasParent, a.ref, false))
      else None
  }

  function AcceptanceFault(s: seq<Artifact>): Artifact -> Option<Contradiction> {
    (a: Artifact) =>
      if a.kind != AcceptanceCriterion || Skipped(s, a) then None
      else if a.parent.None? then Some(Contradiction(OrphanAcceptance, a.ref, false))
      else if !HasParentOf(s, a, Requirement) then Some(Contradiction(WrongKindParent, a.ref, false))
      else None
  }

  function OracleFault(s: seq<Artifact>): Artifact -> Option<Contradiction> {
    (a: Artifact) =>
      if a.kind != TestOracle || Skipped(s, a) then None
      else if a.parent.None? then Some(Contradiction(OrphanOracle, a.ref, false))
      else if !HasParentOf(s, a, AcceptanceCriterion) then Some(Contradiction(WrongKindParent, a.ref, true))
      else None
  }

  predicate HasRequirement(s: seq<Artifact>) {
    exists a :: a in s && a.kind == Requirement
  }

  function GapsOf(s: seq<Artifact>): seq<Gap> {
    (if HasRequirement(s) then [] else [Gap(NoRequirements, -1, None)])
    + Collect(s, RequirementGap(s)) + Collect(s, AcceptanceGap(s)) + Collect(s, AssumptionGap)
  }

  function ContradictionsOf(s: seq<Artifact>): seq<Contradiction> {
    Collect(s, SelfParentFault) + Collect(s, RequirementFault(s)) + Collect(s, AcceptanceFault(s)) + Collect(s, OracleFault(s))
  }

  // ---- sort keys ----

  function GapRank(k: GapKind): nat {
    match k
    case AcceptanceWithoutOracle => 0
    case NoRequirements => 1
    case RequirementWithoutAcceptance => 2
    case UnresolvedAssumption => 3
  }

  function GapKey(g: Gap): Key {
    (GapRank(g.kind), g.ref)
  }

  function ContradictionRank(k: ContradictionKind): nat {
    match k
    case OrphanAcceptance => 0
    case OrphanOracle => 1
    case RequirementHasParent => 2
    case SelfParent => 3
    case WrongKindParent => 4
  }

  function ContradictionKey(c: Contradiction): Key {
    (ContradictionRank(c.kind), c.ref)
  }

  function Detected(s: seq<Artifact>): Report {
    Report(Sorted(GapsOf(s), GapKey), Sorted(ContradictionsOf(s), ContradictionKey))
  }

  // ---- the detector ----

  // The artifacts stored under each id, the last one winning.
  method Index(s: seq<Artifact>) returns (byId: map<nat, Artifact>)
    ensures Indexes(byId, s)
  {
    byId := map[];
    for i := 0 to |s|
      invariant forall id :: ById(s[..i], id) == if id in byId then Some(byId[id]) else None
    {
      byId := byId[s[i].id := s[i]];
      assert s[..i + 1][..i] == s[..i];
    }
    assert s[..|s|] == s;
  }

  function KindOfParent(byId: map<nat, Artifact>, a: Artifact): Option<Kind> {
    if a.parent.Some? && a.parent.value in byId then Some(byId[a.parent.value].kind) else None
  }

  ghost predicate Indexes(byId: map<nat, Artifact>, s: seq<Artifact>) {
    forall id :: ById(s, id) == if id in byId then Some(byId[id]) else None
  }

  lemma SameParent(byId: map<nat, Artifact>, s: seq<Artifact>, a: Artifact, kind: Kind)
    requires Indexes(byId, s)
    ensures HasParentOf(s, a, kind) <==> KindOfParent(byId, a) == Some(kind)
  {
  }

  // The ids of the artifacts that have a valid child of the kind.
  method CoveredIds(s: seq<Artifact>, byId: map<nat, Artifact>, kind: Kind, parentKind: Kind) returns (ids: set<nat>)
    requires Indexes(byId, s)
    ensures forall id :: id in ids <==> exists a :: a in s && a.kind == kind && HasParentOf(s, a, parentKind) && a.parent == Some(id)
  {
    forall a ensures HasParentOf(s, a, parentKind) <==> KindOfParent(byId, a) == Some(parentKind) {
      SameParent(byId, s, a, parentKind);
    }
    ids := set a | a in s && a.kind == kind && KindOfParent(byId, a) == Some(parentKind) :: a.parent.value;
  }

  method RequirementGaps(s: seq<Artifact>, covered: set<nat>, before: seq<Gap>) returns (gaps: seq<Gap>)
    requires forall id :: id in covered <==> Covered(s, id)
    ensures gaps == before + Collect(s, RequirementGap(s))
  {
    hide Covered;
    gaps := before;
    for i := 0 to |s|
      invariant gaps == before + Collect(s[..i], RequirementGap(s))
    {
      CollectNext(s, i, RequirementGap(s));
      if s[i].kind == Requirement && s[i].id !in covered {
        gaps := gaps + [Gap(RequirementWithoutAcceptance, s[i].ref, None)];
      }
    }
    assert s[..|s|] == s;
  }

  method AcceptanceGaps(s: seq<Artifact>, byId: map<nat, Artifact>, judged: set<nat>, before: seq<Gap>) returns (gaps: seq<Gap>)
    requires Indexes(byId, s) && forall id :: id in judged <==> Judged(s, id)
    ensures gaps == before + Collect(s, AcceptanceGap(s))
  {
    hide Judged, Indexes, HasParentOf;
    gaps := before;
    for i := 0 to |s|
      invariant gaps == before + Collect(s[..i], AcceptanceGap(s))
    {
      CollectNext(s, i, AcceptanceGap(s));
      SameParent(byId, s, s[i], Requirement);
      if s[i].kind == AcceptanceCriterion && KindOfParent(byId, s[i]) == Some(Requirement) && s[i].id !in judged {
        gaps := gaps + [Gap(AcceptanceWithoutOracle, s[i].ref, None)];
      }
    }
    assert s[..|s|] == s;
  }

  method AssumptionGaps(s: seq<Artifact>, before: seq<Gap>) returns (gaps: seq<Gap>)
    ensures gaps == before + Collect(s, AssumptionGap)
  {
    gaps := before;
    for i := 0 to |s|
      invariant gaps == before + Collect(s[..i], AssumptionGap)
    {
      CollectNext(s, i, AssumptionGap);
      if s[i].kind == Assumption && s[i].classification != Some(SAFE) {
        gaps := gaps + [Gap(UnresolvedAssumption, s[i].ref, s[i].classification)];
      }
    }
    assert s[..|s|] == s;
  }

  method DetectGaps(s: seq<Artifact>, byId: map<nat, Artifact>) returns (gaps: seq<Gap>)
    requires Indexes(byId, s)
    ensures gaps == GapsOf(s)
  {
    hide Indexes, Collect;
    gaps := [];
    if forall a :: a in s ==> a.kind != Requirement {
      gaps := [Gap(NoRequirements, -1, None)];
    }
    var covered := CoveredIds(s, byId, AcceptanceCriterion, Requirement);
    gaps := RequirementGaps(s, covered, gaps);
    var judged := CoveredIds(s, byId, TestOracle, AcceptanceCriterion);
    gaps := AcceptanceGaps(s, byId, judged, gaps);
    gaps := AssumptionGaps(s, gaps);
  }

  method DetectSelfParents(s: seq<Artifact>) returns (found: seq<Contradiction>, selfParents: set<nat>)
    ensures found == Collect(s, SelfParentFault)
    ensures forall id :: id in selfParents <==> exists b :: b in s && IsSelfParent(b) && b.id == id
  {
    found, selfParents := [], {};
    for i := 0 to |s|
      invariant found == Collect(s[..i], SelfParentFault)
      invariant forall id :: id in selfParents <==> exists b :: b in s[..i] && IsSelfParent(b) && b.id == id
    {
      CollectNext(s, i, SelfParentFault);
      if IsSelfParent(s[i]) {
        found := found + [Contradiction(SelfParent, s[i].ref, false)];
        selfParents := selfParents + {s[i].id};
      }
      assert s[..i + 1] == s[..i] + [s[i]];
    }
    assert s[..|s|] == s;
  }

  method RequirementFaults(s: seq<Artifact>, selfParents: set<nat>, before: seq<Contradiction>) returns (found: seq<Contradiction>)
    requires forall a: Artifact :: a.id in selfParents <==> Skipped(s, a)
    ensures found == before + Collect(s, RequirementFault(s))
  {
    hide Skipped;
    found := before;
    for i := 0 to |s|
      invariant found == before + Collect(s[..i], RequirementFault(s))
    {
      CollectNext(s, i, RequirementFault(s));
      if s[i].kind == Requirement && s[i].id !in selfParents && s[i].parent.Some? {
        found := found + [Contradiction(RequirementHasParent, s[i].ref, false)];
      }
    }
    assert s[..|s|] == s;
  }

  method AcceptanceFaults(s: seq<Artifact>, byId: map<nat, Artifact>, selfParents: set<nat>, before: seq<Contradiction>)
    returns (found: seq<Contradiction>)
    requires Indexes(byId, s) && forall a: Artifact :: a.id in selfParents <==> Skipped(s, a)
    ensures found == before + Collect(s, AcceptanceFault(s))
  {
    hide Skipped, Indexes, HasParentOf;
    found := before;
    for i := 0 to |s|
      invariant found == before + Collect(s[..i], AcceptanceFault(s))
    {
      CollectNext(s, i, AcceptanceFault(s));
      SameParent(byId, s, s[i], Requirement);
      if s[i].kind == AcceptanceCriterion && s[i].id !in selfParents {
        if s[i].parent.None? {
          found := found + [Contradiction(OrphanAcceptance, s[i].ref, false)];
        } else if KindOfParent(byId, s[i]) != Some(Requirement) {
          found := found + [Contradiction(WrongKindParent, s[i].ref, false)];
        }
      }
    }
    assert s[..|s|] == s;
  }

  method OracleFaults(s: seq<Artifact>, byId: map<nat, Artifact>, selfParents: set<nat>, before: seq<Contradiction>)
    returns (found: seq<Contradiction>)
    requires Indexes(byId, s) && forall a: Artifact :: a.id in selfParents <==> Skipped(s, a)
    ensures found == before + Collect(s, OracleFault(s))
  {
    hide Skipped, Indexes, HasParentOf;
    found := before;
    for i := 0 to |s|
      invariant found == before + Collect(s[..i], OracleFault(s))
    {
      CollectNext(s, i, OracleFault(s));
      SameParent(byId, s, s[i], AcceptanceCriterion);
      if s[i].kind == TestOracle && s[i].id !in selfParents {
        if s[i].parent.None? {
          found := found + [Contradiction(OrphanOracle, s[i].ref, false)];
        } else if KindOfParent(byId, s[i]) != Some(AcceptanceCriterion) {
          found := found + [Contradiction(WrongKindParent, s[i].ref, true)];
        }
      }
    }
    assert s[..|s|] == s;
  }

  method DetectContradictions(s: seq<Artifact>, byId: map<nat, Artifact>) returns (found: seq<Contradiction>)
    requires Indexes(byId, s)
    ensures found == ContradictionsOf(s)
  {
    hide Indexes, Collect, IsSelfParent;
    var selfParents: set<nat>;
    found, selfParents := DetectSelfParents(s);
    found := RequirementFaults(s, selfParents, found);
    found := AcceptanceFaults(s, byId, selfParents, found);
    found := OracleFaults(s, byId, selfParents, found);
  }

  method DetectFindings(s: seq<Artifact>) returns (report: Report)
    ensures report == Detected(s)
  {
    hide ById, GapsOf, ContradictionsOf;
    var byId := Index(s);
    var gaps := DetectGaps(s, byId);
    var contradictions := DetectContradictions(s, byId);
    return Report(Sorted(gaps, GapKey), Sorted(contradictions, ContradictionKey));
  }
}
