/** Building a project squad: scoring the candidates of each work unit and assigning it greedily. */
module Squad {
  import opened Options
  import opened Bags

  datatype Risk = Low | Medium | High

  // Refs are numbered in the order of their text; skills, tools and domains are only compared for equality. Whether
  // every key has its required pattern is carried as a flag.
  datatype WorkUnit = WorkUnit(ref: nat, skills: seq<nat>, tools: seq<nat>, domain: Option<nat>, risk: Risk,
                               costFit: real, patternsOk: bool)

  datatype Capability = Capability(ref: nat, role: string, skills: set<nat>, tools: set<nat>, domains: set<nat>,
                                   reviews: set<nat>, patternsOk: bool)

  const MAX_WORK_UNITS := 128
  const MAX_REQUIRED := 32
  const MAX_PROVIDED_SKILLS := 128
  const MAX_PROVIDED_TOOLS := 64
  const MAX_DOMAINS := 32
  const MAX_CANDIDATES := 32
  const MAX_MATCH_ROWS := 4096
  const MAX_REVIEWERS := 2

  datatype SquadError = TooManyWorkUnits | BadWorkUnit(ref: nat) | BadCapability(ref: nat)

  predicate UnitOk(u: WorkUnit) {
    u.patternsOk && 0 < |u.skills| <= MAX_REQUIRED && |u.tools| <= MAX_REQUIRED && 0.0 <= u.costFit <= 1.0
  }

  predicate CapabilityOk(c: Capability) {
    c.patternsOk && |c.skills| <= MAX_PROVIDED_SKILLS && |c.tools| <= MAX_PROVIDED_TOOLS && |c.domains| <= MAX_DOMAINS
  }

  predicate InputsOk(units: seq<WorkUnit>, caps: seq<Capability>) {
    |units| <= MAX_WORK_UNITS && (forall u :: u in units ==> UnitOk(u)) && (forall c :: c in caps ==> CapabilityOk(c))
  }

  function SetOf(s: seq<nat>): set<nat> {
    set x | x in s
  }

  // ---- the score ----

  // |required * provided| / |required|, or the default when nothing is required.
  function Share(required: set<nat>, provided: set<nat>, default: real): real {
    if |required| == 0 then default else |required * provided| as real / |required| as real
  }

  predicate CanReview(u: WorkUnit, builder: nat, c: Capability) {
    c.ref != builder && c.reviews * SetOf(u.skills) != {}
  }

  function RefOf(ref: nat): Key {
    (ref, 0)
  }

  function ReviewerRef(u: WorkUnit, builder: nat): Capability -> Option<nat> {
    (c: Capability) => if CanReview(u, builder, c) then Some(c.ref) else None
  }

  // The refs of the agents other than the builder that can review the unit, in order.
  function Reviewers(u: WorkUnit, builder: nat, caps: seq<Capability>): seq<nat> {
    Sorted(Collect(caps, ReviewerRef(u, builder)), RefOf)
  }

  function RiskPenalty(r: Risk): real {
    match r
    case Low => 0.0
    case Medium => 0.1
    case High => 0.2
  }

  function EffectiveCost(u: WorkUnit): real {
    if u.risk == High then 0.0 else u.costFit
  }

  function ExactScore(u: WorkUnit, c: Capability, caps: seq<Capability>): real {
    Share(SetOf(u.skills), c.skills, 0.0) * 0.30
    + (if u.domain.Some? && u.domain.value in c.domains then 1.0 else 0.0) * 0.15
    + Share(SetOf(u.tools), c.tools, 1.0) * 0.15
    + 0.0 * 0.20 // evaluations are not a source yet
    + (if Reviewers(u, c.ref, caps) != [] then 1.0 else 0.0) * 0.10
    + EffectiveCost(u) * 0.10
    - RiskPenalty(u.risk)
  }

  // In millionths, ties to even.
  function Rounded(x: real): int {
    var low := (x * 1_000_000.0).Floor;
    var rest := x * 1_000_000.0 - low as real;
    if rest > 0.5 || (rest == 0.5 && low % 2 == 1) then low + 1 else low
  }

  function Score(u: WorkUnit, c: Capability, caps: seq<Capability>): int {
    Rounded(ExactScore(u, c, caps))
  }

  lemma RoundedIsClose(x: real)
    ensures -0.5 <= Rounded(x) as real - x * 1_000_000.0 <= 0.5
  {
  }

  // ---- candidates ----

  function IfCandidate(u: WorkUnit): Capability -> Option<Capability> {
    (c: Capability) => if c.skills * SetOf(u.skills) != {} then Some(c) else None
  }

  function CapabilityKey(c: Capability): Key {
    (c.ref, 0)
  }

  // Those that provide a required skill, in ref order, the first 32.
  function Candidates(u: WorkUnit, caps: seq<Capability>): (r: seq<Capability>)
    ensures |r| <= MAX_CANDIDATES
  {
    var all := Sorted(Collect(caps, IfCandidate(u)), CapabilityKey);
    if |all| <= MAX_CANDIDATES then all else all[..MAX_CANDIDATES]
  }

  function BestFirst(u: WorkUnit, caps: seq<Capability>): Capability -> Key {
    (c: Capability) => (-Score(u, c, caps), c.ref)
  }

  function Best(u: WorkUnit, caps: seq<Capability>): Option<Capability> {
    var ranked := Sorted(Candidates(u, caps), BestFirst(u, caps));
    if ranked == [] then None else Some(ranked[0])
  }

  /** The chosen agent is a candidate, none of the candidates scores higher, and of those that score the same it has the
      least ref; a unit with a candidate always gets one. */
  lemma BestIsBest(u: WorkUnit, caps: seq<Capability>)
    ensures Best(u, caps).None? <==> Candidates(u, caps) == []
    ensures Best(u, caps).Some? ==>
              var b := Best(u, caps).value;
              && b in Candidates(u, caps)
              && forall c :: c in Candidates(u, caps) ==>
                   Score(u, c, caps) < Score(u, b, caps) || (Score(u, c, caps) == Score(u, b, caps) && b.ref <= c.ref)
  {
    hide Score, Candidates;
    var cs := Candidates(u, caps);
    var ranked := Sorted(cs, BestFirst(u, caps));
    SortedSorts(cs, BestFirst(u, caps));
    BagMembers(cs, ranked);
    forall c | c in cs && ranked != []
      ensures Score(u, c, caps) < Score(u, ranked[0], caps)
              || (Score(u, c, caps) == Score(u, ranked[0], caps) && ranked[0].ref <= c.ref)
    {
      var k :| 0 <= k < |ranked| && ranked[k] == c;
      FirstIsLeast(ranked, BestFirst(u, caps), k);
    }
  }

  /** By its exact score the chosen agent is within a millionth of every candidate. */
  lemma BestWithinAMillionth(u: WorkUnit, caps: seq<Capability>, c: Capability)
    requires c in Candidates(u, caps)
    ensures Best(u, caps).Some?
    ensures ExactScore(u, c, caps) <= ExactScore(u, Best(u, caps).value, caps) + 0.000_001
  {
    hide ExactScore, Candidates, Best, Rounded;
    BestIsBest(u, caps);
    RoundedIsClose(ExactScore(u, c, caps));
    RoundedIsClose(ExactScore(u, Best(u, caps).value, caps));
  }

  // A candidate provides a required skill, and no capability left out of a full list comes before it.
  lemma CandidateProvides(u: WorkUnit, caps: seq<Capability>, c: Capability)
    ensures c in Candidates(u, caps) ==> c in caps && c.skills * SetOf(u.skills) != {}
    ensures c in caps && c.skills * SetOf(u.skills) != {} ==>
              c in Candidates(u, caps)
              || (|Candidates(u, caps)| == MAX_CANDIDATES && forall d :: d in Candidates(u, caps) ==> d.ref <= c.ref)
  {
    var found := Collect(caps, IfCandidate(u));
    var all := Sorted(found, CapabilityKey);
    SortedSorts(found, CapabilityKey);
    BagMembers(found, all);
    CollectMembers(caps, IfCandidate(u), c);
    if c in all {
      var k :| 0 <= k < |all| && all[k] == c;
      forall d | d in all[..if |all| <= MAX_CANDIDATES then |all| else MAX_CANDIDATES] && c !in Candidates(u, caps)
        ensures d.ref <= c.ref
      {
        var m :| 0 <= m < MAX_CANDIDATES && all[m] == d;
        assert k >= MAX_CANDIDATES;
      }
    }
  }

  /** A high-risk unit is scored and assigned as if it had declared no cost or latency fit. */
  lemma HighRiskIgnoresCost(u: WorkUnit, caps: seq<Capability>, c: Capability, costFit: real)
    requires u.risk == High
    ensures Score(u.(costFit := costFit), c, caps) == Score(u, c, caps)
  {
    hide Rounded;
    var v := u.(costFit := costFit);
    ReviewersAlike(u, v, c.ref, caps);
  }

  lemma ReviewersAlike(u: WorkUnit, v: WorkUnit, builder: nat, caps: seq<Capability>)
    requires u.skills == v.skills
    ensures Reviewers(u, builder, caps) == Reviewers(v, builder, caps)
  {
    hide Sorted, Collect;
    CollectAlike(caps, ReviewerRef(u, builder), ReviewerRef(v, builder));
  }

  // ---- the squad ----

  datatype Token = NeedsSkill(skill: nat) | NeedsReviewer(skill: nat)

  datatype Request = CreateAgentFor(skill: nat) | CreateReviewerFor(skill: nat)

  datatype Slot = Slot(role: string, workUnits: seq<nat>, reviewers: seq<nat>)

  datatype Match = Match(unit: nat, agent: nat, score: int)

  // The active agents by ref, the missing skills, the factory requests, and the match rows.
  datatype Plan = Plan(agents: map<nat, Slot>, missing: seq<Token>, requests: seq<Request>, matches: seq<Match>)

  function RequestFor(t: Token): Request {
    match t
    case NeedsSkill(k) => CreateAgentFor(k)
    case NeedsReviewer(k) => CreateReviewerFor(k)
  }

  predicate NoRepeats<T(==)>(s: seq<T>) {
    forall i, j :: 0 <= i < j < |s| ==> s[i] != s[j]
  }

  predicate Parallel(missing: seq<Token>, requests: seq<Request>) {
    NoRepeats(missing) && |missing| == |requests| && forall i :: 0 <= i < |missing| ==> requests[i] == RequestFor(missing[i])
  }

  predicate Provided(caps: seq<Capability>, skill: nat) {
    exists c :: c in caps && skill in c.skills
  }

  // A required skill nobody provides, or any skill of a unit whose agent nobody else can review.
  predicate Wanted(u: WorkUnit, caps: seq<Capability>, t: Token) {
    match t
    case NeedsSkill(k) => k in u.skills && !Provided(caps, k)
    case NeedsReviewer(k) => k in u.skills && Best(u, caps).Some? && Reviewers(u, Best(u, caps).value.ref, caps) == []
  }

  function IfFlagged(test: nat -> bool, token: nat -> Token): nat -> Option<Token> {
    (k: nat) => if test(k) then Some(token(k)) else None
  }

  function Flags(skills: seq<nat>, test: nat -> bool, token: nat -> Token): seq<Token> {
    Collect(skills, IfFlagged(test, token))
  }

  function Unprovided(caps: seq<Capability>): nat -> bool {
    (k: nat) => !Provided(caps, k)
  }

  function Unreviewed(u: WorkUnit, caps: seq<Capability>): nat -> bool {
    (k: nat) => Best(u, caps).Some? && Reviewers(u, Best(u, caps).value.ref, caps) == []
  }

  function SkillToken(): nat -> Token {
    (k: nat) => NeedsSkill(k)
  }

  function ReviewerToken(): nat -> Token {
    (k: nat) => NeedsReviewer(k)
  }

  // What is flagged unit by unit, repetitions included: its unprovided skills, then those its agent cannot have reviewed.
  function Flagged(units: seq<WorkUnit>, caps: seq<Capability>): seq<Token> {
    if units == [] then []
    else
      var u := units[|units| - 1];
      Flagged(units[..|units| - 1], caps) + Flags(u.skills, Unprovided(caps), SkillToken())
      + Flags(u.skills, Unreviewed(u, caps), ReviewerToken())
  }

  // Each element where it first occurs.
  function FirstOnes<T(==)>(s: seq<T>): seq<T> {
    if s == [] then []
    else
      var r := FirstOnes(s[..|s| - 1]);
      if s[|s| - 1] in r then r else r + [s[|s| - 1]]
  }

  predicate GoesTo(u: WorkUnit, caps: seq<Capability>, ref: nat) {
    Best(u, caps).Some? && Best(u, caps).value.ref == ref
  }

  function IfAssigned(caps: seq<Capability>, ref: nat): WorkUnit -> Option<nat> {
    (u: WorkUnit) => if GoesTo(u, caps, ref) then Some(u.ref) else None
  }

  function IfRole(caps: seq<Capability>, ref: nat): WorkUnit -> Option<string> {
    (u: WorkUnit) => if GoesTo(u, caps, ref) then Some(Best(u, caps).value.role) else None
  }

  // The roles under which the units went to this agent. The slot keeps the first: refs need not tell capabilities apart.
  function Roles(units: seq<WorkUnit>, caps: seq<Capability>, ref: nat): seq<string> {
    Collect(units, IfRole(caps, ref))
  }

  // The units whose best agent is this one, in order.
  function Assigned(units: seq<WorkUnit>, caps: seq<Capability>, ref: nat): seq<nat> {
    Collect(units, IfAssigned(caps, ref))
  }

  function FirstReviewers(u: WorkUnit, ref: nat, caps: seq<Capability>): seq<nat> {
    var rs := Reviewers(u, ref, caps);
    if |rs| <= MAX_REVIEWERS then rs else rs[..MAX_REVIEWERS]
  }

  predicate Reviews(units: seq<WorkUnit>, caps: seq<Capability>, ref: nat, reviewer: nat) {
    exists u :: u in units && GoesTo(u, caps, ref) && reviewer in FirstReviewers(u, ref, caps)
  }

  ghost predicate SlotOk(slot: Slot, units: seq<WorkUnit>, caps: seq<Capability>, ref: nat) {
    && (Roles(units, caps, ref) != [] ==> slot.role == Roles(units, caps, ref)[0])
    && slot.workUnits == Assigned(units, caps, ref)
    && NoRepeats(slot.reviewers)
    && (forall r :: r in slot.reviewers <==> Reviews(units, caps, ref, r))
    && ref !in slot.reviewers
  }

  // Each agent's slot lists exactly the units assigned to it, once each, and reviewers other than itself.
  ghost predicate SlotsOk(agents: map<nat, Slot>, units: seq<WorkUnit>, caps: seq<Capability>) {
    && (forall ref :: ref in agents <==> Assigned(units, caps, ref) != [])
    && (forall ref :: ref in agents ==> SlotOk(agents[ref], units, caps, ref))
  }

  ghost predicate TokensOk(missing: seq<Token>, units: seq<WorkUnit>, caps: seq<Capability>) {
    forall t :: t in missing <==> exists u :: u in units && Wanted(u, caps, t)
  }

  function MatchRows(u: WorkUnit, caps: seq<Capability>): seq<Match> {
    var cs := Candidates(u, caps);
    seq(|cs|, i requires 0 <= i < |cs| => Match(u.ref, cs[i].ref, Score(u, cs[i], caps)))
  }

  function AllMatches(units: seq<WorkUnit>, caps: seq<Capability>): seq<Match> {
    if units == [] then [] else AllMatches(units[..|units| - 1], caps) + MatchRows(units[|units| - 1], caps)
  }

  // No agent reviews its own work.
  lemma ReviewerIsAnother(u: WorkUnit, ref: nat, caps: seq<Capability>)
    ensures ref !in Reviewers(u, ref, caps)
  {
    var found := Collect(caps, ReviewerRef(u, ref));
    CollectMembers(caps, ReviewerRef(u, ref), ref);
    SortedSorts(found, RefOf);
    BagMembers(found, Sorted(found, RefOf));
  }

  lemma {:induction false} FewMatches(units: seq<WorkUnit>, caps: seq<Capability>)
    ensures |AllMatches(units, caps)| <= MAX_CANDIDATES * |units|
  {
    if units != [] {
      FewMatches(units[..|units| - 1], caps);
    }
  }

  // ---- building it ----

  method Validate(units: seq<WorkUnit>, caps: seq<Capability>) returns (error: Option<SquadError>)
    ensures error.None? <==> InputsOk(units, caps)
  {
    if |units| > MAX_WORK_UNITS {
      return Some(TooManyWorkUnits);
    }
    for i := 0 to |units|
      invariant forall u :: u in units[..i] ==> UnitOk(u)
    {
      if !UnitOk(units[i]) {
        assert units[i] in units;
        return Some(BadWorkUnit(units[i].ref));
      }
      assert units[..i + 1] == units[..i] + [units[i]];
    }
    assert units[..|units|] == units;
    for i := 0 to |caps|
      invariant forall c :: c in caps[..i] ==> CapabilityOk(c)
    {
      if !CapabilityOk(caps[i]) {
        assert caps[i] in caps;
        return Some(BadCapability(caps[i].ref));
      }
      assert caps[..i + 1] == caps[..i] + [caps[i]];
    }
    assert caps[..|caps|] == caps;
    return None;
  }

  lemma OneMoreFlag(flagged: seq<Token>, t: Token)
    ensures FirstOnes(flagged + [t]) ==
              if t in FirstOnes(flagged) then FirstOnes(flagged) else FirstOnes(flagged) + [t]
  {
    assert (flagged + [t])[..|flagged|] == flagged;
  }

  lemma FlagsNext(skills: seq<nat>, n: nat, test: nat -> bool, token: nat -> Token)
    requires n < |skills|
    ensures Flags(skills[..n + 1], test, token) ==
              Flags(skills[..n], test, token) + if test(skills[n]) then [token(skills[n])] else []
  {
    CollectNext(skills, n, IfFlagged(test, token));
  }

  lemma NoFlags(test: nat -> bool, token: nat -> Token)
    ensures Flags([], test, token) == []
  {
  }

  // `flagged` is what has been flagged so far, repetitions included.
  method FlagMissing(missing: seq<Token>, requests: seq<Request>, t: Token, ghost flagged: seq<Token>)
    returns (missing': seq<Token>, requests': seq<Request>)
    requires Parallel(missing, requests) && missing == FirstOnes(flagged)
    ensures Parallel(missing', requests') && missing' == FirstOnes(flagged + [t])
    ensures forall x :: x in missing' <==> x in missing || x == t
  {
    missing', requests' := missing, requests;
    OneMoreFlag(flagged, t);
    if t !in missing {
      missing', requests' := missing + [t], requests + [RequestFor(t)];
    }
  }

  // Flags each skill that passes the test, under the given kind of token.
  method FlagSkills(skills: seq<nat>, test: nat -> bool, token: nat -> Token, missing: seq<Token>, requests: seq<Request>,
                    ghost flagged: seq<Token>)
    returns (missing': seq<Token>, requests': seq<Request>)
    requires Parallel(missing, requests) && missing == FirstOnes(flagged)
    ensures Parallel(missing', requests') && missing' == FirstOnes(flagged + Flags(skills, test, token))
    ensures forall x :: x in missing' <==> x in missing || exists k :: k in skills && test(k) && x == token(k)
  {
    hide FirstOnes, Collect;
    missing', requests' := missing, requests;
    NoFlags(test, token);
    assert flagged + [] == flagged && skills[..0] == [];
    for i := 0 to |skills|
      invariant Parallel(missing', requests') && missing' == FirstOnes(flagged + Flags(skills[..i], test, token))
      invariant forall x :: x in missing' <==> x in missing || exists k :: k in skills[..i] && test(k) && x == token(k)
    {
      ghost var sofar := flagged + Flags(skills[..i], test, token);
      FlagsNext(skills, i, test, token);
      if test(skills[i]) {
        missing', requests' := FlagMissing(missing', requests', token(skills[i]), sofar);
        assert flagged + Flags(skills[..i + 1], test, token) == sofar + [token(skills[i])];
      } else {
        assert flagged + Flags(skills[..i + 1], test, token) == sofar;
      }
      assert skills[..i + 1] == skills[..i] + [skills[i]];
    }
    assert skills[..|skills|] == skills;
  }

  method AddReviewers(reviewers: seq<nat>, more: seq<nat>) returns (r: seq<nat>)
    requires NoRepeats(reviewers)
    ensures NoRepeats(r) && forall x :: x in r <==> x in reviewers || x in more
  {
    r := reviewers;
    for i := 0 to |more|
      invariant NoRepeats(r) && forall x :: x in r <==> x in reviewers || x in more[..i]
    {
      if more[i] !in r {
        r := r + [more[i]];
      }
      assert more[..i + 1] == more[..i] + [more[i]];
    }
    assert more[..|more|] == more;
  }

  lemma AssignedNext(units: seq<WorkUnit>, n: nat, caps: seq<Capability>, ref: nat)
    requires n < |units|
    ensures Assigned(units[..n + 1], caps, ref) ==
              Assigned(units[..n], caps, ref) + if GoesTo(units[n], caps, ref) then [units[n].ref] else []
  {
    CollectNext(units, n, IfAssigned(caps, ref));
  }

  lemma RolesNext(units: seq<WorkUnit>, n: nat, caps: seq<Capability>, ref: nat)
    requires n < |units|
    ensures Roles(units[..n + 1], caps, ref) ==
              Roles(units[..n], caps, ref) + if GoesTo(units[n], caps, ref) then [Best(units[n], caps).value.role] else []
  {
    hide Best;
    CollectNext(units, n, IfRole(caps, ref));
  }

  // An agent has a role for every unit.
  lemma {:induction false} RoleForEach(units: seq<WorkUnit>, caps: seq<Capability>, ref: nat)
    ensures |Roles(units, caps, ref)| == |Assigned(units, caps, ref)|
  {
    hide Best;
    if units != [] {
      RoleForEach(units[..|units| - 1], caps, ref);
    }
  }

  lemma ReviewsNext(units: seq<WorkUnit>, n: nat, caps: seq<Capability>, ref: nat, r: nat)
    requires n < |units|
    ensures Reviews(units[..n + 1], caps, ref, r) <==>
              Reviews(units[..n], caps, ref, r) || (GoesTo(units[n], caps, ref) && r in FirstReviewers(units[n], ref, caps))
  {
  }

  lemma SlotUntouched(slot: Slot, units: seq<WorkUnit>, n: nat, caps: seq<Capability>, ref: nat)
    requires n < |units| && SlotOk(slot, units[..n], caps, ref) && !GoesTo(units[n], caps, ref)
    ensures SlotOk(slot, units[..n + 1], caps, ref)
  {
    hide Assigned, Roles, Reviews, GoesTo;
    AssignedNext(units, n, caps, ref);
    RolesNext(units, n, caps, ref);
    forall r ensures Reviews(units[..n + 1], caps, ref, r) <==> Reviews(units[..n], caps, ref, r) {
      ReviewsNext(units, n, caps, ref, r);
    }
  }

  lemma SlotExtended(before: Slot, after: Slot, units: seq<WorkUnit>, n: nat, caps: seq<Capability>, ref: nat)
    requires n < |units| && SlotOk(before, units[..n], caps, ref) && GoesTo(units[n], caps, ref)
    requires after.workUnits == before.workUnits + [units[n].ref] && NoRepeats(after.reviewers)
    requires after.role == before.role
    requires Assigned(units[..n], caps, ref) == [] ==> before.role == Best(units[n], caps).value.role
    requires forall x :: x in after.reviewers <==> x in before.reviewers || x in FirstReviewers(units[n], ref, caps)
    ensures SlotOk(after, units[..n + 1], caps, ref)
  {
    hide Assigned, Roles, Reviews, Reviewers, Best;
    AssignedNext(units, n, caps, ref);
    RolesNext(units, n, caps, ref);
    RoleForEach(units[..n], caps, ref);
    forall r ensures Reviews(units[..n + 1], caps, ref, r) <==> r in after.reviewers {
      ReviewsNext(units, n, caps, ref, r);
    }
    ReviewerIsAnother(units[n], ref, caps);
  }

  lemma SlotOpened(role: string, units: seq<WorkUnit>, caps: seq<Capability>, ref: nat)
    requires Assigned(units, caps, ref) == []
    ensures SlotOk(Slot(role, [], []), units, caps, ref)
  {
    hide GoesTo, FirstReviewers;
    RoleForEach(units, caps, ref);
    CollectNone(units, IfAssigned(caps, ref));
    forall u | u in units ensures !GoesTo(u, caps, ref) {
      var i :| 0 <= i < |units| && units[i] == u;
      assert IfAssigned(caps, ref)(units[i]).None?;
    }
  }

  // The assignment of one unit to its best agent.
  method Assign(agents: map<nat, Slot>, units: seq<WorkUnit>, ghost n: nat, u: WorkUnit, caps: seq<Capability>, best: Capability)
    returns (agents': map<nat, Slot>)
    requires n < |units| && u == units[n] && SlotsOk(agents, units[..n], caps) && Best(u, caps) == Some(best)
    ensures SlotsOk(agents', units[..n + 1], caps)
  {
    hide SlotOk, Assigned, Best, Reviewers;
    var ref := best.ref;
    var slot := Slot(best.role, [], []);
    if ref in agents {
      slot := agents[ref];
    } else {
      SlotOpened(best.role, units[..n], caps, ref);
    }
    SlotHasNoRepeats(slot, units[..n], caps, ref);
    var reviewers := AddReviewers(slot.reviewers, FirstReviewers(u, ref, caps));
    var after := Slot(slot.role, slot.workUnits + [u.ref], reviewers);
    SlotExtended(slot, after, units, n, caps, ref);
    agents' := agents[ref := after];
    forall r ensures r in agents' <==> Assigned(units[..n + 1], caps, r) != [] {
      AssignedNext(units, n, caps, r);
    }
    forall r | r in agents' ensures SlotOk(agents'[r], units[..n + 1], caps, r) {
      if r != ref {
        SlotUntouched(agents[r], units, n, caps, r);
      }
    }
  }

  lemma SlotHasNoRepeats(slot: Slot, units: seq<WorkUnit>, caps: seq<Capability>, ref: nat)
    requires SlotOk(slot, units, caps, ref)
    ensures NoRepeats(slot.reviewers)
  {
  }

  lemma NobodyAssigned(agents: map<nat, Slot>, units: seq<WorkUnit>, n: nat, caps: seq<Capability>)
    requires n < |units| && SlotsOk(agents, units[..n], caps) && Best(units[n], caps).None?
    ensures SlotsOk(agents, units[..n + 1], caps)
  {
    hide SlotOk, Assigned, Best;
    forall r ensures r in agents <==> Assigned(units[..n + 1], caps, r) != [] {
      AssignedNext(units, n, caps, r);
    }
    forall r | r in agents ensures SlotOk(agents[r], units[..n + 1], caps, r) {
      SlotUntouched(agents[r], units, n, caps, r);
    }
  }

  lemma TokensNext(missing: seq<Token>, after: seq<Token>, units: seq<WorkUnit>, n: nat, caps: seq<Capability>)
    requires n < |units| && TokensOk(missing, units[..n], caps)
    requires forall t :: t in after <==> t in missing || Wanted(units[n], caps, t)
    ensures TokensOk(after, units[..n + 1], caps)
  {
  }

  lemma MatchesNext(units: seq<WorkUnit>, n: nat, caps: seq<Capability>)
    requires n < |units|
    ensures AllMatches(units[..n + 1], caps) == AllMatches(units[..n], caps) + MatchRows(units[n], caps)
  {
    hide MatchRows;
    assert units[..n + 1][..n] == units[..n];
  }

  lemma FlaggedNext(units: seq<WorkUnit>, n: nat, caps: seq<Capability>)
    requires n < |units|
    ensures Flagged(units[..n + 1], caps) ==
              Flagged(units[..n], caps) + Flags(units[n].skills, Unprovided(caps), SkillToken())
              + Flags(units[n].skills, Unreviewed(units[n], caps), ReviewerToken())
  {
    hide Flags, Unprovided, Unreviewed;
    assert units[..n + 1][..n] == units[..n];
  }

  // The tokens a unit adds: first its unprovided skills, then the reviewers its agent lacks.
  method FlagUnit(u: WorkUnit, caps: seq<Capability>, missing: seq<Token>, requests: seq<Request>, ghost flagged: seq<Token>)
    returns (missing': seq<Token>, requests': seq<Request>)
    requires Parallel(missing, requests) && missing == FirstOnes(flagged)
    ensures Parallel(missing', requests')
    ensures missing' == FirstOnes(flagged + Flags(u.skills, Unprovided(caps), SkillToken())
                                  + Flags(u.skills, Unreviewed(u, caps), ReviewerToken()))
    ensures forall t :: t in missing' <==> t in missing || Wanted(u, caps, t)
  {
    hide Best, Reviewers, Provided, Parallel, FirstOnes, Flags;
    missing', requests' := FlagSkills(u.skills, Unprovided(caps), SkillToken(), missing, requests, flagged);
    ghost var skillsOnly := missing';
    missing', requests' := FlagSkills(u.skills, Unreviewed(u, caps), ReviewerToken(), missing', requests',
                                      flagged + Flags(u.skills, Unprovided(caps), SkillToken()));
    forall t ensures t in missing' <==> t in missing || Wanted(u, caps, t) {
      match t
      case NeedsSkill(k) => assert t in missing' <==> t in skillsOnly;
      case NeedsReviewer(k) => assert t in skillsOnly <==> t in missing;
    }
  }

  ghost predicate PlanOk(plan: Plan, units: seq<WorkUnit>, caps: seq<Capability>) {
    && SlotsOk(plan.agents, units, caps)
    && TokensOk(plan.missing, units, caps) && Parallel(plan.missing, plan.requests)
    && plan.missing == FirstOnes(Flagged(units, caps))
    && plan.matches == AllMatches(units, caps)
  }

  /** Refuses exactly the inputs out of bounds. Otherwise each unit with a candidate is listed once, in the slot of its
      best agent and nowhere else; no agent is among its own reviewers; the missing skills are the wanted ones without
      repetition, in the order they were first flagged, each with its request; every scored candidate has one row; and
      the rows never exceed their limit. */
  method BuildSquad(units: seq<WorkUnit>, caps: seq<Capability>) returns (r: Result<Plan, SquadError>)
    ensures r.Ok? <==> InputsOk(units, caps)
    ensures r.Ok? ==> PlanOk(r.value, units, caps) && |r.value.matches| <= MAX_MATCH_ROWS
  {
    hide InputsOk, SlotsOk, TokensOk, Parallel, AllMatches, MatchRows, Best, Wanted, FirstOnes, Flags;
    var error := Validate(units, caps);
    if error.Some? {
      return Err(error.value);
    }
    var agents: map<nat, Slot> := map[];
    var missing: seq<Token>, requests: seq<Request>, matches: seq<Match> := [], [], [];
    NothingPlanned(units, caps);
    for i := 0 to |units|
      invariant SlotsOk(agents, units[..i], caps)
      invariant TokensOk(missing, units[..i], caps) && Parallel(missing, requests)
      invariant missing == FirstOnes(Flagged(units[..i], caps))
      invariant matches == AllMatches(units[..i], caps)
    {
      var u := units[i];
      ghost var before := missing;
      missing, requests := FlagUnit(u, caps, missing, requests, Flagged(units[..i], caps));
      FlaggedNext(units, i, caps);
      TokensNext(before, missing, units, i, caps);
      matches := matches + MatchRows(u, caps);
      MatchesNext(units, i, caps);
      var best := Best(u, caps);
      match best {
        case Some(b) => agents := Assign(agents, units, i, u, caps, b);
        case None => NobodyAssigned(agents, units, i, caps);
      }
    }
    assert units[..|units|] == units;
    FewMatches(units, caps);
    RowsInBounds(units, caps);
    return Ok(Plan(agents, missing, requests, matches));
  }

  lemma RowsInBounds(units: seq<WorkUnit>, caps: seq<Capability>)
    requires InputsOk(units, caps)
    ensures MAX_CANDIDATES * |units| <= MAX_MATCH_ROWS
  {
  }

  lemma NothingPlanned(units: seq<WorkUnit>, caps: seq<Capability>)
    ensures SlotsOk(map[], units[..0], caps) && TokensOk([], units[..0], caps) && Parallel([], [])
    ensures AllMatches(units[..0], caps) == [] && FirstOnes(Flagged(units[..0], caps)) == []
  {
  }

  // ---- what a plan means for one unit ----

  lemma SlotHasRole(slot: Slot, units: seq<WorkUnit>, caps: seq<Capability>, ref: nat)
    requires SlotOk(slot, units, caps, ref) && Assigned(units, caps, ref) != []
    ensures exists c :: c in caps && c.ref == ref && c.role == slot.role
  {
    hide Candidates, Score, Reviewers, Assigned, Roles;
    RoleForEach(units, caps, ref);
    FirstRole(units, caps, ref);
  }

  lemma FirstRole(units: seq<WorkUnit>, caps: seq<Capability>, ref: nat)
    requires Roles(units, caps, ref) != []
    ensures exists c :: c in caps && c.ref == ref && c.role == Roles(units, caps, ref)[0]
  {
    hide Candidates, Score, Reviewers, Best;
    var role := Roles(units, caps, ref)[0];
    CollectMembers(units, IfRole(caps, ref), role);
    var i :| 0 <= i < |units| && IfRole(caps, ref)(units[i]) == Some(role);
    BestIsBest(units[i], caps);
    CandidateProvides(units[i], caps, Best(units[i], caps).value);
  }

  /** Listing by listing, a unit with candidates is worked on by its best agent and by nobody else, and it is reviewed by
      somebody other than that agent who can review this unit, or its skills are reported as lacking a reviewer. The slot has the role under which its first
      unit came, so the agent's role wherever its ref is its own. */
  lemma EveryUnitIsPlaced(plan: Plan, units: seq<WorkUnit>, caps: seq<Capability>, k: nat)
    requires PlanOk(plan, units, caps) && k < |units| && Candidates(units[k], caps) != []
    ensures var u, b := units[k], Best(units[k], caps);
            && b.Some? && b.value.ref in plan.agents && u.ref in plan.agents[b.value.ref].workUnits
            && (forall ref :: GoesTo(u, caps, ref) <==> ref == b.value.ref)
            && (if Reviewers(u, b.value.ref, caps) == [] then forall s :: s in u.skills ==> NeedsReviewer(s) in plan.missing
                else exists r :: r in Reviewers(u, b.value.ref, caps) && r in plan.agents[b.value.ref].reviewers)
            && b.value.ref !in plan.agents[b.value.ref].reviewers
            && (exists c :: c in caps && c.ref == b.value.ref && c.role == plan.agents[b.value.ref].role)
            && ((forall c :: c in caps && c.ref == b.value.ref ==> c == b.value) ==>
                  plan.agents[b.value.ref].role == b.value.role)
  {
    hide Candidates, Score, Reviewers, Flagged, FirstOnes;
    var u := units[k];
    BestIsBest(u, caps);
    var b := Best(u, caps).value;
    assert GoesTo(u, caps, b.ref) && IfAssigned(caps, b.ref)(u) == Some(u.ref);
    CollectMembers(units, IfAssigned(caps, b.ref), u.ref);
    SlotHasRole(plan.agents[b.ref], units, caps, b.ref);
    var rs := Reviewers(u, b.ref, caps);
    if rs == [] {
      forall s | s in u.skills ensures NeedsReviewer(s) in plan.missing {
        assert Wanted(u, caps, NeedsReviewer(s));
      }
    } else {
      assert rs[0] in FirstReviewers(u, b.ref, caps);
      assert Reviews(units, caps, b.ref, rs[0]);
    }
  }
}
