/** What a score rewards, one part of it after the other, and which agents it is given to. */
module SquadScores {
  import opened Options
  import opened Bags
  import opened Squad

  // ---- the parts of a score ----

  /** An agent without a required skill or tool, outside of the unit's domain and with nobody to review its work, scores
      nothing on a low-risk unit with no declared fit. */
  lemma NothingScores(u: WorkUnit, c: Capability)
    requires u.skills != [] && u.tools != [] && u.domain.None? && u.risk == Low && u.costFit == 0.0
    requires (forall k :: k in u.skills ==> k !in c.skills) && (forall k :: k in u.tools ==> k !in c.tools)
    ensures ExactScore(u, c, []) == 0.0
  {
    NothingShared(u.skills, c.skills);
    NothingShared(u.tools, c.tools);
    NobodyReviews(u, c.ref);
  }

  lemma NothingShared(required: seq<nat>, provided: set<nat>)
    requires required != [] && forall k :: k in required ==> k !in provided
    ensures Share(SetOf(required), provided, 1.0) == Share(SetOf(required), provided, 0.0) == 0.0
  {
    assert required[0] in SetOf(required);
    assert SetOf(required) * provided == {};
  }

  lemma NobodyReviews(u: WorkUnit, builder: nat)
    ensures Reviewers(u, builder, []) == []
  {
  }

  /** The unit's domain is worth 0.15 to an agent that has it. */
  lemma DomainAdds(u: WorkUnit, c: Capability, domains: set<nat>, caps: seq<Capability>)
    ensures ExactScore(u, c.(domains := domains), caps) - ExactScore(u, c.(domains := {}), caps) ==
              if exists d :: u.domain == Some(d) && d in domains then 0.15 else 0.0
  {
    hide Share, Reviewers;
  }

  function Distinct(required: seq<nat>): (n: nat)
    ensures required != [] ==> n > 0
  {
    var all := set k | k in required;
    assert required != [] ==> required[0] in all;
    |all|
  }

  // One more element shared.
  lemma OneMoreShared(required: set<nat>, provided: set<nat>, k: nat, default: real)
    requires k in required && k !in provided
    ensures Share(required, provided + {k}, default) - Share(required, provided, default) == 1.0 / |required| as real
  {
    assert required * (provided + {k}) == required * provided + {k};
    var n, m := |required| as real, |required * provided| as real;
    assert |required| > 0;
    assert (m + 1.0) / n - m / n == 1.0 / n;
  }

  lemma NoneMoreShared(required: set<nat>, provided: set<nat>, k: nat, default: real)
    requires k !in required || k in provided
    ensures Share(required, provided + {k}, default) == Share(required, provided, default)
  {
    assert required * (provided + {k}) == required * provided;
  }

  /** A required skill that the agent lacked is worth 0.30 over the number of distinct required skills; any other
      skill is worth nothing. */
  lemma SkillAdds(u: WorkUnit, c: Capability, k: nat, caps: seq<Capability>)
    ensures ExactScore(u, c.(skills := c.skills + {k}), caps) - ExactScore(u, c, caps) ==
              if k in u.skills && k !in c.skills then 0.30 / Distinct(u.skills) as real else 0.0
  {
    hide Share, Reviewers, SetOf;
    SetOfIs(u.skills);
    if k in u.skills && k !in c.skills {
      OneMoreShared(SetOf(u.skills), c.skills, k, 0.0);
      Scaled(0.30, |SetOf(u.skills)| as real);
    } else {
      NoneMoreShared(SetOf(u.skills), c.skills, k, 0.0);
    }
  }

  lemma SetOfIs(s: seq<nat>)
    ensures |SetOf(s)| == Distinct(s)
    ensures forall k :: k in SetOf(s) <==> k in s
  {
    assert SetOf(s) == set k | k in s;
  }

  lemma Scaled(w: real, n: real)
    requires n > 0.0
    ensures w * (1.0 / n) == w / n
  {
  }

  /** A required tool that the agent lacked is worth 0.15 over the number of distinct required tools; any other tool is
      worth nothing. */
  lemma ToolAdds(u: WorkUnit, c: Capability, k: nat, caps: seq<Capability>)
    ensures ExactScore(u, c.(tools := c.tools + {k}), caps) - ExactScore(u, c, caps) ==
              if k in u.tools && k !in c.tools then 0.15 / Distinct(u.tools) as real else 0.0
  {
    hide Share, Reviewers, SetOf;
    SetOfIs(u.tools);
    if k in u.tools && k !in c.tools {
      OneMoreShared(SetOf(u.tools), c.tools, k, 1.0);
      Scaled(0.15, |SetOf(u.tools)| as real);
    } else {
      NoneMoreShared(SetOf(u.tools), c.tools, k, 1.0);
    }
  }

  /** A unit that needs no tools scores as one whose tools the agent all has. */
  lemma NoToolsAreAllTools(u: WorkUnit, c: Capability, caps: seq<Capability>)
    requires forall k :: k in u.tools ==> k in c.tools
    ensures ExactScore(u.(tools := []), c, caps) == ExactScore(u, c, caps)
  {
    hide Reviewers;
    var required := SetOf(u.tools);
    SetOfIs(u.tools);
    assert required * c.tools == required;
    ReviewersAlike(u, u.(tools := []), c.ref, caps);
    assert SetOf([]) == {};
  }

  // The agent is another than the builder and can review one of the unit's skills.
  predicate MayReview(u: WorkUnit, builder: nat, c: Capability) {
    c.ref != builder && exists k :: k in u.skills && k in c.reviews
  }

  lemma ReviewsOne(u: WorkUnit, builder: nat, c: Capability)
    ensures CanReview(u, builder, c) <==> MayReview(u, builder, c)
  {
    if k :| k in u.skills && k in c.reviews {
      assert k in c.reviews * SetOf(u.skills);
    } else {
      assert c.reviews * SetOf(u.skills) == {};
    }
  }

  lemma IsReviewer(u: WorkUnit, builder: nat, caps: seq<Capability>, ref: nat)
    ensures ref in Reviewers(u, builder, caps) <==> exists c :: c in caps && c.ref == ref && MayReview(u, builder, c)
  {
    hide MayReview, CanReview;
    var f := ReviewerRef(u, builder);
    var found := Collect(caps, f);
    SortedSorts(found, RefOf);
    BagMembers(found, Sorted(found, RefOf));
    CollectMembers(caps, f, ref);
    forall c: Capability ensures f(c) == Some(ref) <==> c.ref == ref && MayReview(u, builder, c) {
      ReviewsOne(u, builder, c);
    }
  }

  /** Who reviews a unit: the refs other than the builder's under which one of its skills can be reviewed, in order. */
  lemma ReviewersAre(u: WorkUnit, builder: nat, caps: seq<Capability>)
    ensures var rs := Reviewers(u, builder, caps);
            && (forall ref :: ref in rs <==> exists c :: c in caps && c.ref == ref && MayReview(u, builder, c))
            && (forall i, j :: 0 <= i < j < |rs| ==> rs[i] <= rs[j])
            && (rs != [] <==> exists c :: c in caps && MayReview(u, builder, c))
  {
    hide MayReview;
    var rs := Reviewers(u, builder, caps);
    forall ref ensures ref in rs <==> exists c :: c in caps && c.ref == ref && MayReview(u, builder, c) {
      IsReviewer(u, builder, caps, ref);
    }
    SortedSorts(Collect(caps, ReviewerRef(u, builder)), RefOf);
    forall i, j | 0 <= i < j < |rs| ensures rs[i] <= rs[j] {
      assert !Before(RefOf(rs[j]), RefOf(rs[i]));
    }
    if rs != [] {
      assert rs[0] in rs;
    }
    forall c | c in caps && MayReview(u, builder, c) ensures c.ref in rs {
    }
  }

  /** Somebody else who can review one of its skills is worth 0.10. */
  lemma ReviewerAdds(u: WorkUnit, c: Capability, caps: seq<Capability>)
    ensures ExactScore(u, c, caps) - ExactScore(u, c, []) ==
              if exists r :: r in caps && MayReview(u, c.ref, r) then 0.10 else 0.0
  {
    hide Share, Reviewers, MayReview;
    ReviewersAre(u, c.ref, caps);
    NobodyReviews(u, c.ref);
  }

  /** The declared fit adds a tenth of itself, but nothing to a high-risk unit. */
  lemma FitAdds(u: WorkUnit, c: Capability, caps: seq<Capability>)
    ensures ExactScore(u, c, caps) - ExactScore(u.(costFit := 0.0), c, caps) ==
              if u.risk == High then 0.0 else 0.10 * u.costFit
  {
    hide Share, Reviewers;
    ReviewersAlike(u, u.(costFit := 0.0), c.ref, caps);
  }

  /** Risk costs 0.1 when it is medium and 0.2 when it is high. */
  lemma RiskCosts(u: WorkUnit, c: Capability, caps: seq<Capability>)
    requires u.costFit == 0.0
    ensures ExactScore(u.(risk := Low), c, caps) - ExactScore(u, c, caps) ==
              match u.risk
              case Low => 0.0
              case Medium => 0.1
              case High => 0.2
  {
    hide Share, Reviewers;
    ReviewersAlike(u, u.(risk := Low), c.ref, caps);
  }

  /** A recorded score is the exact one in millionths, to the nearest, and of two equally near to the even one. */
  lemma ScoreIs(u: WorkUnit, c: Capability, caps: seq<Capability>, m: int)
    ensures Score(u, c, caps) == m <==>
              var off := 1_000_000.0 * ExactScore(u, c, caps) - m as real;
              -0.5 < off < 0.5 || (m % 2 == 0 && (off == 0.5 || off == -0.5))
  {
    hide ExactScore;
    RoundedIs(ExactScore(u, c, caps), m);
  }

  lemma RoundedIs(x: real, m: int)
    ensures Rounded(x) == m <==>
              var off := 1_000_000.0 * x - m as real;
              -0.5 < off < 0.5 || (m % 2 == 0 && (off == 0.5 || off == -0.5))
  {
  }

  // ---- one choice ----

  const OUTSIDER := Capability(1, "builder", {1}, {}, {}, {}, true)
  const INSIDER := Capability(2, "builder", {1}, {}, {7}, {}, true)

  function Chosen(): (WorkUnit, seq<Capability>) {
    (WorkUnit(9, [1], [], Some(7), Low, 0.0, true), [OUTSIDER, INSIDER])
  }

  lemma OneSkillScore(c: Capability)
    requires c.skills == {1}
    ensures ExactScore(Chosen().0, c, Chosen().1) == if 7 in c.domains then 0.60 else 0.45
  {
    hide Reviewers;
    var u, caps := Chosen().0, Chosen().1;
    ReviewersAre(u, c.ref, caps);
    assert SetOf([1]) == {1} && {1} * {1} == {1} && SetOf([]) == {};
  }

  lemma {:induction false} FindsNoMore(caps: seq<Capability>, f: Capability -> Option<Capability>)
    ensures |Collect(caps, f)| <= |caps|
  {
    if caps != [] {
      FindsNoMore(caps[..|caps| - 1], f);
    }
  }

  lemma FewCandidates(u: WorkUnit, caps: seq<Capability>)
    ensures |Candidates(u, caps)| <= |caps|
  {
    var found := Collect(caps, IfCandidate(u));
    FindsNoMore(caps, IfCandidate(u));
    SortedSorts(found, CapabilityKey);
    assert |Sorted(found, CapabilityKey)| == |multiset(found)|;
  }

  /** Of two agents with the one required skill, neither of whom can be reviewed, the one in the unit's domain scores
      0.60 against 0.45 and gets the unit. */
  lemma InsiderIsChosen()
    ensures var u, caps := Chosen().0, Chosen().1;
            Score(u, OUTSIDER, caps) == 450_000 && Score(u, INSIDER, caps) == 600_000 && Best(u, caps) == Some(INSIDER)
  {
    hide ExactScore, Candidates, Best, Rounded;
    var u, caps := Chosen().0, Chosen().1;
    OneSkillScore(OUTSIDER);
    OneSkillScore(INSIDER);
    RoundedIs(0.45, 450_000);
    RoundedIs(0.60, 600_000);
    BestIsBest(u, caps);
    assert 1 in OUTSIDER.skills * SetOf(u.skills) && 1 in INSIDER.skills * SetOf(u.skills);
    FewCandidates(u, caps);
    forall c ensures c in Candidates(u, caps) ==> c == OUTSIDER || c == INSIDER {
      CandidateProvides(u, caps, c);
    }
    CandidateProvides(u, caps, OUTSIDER);
    CandidateProvides(u, caps, INSIDER);
  }

  // ---- bounds ----

  /** Inputs are accepted exactly when there are at most 128 units, each with 1 to 32 skills, at most 32 tools and a fit
      between 0 and 1, the agents provide at most 128 skills, 64 tools and 32 domains each, and all keys are well formed. */
  lemma InputsAccepted(units: seq<WorkUnit>, caps: seq<Capability>)
    ensures InputsOk(units, caps) <==>
            && |units| <= 128
            && (forall u :: u in units ==>
                  u.patternsOk && 1 <= |u.skills| <= 32 && |u.tools| <= 32 && 0.0 <= u.costFit && u.costFit <= 1.0)
            && (forall c :: c in caps ==>
                  c.patternsOk && |c.skills| <= 128 && |c.tools| <= 64 && |c.domains| <= 32)
  {
  }

  /** The candidates of a unit are agents that provide one of its skills, in ref order; with 32 or fewer all of them,
      otherwise the 32 that come first. */
  lemma CandidatesAre(u: WorkUnit, caps: seq<Capability>, c: Capability)
    ensures var cs := Candidates(u, caps);
            var fits := c in caps && exists k :: k in u.skills && k in c.skills;
            && |cs| <= 32 && (forall i, j :: 0 <= i < j < |cs| ==> cs[i].ref <= cs[j].ref)
            && (c in cs ==> fits) && (fits && c !in cs ==> |cs| == 32 && cs[31].ref <= c.ref)
  {
    var cs := Candidates(u, caps);
    CandidateProvides(u, caps, c);
    if c.skills * SetOf(u.skills) == {} {
      assert forall k :: k in u.skills ==> k !in c.skills * SetOf(u.skills);
    } else {
      var k :| k in c.skills * SetOf(u.skills);
      assert k in u.skills && k in c.skills;
    }
    var found := Collect(caps, IfCandidate(u));
    SortedSorts(found, CapabilityKey);
    var all := Sorted(found, CapabilityKey);
    forall i, j | 0 <= i < j < |cs| ensures cs[i].ref <= cs[j].ref {
      assert cs[i] == all[i] && cs[j] == all[j];
      assert !Before(CapabilityKey(all[j]), CapabilityKey(all[i]));
    }
  }

  /** A slot takes at most the first two reviewers of a unit. */
  lemma FirstReviewersAre(u: WorkUnit, ref: nat, caps: seq<Capability>)
    ensures var rs, few := Reviewers(u, ref, caps), FirstReviewers(u, ref, caps);
            few <= rs && |few| == if |rs| < 2 then |rs| else 2
  {
    hide Reviewers;
  }

  // ---- what a plan records ----

  predicate RowOf(m: Match, u: WorkUnit, c: Capability, caps: seq<Capability>) {
    c in Candidates(u, caps) && m.unit == u.ref && m.agent == c.ref && m.score == Score(u, c, caps)
  }

  ghost predicate IsRow(m: Match, units: seq<WorkUnit>, caps: seq<Capability>) {
    exists u, c :: u in units && RowOf(m, u, c, caps)
  }

  lemma RowsOfUnit(u: WorkUnit, caps: seq<Capability>, m: Match)
    ensures m in MatchRows(u, caps) <==> exists c :: RowOf(m, u, c, caps)
  {
    hide Candidates, Score;
    var cs := Candidates(u, caps);
    if c :| RowOf(m, u, c, caps) {
      var i :| 0 <= i < |cs| && cs[i] == c;
      assert MatchRows(u, caps)[i] == m;
    }
    if m in MatchRows(u, caps) {
      var i :| 0 <= i < |cs| && MatchRows(u, caps)[i] == m;
      assert RowOf(m, u, cs[i], caps);
    }
  }

  lemma {:induction false} RowsOfAll(units: seq<WorkUnit>, caps: seq<Capability>, m: Match)
    ensures m in AllMatches(units, caps) <==> IsRow(m, units, caps)
  {
    hide RowOf, MatchRows;
    if units != [] {
      var init, last := units[..|units| - 1], units[|units| - 1];
      RowsOfAll(init, caps, m);
      RowsOfUnit(last, caps, m);
      assert units == init + [last];
      if IsRow(m, init, caps) {
        var u, c :| u in init && RowOf(m, u, c, caps);
        assert u in units;
      }
    }
  }

  lemma WantedMeans(u: WorkUnit, caps: seq<Capability>, k: nat)
    ensures Wanted(u, caps, NeedsSkill(k)) <==> k in u.skills && forall c :: c in caps ==> k !in c.skills
    ensures Wanted(u, caps, NeedsReviewer(k)) <==>
              k in u.skills && Best(u, caps).Some? && forall c :: c in caps ==> !MayReview(u, Best(u, caps).value.ref, c)
  {
    hide Best, Reviewers, MayReview;
    if Best(u, caps).Some? {
      ReviewersAre(u, Best(u, caps).value.ref, caps);
    }
  }

  /** The missing skills, each named once: a required skill that no agent provides, and as lacking a reviewer each skill of
      a unit whose agent nobody else can review. */
  lemma MissingMeans(plan: Plan, units: seq<WorkUnit>, caps: seq<Capability>, k: nat)
    requires PlanOk(plan, units, caps)
    ensures NeedsSkill(k) in plan.missing <==>
              (exists u :: u in units && k in u.skills) && forall c :: c in caps ==> k !in c.skills
    ensures NeedsReviewer(k) in plan.missing <==>
              exists u :: u in units && k in u.skills && Best(u, caps).Some?
                          && forall c :: c in caps ==> !MayReview(u, Best(u, caps).value.ref, c)
    ensures forall i, j :: 0 <= i < j < |plan.missing| ==> plan.missing[i] != plan.missing[j]
  {
    hide SlotsOk, FirstOnes, Flagged, AllMatches, Best, MayReview, Wanted;
    forall u ensures Wanted(u, caps, NeedsSkill(k)) <==> k in u.skills && forall c :: c in caps ==> k !in c.skills
             ensures Wanted(u, caps, NeedsReviewer(k)) <==>
                       k in u.skills && Best(u, caps).Some?
                       && forall c :: c in caps ==> !MayReview(u, Best(u, caps).value.ref, c)
    {
      WantedMeans(u, caps, k);
    }
  }

  /** A plan records the score of every candidate of every unit and nothing else, in at most 4096 rows, and asks for an
      agent for each missing skill and for a reviewer for each unreviewed one. */
  lemma PlanRecords(plan: Plan, units: seq<WorkUnit>, caps: seq<Capability>)
    requires PlanOk(plan, units, caps)
    ensures forall m :: m in plan.matches <==> IsRow(m, units, caps)
    ensures InputsOk(units, caps) ==> |plan.matches| <= 4096
    ensures |plan.requests| == |plan.missing|
    ensures forall i, k :: 0 <= i < |plan.missing| && plan.missing[i] == NeedsSkill(k) ==>
              plan.requests[i] == CreateAgentFor(k)
    ensures forall i, k :: 0 <= i < |plan.missing| && plan.missing[i] == NeedsReviewer(k) ==>
              plan.requests[i] == CreateReviewerFor(k)
  {
    hide SlotsOk, TokensOk, FirstOnes, Flagged, AllMatches, IsRow;
    forall m ensures m in plan.matches <==> IsRow(m, units, caps) {
      RowsOfAll(units, caps, m);
    }
    FewMatches(units, caps);
  }
}
