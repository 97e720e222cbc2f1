/** Qualification scoring: counting recorded cases and testing the rounded pass rate against a threshold. */
module Qualification {
  import opened Options
  import opened Decimals
  import opened Bags

  datatype Category = Positive | Negative | Edge | Adversarial | Incomplete

  datatype Case = Case(category: Category, passed: bool, critical: bool)

  datatype Counts = Counts(total: nat, passed: nat, criticalFailures: nat, categories: set<Category>)

  // The archetype threshold; the score is in thousandths.
  datatype Threshold = Threshold(minCases: int, minScore: nat, requireZeroCritical: bool, required: set<Category>)

  datatype Verdict = Passed | Failed

  datatype ScoreError = DivisionByZero

  function Pass(c: Case): nat {
    if c.passed then 1 else 0
  }

  function CriticalFailure(c: Case): nat {
    if c.critical && !c.passed then 1 else 0
  }

  function Tally(cases: seq<Case>): Counts {
    Counts(|cases|, Sum(cases, Pass), Sum(cases, CriticalFailure), set c | c in cases :: c.category)
  }

  lemma SumNext<T>(s: seq<T>, n: nat, f: T -> nat)
    requires n < |s|
    ensures Sum(s[..n + 1], f) == Sum(s[..n], f) + f(s[n])
  {
    assert s[..n + 1][..n] == s[..n];
  }

  method DeriveCounts(cases: seq<Case>) returns (counts: Counts)
    ensures counts == Tally(cases)
  {
    var total, passed, criticalFailures := 0, 0, 0;
    var categories: set<Category> := {};
    for i := 0 to |cases|
      invariant total == i && passed == Sum(cases[..i], Pass) && criticalFailures == Sum(cases[..i], CriticalFailure)
      invariant categories == set c | c in cases[..i] :: c.category
    {
      var c := cases[i];
      SumNext(cases, i, Pass);
      SumNext(cases, i, CriticalFailure);
      total := total + 1;
      if c.passed {
        passed := passed + 1;
      }
      if c.critical && !c.passed {
        criticalFailures := criticalFailures + 1;
      }
      categories := categories + {c.category};
      assert cases[..i + 1] == cases[..i] + [c];
    }
    assert cases[..|cases|] == cases;
    return Counts(total, passed, criticalFailures, categories);
  }

  // passed / total, as a 28-digit decimal, is below the score.
  predicate BelowScore(passed: nat, total: nat, minScore: nat)
    requires total > 0
  {
    var q := Quotient(passed, total);
    q.coefficient * 1000 < minScore * Pow10(q.places)
  }

  function ExpectedVerdict(n: Counts, t: Threshold): Result<Verdict, ScoreError> {
    if n.total < t.minCases then Ok(Failed)
    else if n.total == 0 then Err(DivisionByZero)
    else if BelowScore(n.passed, n.total, t.minScore) then Ok(Failed)
    else if t.requireZeroCritical && n.criticalFailures > 0 then Ok(Failed)
    else if !(t.required <= n.categories) then Ok(Failed)
    else Ok(Passed)
  }

  // ---- the rounded test is the exact one ----

  const MANY: nat := 1_000_000_000_000_000_000_000_000 // ten to the 24

  // A rate's shift leaves more thousandths than there are cases.
  lemma ShiftOfRate(passed: nat, total: nat)
    requires 0 < passed <= total < MANY
    ensures var e := Shift(passed, total, 0); e >= 3 && Pow10(e) == 1000 * Pow10(e - 3) && 2 * Pow10(e - 3) > total
  {
    hide Shift;
    var e := Shift(passed, total, 0);
    var p := Pow10(e);
    MulLe(passed, total, p);
    assert total * p * 10 >= CONTEXT * total;
    LargeFactor(total, p);
    assert Pow10(3) == 1000 && Pow10(2) == 100;
    if e < 3 {
      Pow10Grows(e, 2);
    }
    Pow10Sum(3, e - 3);
  }

  lemma LargeFactor(total: nat, p: nat)
    requires total > 0 && total * p * 10 >= CONTEXT * total
    ensures p * 10 >= CONTEXT
  {
  }

  lemma RateInParts(passed: nat, total: nat, minScore: nat, t: nat)
    requires total > 0 && 2 * t > total
    ensures HalfEven(passed * (1000 * t), total) * 1000 < minScore * (1000 * t) <==> 1000 * passed < minScore * total
  {
    hide HalfEven;
    assert passed * (1000 * t) == (1000 * passed) * t;
    assert minScore * (1000 * t) == 1000 * (minScore * t);
    assert (minScore * t) * total == (minScore * total) * t;
    if 1000 * passed < minScore * total {
      ScaleLe(1000 * passed + 1, minScore * total, t);
      assert (1000 * passed + 1) * t == (1000 * passed) * t + t;
      HalfEvenBelow(passed * (1000 * t), total, minScore * t);
    } else {
      ScaleLe(minScore * total, 1000 * passed, t);
      HalfEvenAtLeast(passed * (1000 * t), total, minScore * t);
    }
  }

  /** For fewer than ten to the 24 cases, so for any 32-bit count, the 28-digit quotient is below a three-decimal
      threshold exactly when cross-multiplication says so. */
  lemma RateTestIsExact(passed: nat, total: nat, minScore: nat)
    requires passed <= total && 0 < total < MANY
    ensures BelowScore(passed, total, minScore) <==> 1000 * passed < minScore * total
  {
    hide HalfEven, Shift;
    if passed == 0 {
      assert Pow10(0) == 1;
      if minScore > 0 {
        ScaleLess(0, minScore, total);
      }
    } else {
      ShiftOfRate(passed, total);
      RateInParts(passed, total, minScore, Pow10(Shift(passed, total, 0) - 3));
    }
  }

  // ---- properties of the verdict ----

  function Evaluate(cases: seq<Case>, t: Threshold): Result<Verdict, ScoreError> {
    ExpectedVerdict(Tally(cases), t)
  }

  lemma {:induction false} PassesWithin(cases: seq<Case>)
    ensures Sum(cases, Pass) <= |cases|
  {
    if cases != [] {
      PassesWithin(cases[..|cases| - 1]);
    }
  }

  // How many cases passed.
  function Passes(cases: seq<Case>): nat {
    |set i | 0 <= i < |cases| && cases[i].passed|
  }

  predicate CriticallyFailed(c: Case) {
    c.critical && !c.passed
  }

  lemma {:induction false} PassesCounted(cases: seq<Case>)
    ensures Sum(cases, Pass) == Passes(cases)
  {
    if cases != [] {
      var n := |cases| - 1;
      PassesCounted(cases[..n]);
      var before := set i | 0 <= i < n && cases[..n][i].passed;
      assert (set i | 0 <= i < |cases| && cases[i].passed) == before + if cases[n].passed then {n} else {};
    }
  }

  function CriticalFailures(cases: seq<Case>): nat {
    |set i | 0 <= i < |cases| && CriticallyFailed(cases[i])|
  }

  lemma CriticalFailuresNext(cases: seq<Case>)
    requires cases != []
    ensures CriticalFailures(cases) ==
              CriticalFailures(cases[..|cases| - 1]) + if CriticallyFailed(cases[|cases| - 1]) then 1 else 0
  {
    var n := |cases| - 1;
    var before := set i | 0 <= i < n && CriticallyFailed(cases[..n][i]);
    assert (set i | 0 <= i < |cases| && CriticallyFailed(cases[i])) == before + if CriticallyFailed(cases[n]) then {n} else {};
  }

  lemma {:induction false} CriticalCounted(cases: seq<Case>)
    ensures Sum(cases, CriticalFailure) == CriticalFailures(cases)
    ensures Sum(cases, CriticalFailure) == 0 <==> forall c :: c in cases ==> !CriticallyFailed(c)
  {
    hide CriticalFailures;
    if cases == [] {
      NoCriticalFailures();
    } else {
      var n := |cases| - 1;
      CriticalCounted(cases[..n]);
      CriticalFailuresNext(cases);
      assert cases == cases[..n] + [cases[n]];
    }
  }

  lemma NoCriticalFailures()
    ensures CriticalFailures([]) == 0
  {
  }

  /** What the four counts are. */
  lemma CountsMean(cases: seq<Case>)
    ensures var n := Tally(cases);
            && n.total == |cases| && n.passed == |set i | 0 <= i < |cases| && cases[i].passed|
            && n.criticalFailures == |set i | 0 <= i < |cases| && cases[i].critical && !cases[i].passed|
            && forall category :: category in n.categories <==> exists c :: c in cases && c.category == category
  {
    PassesCounted(cases);
    CriticalCounted(cases);
    assert (set i | 0 <= i < |cases| && CriticallyFailed(cases[i]))
           == set i | 0 <= i < |cases| && cases[i].critical && !cases[i].passed;
  }

  // What a passed verdict means, without a quotient.
  predicate Qualifies(cases: seq<Case>, t: Threshold) {
    && 1 <= |cases| && t.minCases <= |cases| && 1000 * Passes(cases) >= t.minScore * |cases|
    && (t.requireZeroCritical ==> forall c :: c in cases ==> !CriticallyFailed(c))
    && forall category :: category in t.required ==> exists c :: c in cases && c.category == category
  }

  /** A verdict is passed exactly when the five conditions hold. The division fails with no case and no minimum only, so
      never for a threshold that is stored: its CHECK asks for at least one case. */
  lemma VerdictMeans(cases: seq<Case>, t: Threshold)
    requires |cases| < MANY
    ensures Evaluate(cases, t) == Ok(Passed) <==> Qualifies(cases, t)
    ensures Evaluate(cases, t).Err? <==> cases == [] && t.minCases <= 0
    ensures t.minCases >= 1 ==> Evaluate(cases, t).Ok?
  {
    hide BelowScore, Sum, Passes;
    PassesWithin(cases);
    PassesCounted(cases);
    CriticalCounted(cases);
    if cases != [] {
      RateTestIsExact(Sum(cases, Pass), |cases|, t.minScore);
    }
  }

  lemma VerdictIgnoresOrder(a: seq<Case>, b: seq<Case>, t: Threshold)
    requires multiset(a) == multiset(b)
    ensures Evaluate(a, t) == Evaluate(b, t)
  {
    hide ExpectedVerdict;
    BagMembers(a, b);
    SumOfBag(a, b, Pass);
    SumOfBag(a, b, CriticalFailure);
    assert Tally(a).categories == Tally(b).categories;
  }

  lemma SumSnoc<T>(s: seq<T>, x: T, f: T -> nat)
    ensures Sum(s + [x], f) == Sum(s, f) + f(x)
  {
  }

  lemma RateRises(passed: nat, total: nat, minScore: nat)
    requires passed <= total && total > 0 && 1000 * passed >= minScore * total
    ensures 1000 * (passed + 1) >= minScore * (total + 1)
  {
  }

  lemma OnePassMore(cases: seq<Case>, c: Case)
    requires c.passed
    ensures Passes(cases + [c]) == Passes(cases) + 1 && Passes(cases) <= |cases|
  {
    PassesCounted(cases);
    PassesCounted(cases + [c]);
    PassesWithin(cases);
    SumSnoc(cases, c, Pass);
  }

  /** Recording one more passing case never turns a passed verdict into a failed one. */
  lemma PassingCaseNeverFails(cases: seq<Case>, c: Case, t: Threshold)
    requires |cases| + 1 < MANY && c.passed
    requires Evaluate(cases, t) == Ok(Passed)
    ensures Evaluate(cases + [c], t) == Ok(Passed)
  {
    hide Evaluate, Passes;
    VerdictMeans(cases, t);
    VerdictMeans(cases + [c], t);
    OnePassMore(cases, c);
    RateRises(Passes(cases), |cases|, t.minScore);
    assert forall d :: d in cases ==> d in cases + [c];
  }
}
