/** Non-negative decimals under a 28-digit context with banker's rounding, and when they compute exactly.

    A decimal is carried as a natural coefficient at a fixed number of fractional digits. */
module Decimals {

  function Pow10(n: nat): (p: nat)
    ensures p >= 1
  {
    if n == 0 then 1 else 10 * Pow10(n - 1)
  }

  // Ten to the 28: the context keeps 28 digits.
  const CONTEXT: nat := 10_000_000_000_000_000_000_000_000_000

  // Quotients rounded to an integer, ties to even and ties up.
  function HalfEven(a: nat, b: nat): nat
    requires b > 0
  {
    var q, r := a / b, a % b;
    if 2 * r > b || (2 * r == b && q % 2 == 1) then q + 1 else q
  }

  function HalfUp(a: nat, b: nat): nat
    requires b > 0
  {
    (2 * a + b) / (2 * b)
  }

  // The least power of ten that gives a / b at least 28 digits.
  function Shift(a: nat, b: nat, e: nat): (s: nat)
    requires a > 0 && b > 0
    ensures s >= e && a * Pow10(s) * 10 >= CONTEXT * b
    ensures s == e || a * Pow10(s) < CONTEXT * b
    decreases CONTEXT * b - a * Pow10(e)
  {
    if a * Pow10(e) * 10 >= CONTEXT * b then e
    else
      assert a * Pow10(e + 1) == 10 * (a * Pow10(e));
      Shift(a, b, e + 1)
  }

  // coefficient / 10^places
  datatype Decimal = Decimal(coefficient: nat, places: nat)

  // The quotient a / b as the context rounds it.
  function Quotient(a: nat, b: nat): Decimal
    requires b > 0
  {
    if a == 0 then Decimal(0, 0)
    else
      var s := Shift(a, b, 0);
      Decimal(HalfEven(a * Pow10(s), b), s)
  }

  // quantize(..., ROUND_HALF_UP) to the given number of places.
  function Quantized(d: Decimal, places: nat): nat {
    HalfUp(d.coefficient * Pow10(places), Pow10(d.places))
  }

  // A sum or product as the context rounds it: to 28 digits, so only from the 29th digit on.
  function Fit(n: nat): nat {
    FitTo(n, 0)
  }

  function FitTo(n: nat, dropped: nat): nat
    decreases n - CONTEXT * Pow10(dropped)
  {
    if n < CONTEXT * Pow10(dropped) then HalfEven(n, Pow10(dropped)) * Pow10(dropped)
    else FitTo(n, dropped + 1)
  }

  // ---- rounding ----

  lemma Euclid(a: nat, b: nat)
    requires b > 0
    ensures b * (a / b) <= a < b * (a / b) + b && a % b == a - b * (a / b)
  {
  }

  lemma MulLe(a: nat, b: nat, c: nat)
    requires a <= b
    ensures a * c <= b * c
  {
  }

  lemma Distribute(k: nat, b: nat)
    ensures (2 * k - 1) * b == 2 * (k * b) - b && (2 * k + 1) * b == 2 * (k * b) + b
    ensures 2 * b * k == 2 * (k * b) && (k + 1) * b == k * b + b
  {
  }

  lemma HalfUpIs(a: nat, b: nat, m: nat)
    requires b > 0
    ensures HalfUp(a, b) == m <==> (2 * m - 1) * b <= 2 * a < (2 * m + 1) * b
  {
    var h := HalfUp(a, b);
    Euclid(2 * a + b, 2 * b);
    Distribute(h, b);
    Distribute(m, b);
    if m > h {
      MulLe(h + 1, m, b);
    } else if m < h {
      MulLe(m + 1, h, b);
    }
  }

  // x is q times b and p is m times b.
  lemma NearestEven(x: int, r: int, b: int, q: nat, m: nat, p: int)
    requires 0 <= r < b
    requires m < q ==> p + b <= x
    requires m == q ==> p == x
    requires m == q + 1 ==> p == x + b
    requires m > q + 1 ==> x + 2 * b <= p
    ensures (if 2 * r > b || (2 * r == b && q % 2 == 1) then q + 1 else q) == m <==>
            || 2 * p - b < 2 * (x + r) < 2 * p + b
            || (m % 2 == 0 && (2 * (x + r) == 2 * p - b || 2 * (x + r) == 2 * p + b))
  {
  }

  lemma Multiples(q: nat, m: nat, b: nat)
    ensures m < q ==> m * b + b <= q * b
    ensures m == q + 1 ==> m * b == q * b + b
    ensures m > q + 1 ==> q * b + 2 * b <= m * b
  {
    if m < q {
      MulLe(m + 1, q, b);
    } else if m > q + 1 {
      MulLe(q + 2, m, b);
    }
  }

  lemma NearestOfParts(q: nat, r: nat, b: nat, m: nat)
    requires r < b
    ensures (if 2 * r > b || (2 * r == b && q % 2 == 1) then q + 1 else q) == m <==>
            || 2 * (m * b) - b < 2 * (q * b + r) < 2 * (m * b) + b
            || (m % 2 == 0 && (2 * (q * b + r) == 2 * (m * b) - b || 2 * (q * b + r) == 2 * (m * b) + b))
  {
    Multiples(q, m, b);
    NearestEven(q * b, r, b, q, m, m * b);
  }

  lemma Divided(a: nat, b: nat)
    requires b > 0
    ensures a == (a / b) * b + a % b
  {
    Euclid(a, b);
    Commute(a / b, b);
  }

  /** Rounding to the nearest integer, and of two equally near ones to the even one. */
  lemma HalfEvenIs(a: nat, b: nat, m: nat)
    requires b > 0
    ensures HalfEven(a, b) == m <==>
            || 2 * (m * b) - b < 2 * a < 2 * (m * b) + b
            || (m % 2 == 0 && (2 * a == 2 * (m * b) - b || 2 * a == 2 * (m * b) + b))
  {
    Divided(a, b);
    NearestOfParts(a / b, a % b, b, m);
  }

  lemma Commute(q: nat, b: nat)
    ensures b * q == q * b
  {
  }

  /** A quotient is the nearest decimal of 28 digits: its places are the fewest that give as many, and the last digit
      is off by at most a half, even if by exactly a half. */
  lemma QuotientIs(a: nat, b: nat)
    requires a > 0 && b > 0
    ensures var q := Quotient(a, b);
            var scaled, p := a * Pow10(q.places), q.coefficient * b;
            && (2 * p - b < 2 * scaled < 2 * p + b
                || (q.coefficient % 2 == 0 && (2 * scaled == 2 * p - b || 2 * scaled == 2 * p + b)))
            && 10_000_000_000_000_000_000_000_000_000 * b <= 10 * scaled
            && (q.places == 0 || scaled < 10_000_000_000_000_000_000_000_000_000 * b)
  {
    hide HalfEven;
    var q := Quotient(a, b);
    HalfEvenIs(a * Pow10(q.places), b, q.coefficient);
  }

  lemma HalfUpGrows(a: nat, c: nat, b: nat)
    requires a <= c && b > 0
    ensures HalfUp(a, b) <= HalfUp(c, b)
  {
    var m, n := HalfUp(a, b), HalfUp(c, b);
    HalfUpIs(a, b, m);
    HalfUpIs(c, b, n);
    if m > n {
      MulLe(2 * n + 1, 2 * m - 1, b);
    }
  }

  lemma Assoc(k: int, b: int, t: int)
    ensures k * (b * t) == (k * b) * t
  {
  }

  lemma ScaleLe(a: int, b: int, t: nat)
    requires a <= b
    ensures a * t <= b * t
  {
  }

  lemma ScaleLess(a: int, b: int, t: nat)
    requires a < b && t > 0
    ensures a * t < b * t
  {
  }

  lemma HalfUpScaled(n: nat, b: nat, t: nat)
    requires b > 0 && t > 0
    ensures b * t > 0 && HalfUp(n * t, b * t) == HalfUp(n, b)
  {
    var m := HalfUp(n, b);
    HalfUpIs(n, b, m);
    ScaleLess(0, b, t);
    ScaleLe((2 * m - 1) * b, 2 * n, t);
    ScaleLess(2 * n, (2 * m + 1) * b, t);
    HalfUpInScale(n, b, t, m);
  }

  lemma HalfUpInScale(n: nat, b: nat, t: nat, m: nat)
    requires b * t > 0 && ((2 * m - 1) * b) * t <= (2 * n) * t < ((2 * m + 1) * b) * t
    ensures HalfUp(n * t, b * t) == m
  {
    hide HalfUp;
    Assoc(2, n, t);
    Assoc(2 * m + 1, b, t);
    Assoc(2 * m - 1, b, t);
    HalfUpIs(n * t, b * t, m);
  }

  // Within half a unit, whatever the tie.
  lemma HalfEvenBounds(a: nat, b: nat)
    requires b > 0
    ensures 2 * a - b <= 2 * (HalfEven(a, b) * b) <= 2 * a + b
  {
  }

  lemma HalfEvenAtLeast(a: nat, b: nat, k: nat)
    requires b > 0 && a >= k * b
    ensures HalfEven(a, b) >= k
  {
    HalfEvenBounds(a, b);
    if HalfEven(a, b) < k {
      MulLe(HalfEven(a, b) + 1, k, b);
    }
  }

  lemma HalfEvenBelow(a: nat, b: nat, k: nat)
    requires b > 0 && 2 * a + b < 2 * (k * b)
    ensures HalfEven(a, b) < k
  {
    HalfEvenBounds(a, b);
    if HalfEven(a, b) >= k {
      MulLe(k, HalfEven(a, b), b);
    }
  }

  lemma HalfEvenExact(b: nat, k: nat)
    requires b > 0
    ensures HalfEven(k * b, b) == k
  {
  }

  lemma {:induction false} Pow10Sum(a: nat, b: nat)
    ensures Pow10(a + b) == Pow10(a) * Pow10(b)
  {
    if a > 0 {
      Pow10Sum(a - 1, b);
      assert a + b - 1 == (a - 1) + b;
      assert Pow10(a + b) == 10 * (Pow10(a - 1) * Pow10(b)) == (10 * Pow10(a - 1)) * Pow10(b);
    }
  }

  lemma {:induction false} Pow10Grows(a: nat, b: nat)
    requires a <= b
    ensures Pow10(a) <= Pow10(b)
  {
    if a < b {
      Pow10Grows(a, b - 1);
    }
  }

  // ---- a percentage is the exact one, rounded once ----

  // Money and limits: at most 18 digits at six places.
  const MONEY: nat := 1_000_000_000_000_000_000

  // The shift of a quotient of two amounts of money is large.
  lemma ShiftOfMoney(v: nat, l: nat)
    requires 0 < v < MONEY && 0 < l < MONEY
    ensures var e := Shift(v, l, 0); e >= 7 && Pow10(e) > 1_000_000_000 * l
  {
    var e := Shift(v, l, 0);
    var p := Pow10(e);
    MulLe(v, MONEY - 1, p);
    assert MONEY * p * 10 > CONTEXT * l;
    assert Pow10(7) == 10_000_000;
    if e < 7 {
      Pow10Grows(e, 7);
    }
  }

  lemma Regroup(a: nat, b: nat, t: nat)
    ensures a * (2_000_000 * t) == (2_000_000 * a) * t == 2_000_000 * (a * t)
    ensures (a * t) * b == (a * b) * t
  {
  }

  // With 2,000,000 t parts to the unit, a multiple of t survives the rounding of the quotient.
  lemma PercentAbove(v: nat, l: nat, odd: nat, t: nat)
    requires l > 0 && odd * l <= 2_000_000 * v
    ensures odd * (2_000_000 * t) <= 2_000_000 * HalfEven(v * (2_000_000 * t), l)
  {
    hide HalfEven;
    Regroup(v, l, t);
    Regroup(odd, l, t);
    MulLe(odd * l, 2_000_000 * v, t);
    HalfEvenAtLeast(v * (2_000_000 * t), l, odd * t);
  }

  lemma PercentBelow(v: nat, l: nat, odd: nat, t: nat)
    requires l > 0 && 2_000_000 * v < odd * l && 2 * t > l
    ensures 2_000_000 * HalfEven(v * (2_000_000 * t), l) < odd * (2_000_000 * t)
  {
    hide HalfEven;
    Regroup(v, l, t);
    Regroup(odd, l, t);
    MulLe(2_000_000 * v + 1, odd * l, t);
    assert (2_000_000 * v + 1) * t == (2_000_000 * v) * t + t;
    HalfEvenBelow(v * (2_000_000 * t), l, odd * t);
  }

  /** For an amount and a positive limit of at most 18 digits, the 28-digit quotient times 100, quantized to four places,
      is the exact percentage rounded half up once: rounding twice never shows. */
  lemma PercentIsExact(v: nat, l: nat)
    requires v < MONEY && 0 < l < MONEY
    ensures Quantized(Quotient(v, l), 6) == HalfUp(1_000_000 * v, l)
  {
    hide HalfEven, HalfUp, Shift;
    SmallPowers();
    if v > 0 {
      ShiftParts(v, l);
      PercentOfShift(v, l, 5 * Pow10(Shift(v, l, 0) - 7));
    } else {
      HalfUpOfZero(l);
      HalfUpOfZero(1);
    }
  }

  lemma SmallPowers()
    ensures Pow10(0) == 1 && Pow10(6) == 1_000_000 && Pow10(7) == 10_000_000
  {
  }

  lemma HalfUpOfZero(b: nat)
    requires b > 0
    ensures HalfUp(0, b) == 0
  {
  }

  lemma ShiftParts(v: nat, l: nat)
    requires 0 < v < MONEY && 0 < l < MONEY
    ensures var e := Shift(v, l, 0);
            e >= 7 && Pow10(e) == 2_000_000 * (5 * Pow10(e - 7)) && 2 * (5 * Pow10(e - 7)) > l
  {
    hide Shift;
    ShiftOfMoney(v, l);
    SmallPowers();
    Pow10Sum(7, Shift(v, l, 0) - 7);
  }

  lemma PercentOfShift(v: nat, l: nat, t: nat)
    requires l > 0 && 2 * t > l
    ensures HalfUp(HalfEven(v * (2_000_000 * t), l) * 1_000_000, 2_000_000 * t) == HalfUp(1_000_000 * v, l)
  {
    hide HalfEven, HalfUp;
    var m := HalfUp(1_000_000 * v, l);
    HalfUpIs(1_000_000 * v, l, m);
    if m > 0 {
      PercentAbove(v, l, 2 * m - 1, t);
    }
    PercentBelow(v, l, 2 * m + 1, t);
    HalfUpIs(HalfEven(v * (2_000_000 * t), l) * 1_000_000, 2_000_000 * t, m);
  }

  /** A value below its limit never shows above 100 percent, and one at or over it never below. */
  lemma PercentSides(v: nat, l: nat)
    requires v < MONEY && 0 < l < MONEY
    ensures v < l ==> Quantized(Quotient(v, l), 6) <= 1_000_000
    ensures v >= l ==> Quantized(Quotient(v, l), 6) >= 1_000_000
  {
    PercentIsExact(v, l);
    HalfUpIs(1_000_000 * v, l, HalfUp(1_000_000 * v, l));
    var m := HalfUp(1_000_000 * v, l);
    if v < l && m > 1_000_000 {
      MulLe(2_000_001, 2 * m - 1, l);
    }
    if v >= l && m < 1_000_000 {
      MulLe(2 * m + 1, 1_999_999, l);
    }
  }

  // ---- comparing two quotients ----

  // One decimal is at least another.
  predicate NotBelow(a: Decimal, b: Decimal) {
    a.coefficient * Pow10(b.places) >= b.coefficient * Pow10(a.places)
  }

  // a / b is at least m for an integer m, before and after rounding, as long as b is not larger than twice the scale.
  lemma RoundedAtLeast(a: nat, b: nat, m: nat, p: nat)
    requires b > 0 && p > 0
    ensures a >= m * b ==> HalfEven(a * p, b) >= m * p
    ensures a < m * b && b < 2 * p ==> HalfEven(a * p, b) < m * p
  {
    hide HalfEven;
    assert (m * p) * b == (m * b) * p;
    if a >= m * b {
      ScaleLe(m * b, a, p);
      HalfEvenAtLeast(a * p, b, m * p);
    } else if b < 2 * p {
      ScaleLe(a + 1, m * b, p);
      assert (a + 1) * p == a * p + p;
      HalfEvenBelow(a * p, b, m * p);
    }
  }

  // Rounding is monotone, ties to even included.
  lemma HalfEvenMonotone(a: nat, b: nat, c: nat, d: nat)
    requires b > 0 && d > 0 && a * d >= c * b
    ensures HalfEven(a, b) >= HalfEven(c, d)
  {
    var k, j := HalfEven(c, d), HalfEven(a, b);
    if j < k {
      TieBelow(a, b, k);
      TieAbove(c, d, k);
      Cross(a, b, c, d, 2 * k - 1);
      SameTie(a, b, c, d, k);
    }
  }

  lemma TieBelow(a: nat, b: nat, k: nat)
    requires b > 0 && HalfEven(a, b) < k
    ensures 2 * a <= (2 * k - 1) * b
  {
    hide HalfEven;
    HalfEvenBounds(a, b);
    Distribute(k, b);
    MulLe(HalfEven(a, b) + 1, k, b);
  }

  lemma TieAbove(c: nat, d: nat, k: nat)
    requires d > 0 && HalfEven(c, d) == k && k > 0
    ensures (2 * k - 1) * d <= 2 * c
  {
    hide HalfEven;
    HalfEvenBounds(c, d);
    Distribute(k, d);
  }

  lemma Cross(a: nat, b: nat, c: nat, d: nat, odd: nat)
    requires b > 0 && d > 0 && a * d >= c * b && 2 * a <= odd * b && odd * d <= 2 * c
    ensures 2 * a == odd * b && 2 * c == odd * d
  {
    ScaleLe(2 * a, odd * b, d);
    ScaleLe(odd * d, 2 * c, b);
    assert (odd * b) * d == (odd * d) * b;
    assert (2 * a) * d == 2 * (a * d) && (2 * c) * b == 2 * (c * b);
    if 2 * a < odd * b {
      ScaleLess(2 * a, odd * b, d);
    }
    if odd * d < 2 * c {
      ScaleLess(odd * d, 2 * c, b);
    }
  }

  lemma TieIs(a: nat, b: nat, k: nat)
    requires b > 0 && k > 0 && 2 * a == (2 * k - 1) * b
    ensures HalfEven(a, b) == if k % 2 == 0 then k else k - 1
  {
    var r := a - (k - 1) * b;
    assert 2 * r == b;
    assert a == (k - 1) * b + r;
    Remainder(b, k - 1, r);
  }

  lemma Remainder(b: nat, q: nat, r: nat)
    requires r < b
    ensures (q * b + r) / b == q && (q * b + r) % b == r
  {
    var n := q * b + r;
    Euclid(n, b);
    if n / b > q {
      MulLe(q + 1, n / b, b);
    } else if n / b < q {
      MulLe(n / b + 1, q, b);
    }
  }

  lemma SameTie(a: nat, b: nat, c: nat, d: nat, k: nat)
    requires b > 0 && d > 0 && k > 0 && 2 * a == (2 * k - 1) * b && 2 * c == (2 * k - 1) * d
    ensures HalfEven(a, b) == HalfEven(c, d)
  {
    hide HalfEven;
    TieIs(a, b, k);
    TieIs(c, d, k);
  }

  const TENTH: nat := 1_000_000_000_000_000_000_000_000_000 // ten to the 27

  lemma CoefficientBounds(a: nat, b: nat)
    requires a > 0 && b > 0
    ensures var q := Quotient(a, b); TENTH <= q.coefficient && (q.places > 0 ==> q.coefficient <= CONTEXT)
  {
    hide HalfEven, Shift;
    var p := Pow10(Shift(a, b, 0));
    HalfEvenAtLeast(a * p, b, TENTH);
    if a * p < CONTEXT * b {
      HalfEvenAtMost(a * p, b, CONTEXT);
    }
  }

  lemma HalfEvenAtMost(a: nat, b: nat, k: nat)
    requires b > 0 && a < k * b
    ensures HalfEven(a, b) <= k
  {
    hide HalfEven;
    HalfEvenBounds(a, b);
    if HalfEven(a, b) > k {
      MulLe(k + 1, HalfEven(a, b), b);
    }
  }

  // The larger quotient needs no more places.
  lemma ShiftOrder(a: nat, b: nat, c: nat, d: nat)
    requires a > 0 && b > 0 && c > 0 && d > 0 && a * d >= c * b
    ensures Shift(a, b, 0) <= Shift(c, d, 0)
  {
    hide Shift;
    var i, j := Shift(a, b, 0), Shift(c, d, 0);
    if j < i {
      Pow10Grows(j + 1, i);
      MulLe(10 * Pow10(j), Pow10(i), a);
      TooSmall(a, b, c, d, 10 * Pow10(j));
    }
  }

  lemma TooSmall(a: nat, b: nat, c: nat, d: nat, p: nat)
    requires b > 0 && d > 0 && a * d >= c * b && p * a < CONTEXT * b
    ensures c * p < CONTEXT * d
  {
    ScaleLess(p * a, CONTEXT * b, d);
    ScaleLe(c * b, a * d, p);
    assert (CONTEXT * d) * b == (CONTEXT * b) * d;
    assert (c * p) * b == (c * b) * p && (p * a) * d == (a * d) * p;
    if c * p >= CONTEXT * d {
      ScaleLe(CONTEXT * d, c * p, b);
    }
  }

  /** The larger of two quotients is not below the other after rounding to 28 digits. */
  lemma QuotientGrows(a: nat, b: nat, c: nat, d: nat)
    requires b > 0 && d > 0 && a * d >= c * b
    ensures NotBelow(Quotient(a, b), Quotient(c, d))
  {
    hide HalfEven, Shift;
    if c > 0 {
      ScaleLess(0, c, b);
      assert a > 0;
      ShiftOrder(a, b, c, d);
      var i, j := Shift(a, b, 0), Shift(c, d, 0);
      if i == j {
        SameScale(a, b, c, d, Pow10(i));
      } else {
        CoefficientBounds(a, b);
        CoefficientBounds(c, d);
        Pow10Grows(i + 1, j);
        FewerPlaces(Quotient(a, b).coefficient, Quotient(c, d).coefficient, Pow10(i), Pow10(j));
      }
    }
  }

  lemma SameScale(a: nat, b: nat, c: nat, d: nat, p: nat)
    requires b > 0 && d > 0 && a * d >= c * b
    ensures HalfEven(a * p, b) * p >= HalfEven(c * p, d) * p
  {
    hide HalfEven;
    ScaleLe(c * b, a * d, p);
    assert (a * p) * d == (a * d) * p && (c * p) * b == (c * b) * p;
    HalfEvenMonotone(a * p, b, c * p, d);
    ScaleLe(HalfEven(c * p, d), HalfEven(a * p, b), p);
  }

  lemma FewerPlaces(m: nat, n: nat, p: nat, r: nat)
    requires TENTH <= m && n <= CONTEXT && 10 * p <= r
    ensures m * r >= n * p
  {
    MulLe(TENTH, m, r);
    MulLe(n, CONTEXT, p);
  }

  /** Distinct quotients stay apart after rounding if the larger numerator times the other denominator has at most 27
      digits. */
  lemma QuotientSeparates(a: nat, b: nat, c: nat, d: nat)
    requires b > 0 && d > 0 && a * d < c * b < TENTH
    ensures !NotBelow(Quotient(a, b), Quotient(c, d))
  {
    hide HalfEven, Shift;
    assert c > 0;
    CoefficientBounds(c, d);
    if a > 0 {
      ShiftOrder(c, d, a, b);
      var i, j := Shift(a, b, 0), Shift(c, d, 0);
      Pow10Grows(j, i);
      FineScale(b, c, d, Pow10(j));
      Separated(a, b, c, d, Pow10(i), Pow10(j), Quotient(a, b).coefficient, Quotient(c, d).coefficient);
    }
  }

  lemma FineScale(b: nat, c: nat, d: nat, r: nat)
    requires d > 0 && c > 0 && c * b < TENTH && c * r * 10 >= CONTEXT * d
    ensures r > b * d
  {
    ScaleLess(c * b, TENTH, d);
    assert (c * b) * d == c * (b * d);
    if r <= b * d {
      MulLe(r, b * d, c);
    }
  }

  lemma Separated(a: nat, b: nat, c: nat, d: nat, p: nat, r: nat, m: nat, n: nat)
    requires b > 0 && d > 0 && a * d < c * b && r <= p && r > b * d
    requires m == HalfEven(a * p, b) && n == HalfEven(c * r, d)
    ensures m * r < n * p
  {
    hide HalfEven;
    HalfEvenBounds(a * p, b);
    HalfEvenBounds(c * r, d);
    if m * r >= n * p {
      TooClose(a, b, c, d, p, r, m, n);
    }
  }

  lemma Swap(m: nat, r: nat, b: nat, d: nat)
    ensures (m * r) * (b * d) == (m * b) * (d * r)
  {
    assert (m * r) * (b * d) == m * (r * (b * d));
    assert r * (b * d) == b * (d * r);
  }

  lemma UpperSide(a: nat, b: nat, d: nat, p: nat, r: nat, m: nat)
    requires 2 * (m * b) <= 2 * (a * p) + b
    ensures 2 * ((m * r) * (b * d)) <= 2 * ((a * d) * (p * r)) + (b * d) * r
  {
    ScaleLe(2 * (m * b), 2 * (a * p) + b, d * r);
    Swap(m, r, b, d);
    Swap(a, d, p, r);
    Scatter(m * b, a * p, b, d * r);
    Assoc(b, d, r);
  }

  lemma LowerSide(b: nat, c: nat, d: nat, p: nat, r: nat, n: nat)
    requires 2 * (c * r) <= 2 * (n * d) + d
    ensures 2 * ((c * b) * (p * r)) <= 2 * ((n * p) * (b * d)) + (b * d) * p
  {
    ScaleLe(2 * (c * r), 2 * (n * d) + d, b * p);
    Swap(c, b, r, p);
    Swap(n, p, d, b);
    Scatter(c * r, n * d, d, b * p);
    assert r * p == p * r && d * b == b * d;
    Assoc(d, b, p);
  }

  lemma Scatter(x: nat, y: nat, b: nat, t: nat)
    ensures (2 * x) * t == 2 * (x * t) && (2 * y + b) * t == 2 * (y * t) + b * t
  {
  }

  lemma TooClose(a: nat, b: nat, c: nat, d: nat, p: nat, r: nat, m: nat, n: nat)
    requires b > 0 && d > 0 && a * d < c * b && r <= p && m * r >= n * p
    requires 2 * (m * b) <= 2 * (a * p) + b && 2 * (c * r) <= 2 * (n * d) + d && p > 0
    ensures r <= b * d
  {
    UpperSide(a, b, d, p, r, m);
    LowerSide(b, c, d, p, r, n);
    ScaleLe(n * p, m * r, b * d);
    ScaleLe(a * d + 1, c * b, p * r);
    OneMore(a * d, p * r);
    MulLe(r, p, b * d);
    Squeeze(b * d, p, r);
  }

  lemma OneMore(x: nat, t: nat)
    ensures (x + 1) * t == x * t + t
  {
  }

  lemma Squeeze(bd: nat, p: nat, r: nat)
    requires p > 0 && p * r <= bd * p
    ensures r <= bd
  {
  }
}
