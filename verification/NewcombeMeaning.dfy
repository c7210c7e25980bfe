/** What the bounds, the correlation and the interval are, apart from how they are computed. */
module NewcombeMeaning {

  import opened Outcomes
  import opened Newcombe

  // ------------------------------------------------------------------ Wilson

  /** The quadratic behind the score interval, completed to a square. */
  lemma {:induction false} CompletedSquare(p: real, w: real, r: real, x: real)
    requires r * r == w * (p * (1.0 - p)) + w * w / 4.0
    ensures
      var d, c := 1.0 + w, p + w / 2.0;
      (x * d - c) * (x * d - c) - r * r == d * ((p - x) * (p - x) - w * (x * (1.0 - x)))
  {
    var d, c := 1.0 + w, p + w / 2.0;
    assert c * c == p * p + p * w + w * w / 4.0;
    assert c * c - r * r == p * p * d;
    assert (x * d - c) * (x * d - c) == x * d * (x * d) - 2.0 * (x * d) * c + c * c;
    assert (p - x) * (p - x) - w * (x * (1.0 - x)) == p * p - 2.0 * (x * c) + x * x * d;
    assert d * (p * p - 2.0 * (x * c) + x * x * d) == p * p * d - 2.0 * (x * d) * c + x * d * (x * d);
  }

  lemma {:induction false} EqualSquares(a: real, r: real)
    ensures a * a == r * r <==> a == r || a == -r
  {
    assert (a - r) * (a + r) == a * a - r * r;
    if a != r && a != -r { assert (a - r) * (a + r) != 0.0; }
  }

  lemma {:induction false} ScoreRoots(p: real, w: real, r: real, x: real)
    requires w >= 0.0 && r * r == w * (p * (1.0 - p)) + w * w / 4.0
    ensures
      var d, c := 1.0 + w, p + w / 2.0;
      (p - x) * (p - x) == w * (x * (1.0 - x)) <==> x * d == c - r || x * d == c + r
  {
    var d, c := 1.0 + w, p + w / 2.0;
    var gap := (p - x) * (p - x) - w * (x * (1.0 - x));
    CompletedSquare(p, w, r, x);
    EqualSquares(x * d - c, r);
    assert d * gap == 0.0 <==> gap == 0.0;
  }

  lemma {:induction false} Quotient(x: real, y: real, d: real)
    requires d > 0.0
    ensures x * d == y <==> x == y / d
  {
    assert y / d * d == y;
  }

  lemma {:induction false} QuotientsAdd(x: real, y: real, d: real)
    requires d > 0.0
    ensures x / d - y / d == (x - y) / d && x / d + y / d == (x + y) / d
  {}

  lemma {:induction false} BoundsSpelled(p: real, n: real, z: real, r: real, w: real)
    requires n > 0.0 && w == z * z / n && w >= 0.0
    ensures BoundsAround(p, n, z, r) == ((p + w / 2.0 - r) / (1.0 + w), (p + w / 2.0 + r) / (1.0 + w))
  {
    HalfQuotient(z * z, n);
    QuotientsAdd(p + w / 2.0, r, 1.0 + w);
  }

  lemma {:induction false} HalfQuotient(x: real, n: real)
    requires n > 0.0
    ensures x / (2.0 * n) == x / n / 2.0
  {}

  /** Whatever the radius, if its square is right the bounds around it solve the score equation, and nothing else
      does. */
  lemma {:induction false} BoundsSolve(p: real, n: real, z: real, r: real, w: real, x: real)
    requires n > 0.0 && w == z * z / n && w >= 0.0 && r * r == w * (p * (1.0 - p)) + w * w / 4.0
    ensures
      var (lower, upper) := BoundsAround(p, n, z, r);
      (p - x) * (p - x) == w * (x * (1.0 - x)) <==> x == lower || x == upper
  {
    var d, c := 1.0 + w, p + w / 2.0;
    ScoreRoots(p, w, r, x);
    Quotient(x, c - r, d);
    Quotient(x, c + r, d);
    BoundsSpelled(p, n, z, r, w);
    hide BoundsAround;
  }

  /** The Wilson bounds are exactly the solutions of the score equation: the rates `x` whose distance to the observed
      rate is `z` standard errors of `x` itself. */
  lemma {:induction false} WilsonSolvesScoreEquation(sqrt: real -> real, successes: nat, total: nat, z: real, x: real)
    requires IsSqrt(sqrt) && 0 < total && successes <= total && z >= 0.0
    ensures
      var p, n := successes as real / total as real, total as real;
      var (lower, upper) := WilsonBounds(sqrt, successes, total, z);
      && lower <= upper
      && ((p - x) * (p - x) == z * z / n * (x * (1.0 - x)) <==> x == lower || x == upper)
  {
    hide WilsonRadius, BoundsAround;
    var p, n := Rate(successes, total), total as real;
    RateInUnit(successes, total);
    RadiusFacts(sqrt, p, n, z);
    WilsonBrackets(sqrt, successes, total, z);
    NonnegQuotient(z, n);
    BoundsSolve(p, n, z, WilsonRadius(sqrt, p, n, z), z * z / n, x);
  }

  lemma {:induction false} NonnegQuotient(z: real, n: real)
    requires n > 0.0
    ensures z * z / n >= 0.0
  {
    SquareNonneg(z);
  }

  // ------------------------------------------------------------- correlation

  /** The correlation is the determinant over the root of the marginals, lowered by half the number of pairs but not
      below zero when it is positive; it is zero when a marginal is empty. */
  lemma {:induction false} CorrelationMeans(
      sqrt: real -> real, e: nat, f: nat, g: nat, h: nat, marginals: int, determinant: int)
    requires IsSqrt(sqrt)
    requires marginals == (e + f) * (g + h) * (e + g) * (f + h) && determinant == e * h - f * g
    ensures sqrt(marginals as real) == 0.0 <==> marginals == 0
    ensures Correlation(sqrt, e, f, g, h) ==
              if marginals == 0 then 0.0
              else Numerator(determinant, e + f + g + h) / sqrt(marginals as real)
  {
    CorrelationUnfolds(sqrt, e, f, g, h, marginals, determinant);
    RootOf(sqrt, marginals as real);
    RatioMeans(sqrt(marginals as real), determinant, e + f + g + h);
    hide CorrectedRatio, Correlation, Numerator;
  }

  /** The determinant, or half the pairs less when it is positive, but not below zero. */
  function Numerator(determinant: int, pairs: nat): real {
    if determinant <= 0 then determinant as real
    else if 2 * determinant <= pairs then 0.0
    else determinant as real - pairs as real / 2.0
  }

  lemma {:induction false} CorrelationUnfolds(
      sqrt: real -> real, e: nat, f: nat, g: nat, h: nat, marginals: int, determinant: int)
    requires marginals == (e + f) * (g + h) * (e + g) * (f + h) && determinant == e * h - f * g
    ensures marginals >= 0
    ensures Correlation(sqrt, e, f, g, h) ==
              CorrectedRatio(sqrt(marginals as real), determinant as real, (e + f + g + h) as real)
  {
    assert marginals == Marginals(e, f, g, h);
    hide CorrectedRatio;
  }

  lemma {:induction false} RatioMeans(root: real, determinant: int, pairs: nat)
    ensures CorrectedRatio(root, determinant as real, pairs as real) ==
              if root == 0.0 then 0.0 else Numerator(determinant, pairs) / root
  {}

  lemma {:induction false} RootOf(sqrt: real -> real, m: real)
    requires IsSqrt(sqrt) && m >= 0.0
    ensures sqrt(m) == 0.0 <==> m == 0.0
    ensures m != 0.0 ==> sqrt(m) > 0.0
  {
    var root := sqrt(m);
    assert root >= 0.0 && root * root == m;
    ZeroRoot(root, m);
  }

  lemma {:induction false} ZeroRoot(root: real, m: real)
    requires root >= 0.0 && root * root == m
    ensures root == 0.0 <==> m == 0.0
  {
    if root > 0.0 { PositiveProduct(root, root, m); }
  }

  // ---------------------------------------------------------------- interval

  /** `d` is the distance between two bounds whose gaps are `a` and `b`, correlated by `rho`. */
  ghost predicate IsDistance(d: real, rho: real, a: real, b: real) {
    d >= 0.0 && d * d == a * a - 2.0 * rho * a * b + b * b
  }

  /** The interval is the observed difference of the two rates, less the distance from the allocation's lower and the
      baseline's upper gap, plus the distance from the other two, and no further than -1 and 1. */
  lemma {:induction false} IntervalMeans(
      sqrt: real -> real, quantile: real -> real, e: int, f: int, g: int, h: int, confidence: real)
    returns (below: real, above: real)
    requires IsSqrt(sqrt) && IsQuantile(quantile)
    requires e >= 0 && f >= 0 && g >= 0 && h >= 0 && e + f + g + h > 0 && 0.0 < confidence < 1.0
    ensures PairedIntervalFor(sqrt, quantile, e, f, g, h, confidence).Ok?
    ensures
      var interval := PairedIntervalFor(sqrt, quantile, e, f, g, h, confidence).value;
      var n, z := e + f + g + h, quantile((1.0 + confidence) / 2.0);
      var allocation, baseline := (e + f) as real / n as real, (e + g) as real / n as real;
      var (lowerA, upperA) := WilsonBounds(sqrt, e + f, n, z);
      var (lowerB, upperB) := WilsonBounds(sqrt, e + g, n, z);
      var rho := Correlation(sqrt, e, f, g, h);
      && interval.difference == allocation - baseline
      && IsDistance(below, rho, allocation - lowerA, upperB - baseline)
      && IsDistance(above, rho, upperA - allocation, baseline - lowerB)
      && interval.lower == (if interval.difference - below < -1.0 then -1.0 else interval.difference - below)
      && interval.upper == (if interval.difference + above > 1.0 then 1.0 else interval.difference + above)
  {
    hide WilsonBounds, Correlation, LowerRadicand, UpperRadicand, IsDistance;
    var z := quantile((1.0 + confidence) / 2.0);
    assert 0.5 + confidence / 2.0 == (1.0 + confidence) / 2.0;
    RadicandsNonneg(sqrt, e, f, g, h, z);
    DistancesSpelled(sqrt, e, f, g, h, z);
    below, above := sqrt(LowerRadicand(sqrt, e, f, g, h, z)), sqrt(UpperRadicand(sqrt, e, f, g, h, z));
  }

  /** The two roots the interval takes are distances in this sense. */
  lemma {:induction false} DistancesSpelled(sqrt: real -> real, e: nat, f: nat, g: nat, h: nat, z: real)
    requires IsSqrt(sqrt) && 0 < e + f + g + h
    requires LowerRadicand(sqrt, e, f, g, h, z) >= 0.0 && UpperRadicand(sqrt, e, f, g, h, z) >= 0.0
    ensures
      var n, rho := e + f + g + h, Correlation(sqrt, e, f, g, h);
      var allocation, baseline := (e + f) as real / n as real, (e + g) as real / n as real;
      var (lowerA, upperA) := WilsonBounds(sqrt, e + f, n, z);
      var (lowerB, upperB) := WilsonBounds(sqrt, e + g, n, z);
      && IsDistance(sqrt(LowerRadicand(sqrt, e, f, g, h, z)), rho, allocation - lowerA, upperB - baseline)
      && IsDistance(sqrt(UpperRadicand(sqrt, e, f, g, h, z)), rho, upperA - allocation, baseline - lowerB)
  {
    hide WilsonBounds, Correlation;
  }
}
