/** The paired-proportion interval of scripts/model_allocation_statistics.py, over the reals. */
module Newcombe {

  import opened Outcomes

  /** `math.sqrt`, as far as the interval relies on it. */
  ghost predicate IsSqrt(sqrt: real -> real) {
    forall x {:trigger sqrt(x)} | x >= 0.0 :: sqrt(x) >= 0.0 && sqrt(x) * sqrt(x) == x
  }

  /** `NormalDist().inv_cdf`, as far as the interval relies on it: upper quantiles are not negative. */
  ghost predicate IsQuantile(q: real -> real) { forall x {:trigger q(x)} | 0.5 <= x < 1.0 :: q(x) >= 0.0 }

  function Max(a: real, b: real): real { if a < b then b else a }

  function Min(a: real, b: real): real { if a < b then a else b }

  // ----------------------------------------------------------------- Wilson

  function Rate(successes: nat, total: nat): real
    requires 0 < total
  {
    successes as real / total as real
  }

  function Square(x: real): real { x * x }

  lemma {:induction false} SquarePositive(x: real)
    requires x > 0.0
    ensures Square(x) > 0.0
  {
    PositiveProduct(x, x, Square(x));
  }

  lemma {:induction false} PositiveProduct(x: real, y: real, product: real)
    requires x > 0.0 && y > 0.0 && product == x * y
    ensures product > 0.0
  {}

  function WilsonRadicand(p: real, n: real, z: real): real
    requires n > 0.0
  {
    SquarePositive(n);
    p * (1.0 - p) / n + z * z / (4.0 * Square(n))
  }

  /** The Wilson bounds around a given radius. */
  function BoundsAround(p: real, n: real, z: real, radius: real): (real, real)
    requires n > 0.0
  {
    var denominator := 1.0 + z * z / n;
    var center := (p + z * z / (2.0 * n)) / denominator;
    (center - radius / denominator, center + radius / denominator)
  }

  function WilsonRadius(sqrt: real -> real, p: real, n: real, z: real): real
    requires n > 0.0
  {
    z * sqrt(WilsonRadicand(p, n, z))
  }

  /** `_wilson_bounds`: lower and upper. */
  function WilsonBounds(sqrt: real -> real, successes: nat, total: nat, z: real): (real, real)
    requires 0 < total
  {
    var p, n := Rate(successes, total), total as real;
    BoundsAround(p, n, z, WilsonRadius(sqrt, p, n, z))
  }

  lemma {:induction false} SquareNonneg(x: real)
    ensures x * x >= 0.0
  {}

  lemma {:induction false} ProductNonneg(x: real, y: real)
    requires x >= 0.0 && y >= 0.0
    ensures x * y >= 0.0
  {}

  lemma {:induction false} ProductPositive(x: real, y: real)
    requires x > 0.0 && y > 0.0
    ensures x * y > 0.0
  {}

  lemma {:induction false} SquareMonotone(y: real, x: real)
    requires 0.0 <= y < x
    ensures y * y < x * x
  {
    ProductPositive(x - y, x + y);
    assert (x - y) * (x + y) == x * x - y * y;
  }

  lemma {:induction false} RateInUnit(successes: nat, total: nat)
    requires 0 < total && successes <= total
    ensures 0.0 <= Rate(successes, total) <= 1.0
  {}

  lemma {:induction false} WilsonRadicandNonneg(p: real, n: real, z: real)
    requires n > 0.0 && 0.0 <= p <= 1.0
    ensures WilsonRadicand(p, n, z) >= 0.0
  {
    ProductNonneg(p, 1.0 - p);
    SquareNonneg(z);
    SquarePositive(n);
  }

  /** A number whose square stays below another's lies between its negation and it. */
  lemma {:induction false} BoundedBySquare(x: real, y: real)
    requires y >= 0.0 && x * x <= y * y
    ensures -y <= x <= y
  {
    if x > y { SquareMonotone(y, x); }
    if -x > y { SquareMonotone(y, -x); }
  }

  /** The observed rate lies between its Wilson bounds. */
  lemma {:induction false} WilsonBrackets(sqrt: real -> real, successes: nat, total: nat, z: real)
    requires IsSqrt(sqrt) && 0 < total && successes <= total && z >= 0.0
    ensures
      var (lower, upper) := WilsonBounds(sqrt, successes, total, z);
      lower <= Rate(successes, total) <= upper
  {
    hide BoundsAround, WilsonRadius;
    var p, n := Rate(successes, total), total as real;
    RateInUnit(successes, total);
    RadiusFacts(sqrt, p, n, z);
    CenterOffset(p, n, z, WilsonRadius(sqrt, p, n, z));
  }

  lemma {:induction false} RadiusFacts(sqrt: real -> real, p: real, n: real, z: real)
    requires IsSqrt(sqrt) && n > 0.0 && 0.0 <= p <= 1.0 && z >= 0.0
    ensures
      var radius, w := WilsonRadius(sqrt, p, n, z), z * z / n;
      radius >= 0.0 && radius * radius == w * (p * (1.0 - p)) + w * w / 4.0
  {
    WilsonRadicandNonneg(p, n, z);
    var root := sqrt(WilsonRadicand(p, n, z));
    ProductNonneg(z, root);
  }

  lemma {:induction false} CenterOffset(p: real, n: real, z: real, radius: real)
    requires n > 0.0 && 0.0 <= p <= 1.0 && radius >= 0.0
    requires var w := z * z / n; radius * radius == w * (p * (1.0 - p)) + w * w / 4.0
    ensures BoundsAround(p, n, z, radius).0 <= p <= BoundsAround(p, n, z, radius).1
  {
    var w := z * z / n;
    var denominator := 1.0 + w;
    var center := (p + z * z / (2.0 * n)) / denominator;
    var offset := w * (0.5 - p);
    assert z * z / (2.0 * n) == w / 2.0;
    OffsetWithinRadius(p, w, radius);
    assert (center - p) * denominator == offset by {
      assert center * denominator == p + w / 2.0;
    }
  }

  lemma {:induction false} OffsetWithinRadius(p: real, w: real, radius: real)
    requires w >= 0.0 && 0.0 <= p <= 1.0 && radius >= 0.0
    requires radius * radius == w * (p * (1.0 - p)) + w * w / 4.0
    ensures -radius <= w * (0.5 - p) <= radius
  {
    var v := p * (1.0 - p);
    ProductNonneg(p, 1.0 - p);
    ProductNonneg(w, v);
    ProductNonneg(w * w, v);
    calc {
      (w * (0.5 - p)) * (w * (0.5 - p));
      (w * w) * ((0.5 - p) * (0.5 - p));
      { assert (0.5 - p) * (0.5 - p) == 0.25 - v; }
      (w * w) * (0.25 - v);
      w * w / 4.0 - (w * w) * v;
    }
    BoundedBySquare(w * (0.5 - p), radius);
  }

  // ------------------------------------------------------------- correlation

  /** The product of the four marginal totals. */
  function Marginals(e: nat, f: nat, g: nat, h: nat): nat { (e + f) * (g + h) * (e + g) * (f + h) }

  lemma {:induction false} CrossBound(a: nat, b: nat, x: nat, y: nat)
    ensures (a - b) * (a - b) <= (x + (a + b)) * (y + (a + b))
  {
    var s := a + b;
    assert x * y >= 0 && x * s >= 0 && s * y >= 0 && a * b >= 0;
    assert s * s == (a - b) * (a - b) + 4 * (a * b);
  }

  /** (eh - fg)^2 never exceeds the product of the marginals. */
  lemma {:induction false} DeterminantBound(e: nat, f: nat, g: nat, h: nat)
    ensures (e * h - f * g) * (e * h - f * g) <= Marginals(e, f, g, h)
  {
    var a, b, x, y := e * h, f * g, e * g + f * h, e * f + g * h;
    assert g * f == b;
    assert Marginals(e, f, g, h) == (x + (a + b)) * (y + (a + b));
    CrossBound(a, b, x, y);
  }

  /** The corrected ratio of a determinant to the root of the marginals. */
  function CorrectedRatio(denominator: real, raw: real, total: real): real {
    if denominator == 0.0 then 0.0
    else if raw > 0.0 then Max(raw - total / 2.0, 0.0) / denominator
    else raw / denominator
  }

  function Correlation(sqrt: real -> real, e: nat, f: nat, g: nat, h: nat): real {
    CorrectedRatio(sqrt(Marginals(e, f, g, h) as real), (e * h - f * g) as real, (e + f + g + h) as real)
  }

  lemma {:induction false} RatioInUnit(x: real, d: real)
    requires d > 0.0 && -d <= x <= d
    ensures -1.0 <= x / d <= 1.0
  {
    assert d / d == 1.0 && (-d) / d == -1.0;
  }

  lemma {:induction false} CorrelationInUnit(sqrt: real -> real, e: nat, f: nat, g: nat, h: nat)
    requires IsSqrt(sqrt)
    ensures -1.0 <= Correlation(sqrt, e, f, g, h) <= 1.0
  {
    hide Marginals;
    var raw := e * h - f * g;
    var d := sqrt(Marginals(e, f, g, h) as real);
    DeterminantBound(e, f, g, h);
    BoundedBySquare(raw as real, d);
    if d > 0.0 {
      RatioInUnit(raw as real, d);
      RatioInUnit(Max(raw as real - (e + f + g + h) as real / 2.0, 0.0), d);
    }
  }

  // ---------------------------------------------------------------- interval

  /** The squared distance method 10 takes a root of. */
  function Radicand(rho: real, a: real, b: real): real { a * a - 2.0 * rho * a * b + b * b }

  lemma {:induction false} RadicandNonneg(rho: real, a: real, b: real)
    requires -1.0 <= rho <= 1.0 && a >= 0.0 && b >= 0.0
    ensures Radicand(rho, a, b) >= 0.0
  {
    ProductNonneg(a, b);
    ProductNonneg(1.0 - rho, a * b);
    SquareNonneg(a - b);
    assert Radicand(rho, a, b) == (a - b) * (a - b) + 2.0 * ((1.0 - rho) * (a * b));
  }

  lemma {:induction false} RadicandSymmetric(rho: real, a: real, b: real)
    ensures Radicand(rho, a, b) == Radicand(rho, b, a)
  {
    assert rho * a * b == rho * b * a;
  }

  datatype PairedInterval = PairedInterval(difference: real, lower: real, upper: real)

  /** The four gaps between the rates and their Wilson bounds. */
  datatype Gaps = Gaps(lower: real, upper: real)

  function GapsOf(sqrt: real -> real, successes: nat, total: nat, z: real): Gaps
    requires 0 < total
  {
    var (lower, upper) := WilsonBounds(sqrt, successes, total, z);
    Gaps(Rate(successes, total) - lower, upper - Rate(successes, total))
  }

  function LowerRadicand(sqrt: real -> real, e: nat, f: nat, g: nat, h: nat, z: real): real
    requires 0 < e + f + g + h
  {
    var total := e + f + g + h;
    Radicand(Correlation(sqrt, e, f, g, h), GapsOf(sqrt, e + f, total, z).lower, GapsOf(sqrt, e + g, total, z).upper)
  }

  function UpperRadicand(sqrt: real -> real, e: nat, f: nat, g: nat, h: nat, z: real): real
    requires 0 < e + f + g + h
  {
    var total := e + f + g + h;
    Radicand(Correlation(sqrt, e, f, g, h), GapsOf(sqrt, e + f, total, z).upper, GapsOf(sqrt, e + g, total, z).lower)
  }

  function IntervalOf(sqrt: real -> real, e: nat, f: nat, g: nat, h: nat, z: real): PairedInterval
    requires 0 < e + f + g + h
  {
    var total := e + f + g + h;
    var difference := Rate(e + f, total) - Rate(e + g, total);
    PairedInterval(
      difference,
      Max(-1.0, difference - sqrt(LowerRadicand(sqrt, e, f, g, h, z))),
      Min(1.0, difference + sqrt(UpperRadicand(sqrt, e, f, g, h, z))))
  }

  /** `newcombe_paired_interval`. */
  function PairedIntervalFor(
      sqrt: real -> real, quantile: real -> real, e: int, f: int, g: int, h: int,
      confidence: real): Result<PairedInterval> {
    if e < 0 || f < 0 || g < 0 || h < 0 || !(0.0 < confidence < 1.0) || e + f + g + h == 0 then Err(InvalidInput)
    else Ok(IntervalOf(sqrt, e, f, g, h, quantile(0.5 + confidence / 2.0)))
  }

  /** Neither square root is ever asked of a negative number. */
  lemma {:induction false} RadicandsNonneg(sqrt: real -> real, e: nat, f: nat, g: nat, h: nat, z: real)
    requires IsSqrt(sqrt) && 0 < e + f + g + h && z >= 0.0
    ensures LowerRadicand(sqrt, e, f, g, h, z) >= 0.0 && UpperRadicand(sqrt, e, f, g, h, z) >= 0.0
  {
    var total := e + f + g + h;
    hide Correlation, WilsonBounds, Radicand, Rate;
    CorrelationInUnit(sqrt, e, f, g, h);
    WilsonBrackets(sqrt, e + f, total, z);
    WilsonBrackets(sqrt, e + g, total, z);
    var rho, a, b := Correlation(sqrt, e, f, g, h), GapsOf(sqrt, e + f, total, z), GapsOf(sqrt, e + g, total, z);
    RadicandNonneg(rho, a.lower, b.upper);
    RadicandNonneg(rho, a.upper, b.lower);
  }

  /** The interval brackets the observed difference and stays within [-1, 1]. */
  lemma {:induction false} IntervalBrackets(
      sqrt: real -> real, quantile: real -> real, e: int, f: int, g: int, h: int, confidence: real)
    requires IsSqrt(sqrt) && IsQuantile(quantile)
    ensures
      var r := PairedIntervalFor(sqrt, quantile, e, f, g, h, confidence);
      && (r.Ok? <==> e >= 0 && f >= 0 && g >= 0 && h >= 0 && e + f + g + h > 0 && 0.0 < confidence < 1.0)
      && (r.Ok? ==>
            && -1.0 <= r.value.lower <= r.value.difference <= r.value.upper <= 1.0
            && r.value.difference * (e + f + g + h) as real == (f - g) as real)
  {
    hide LowerRadicand, UpperRadicand, Rate;
    if PairedIntervalFor(sqrt, quantile, e, f, g, h, confidence).Ok? {
      RadicandsNonneg(sqrt, e, f, g, h, quantile(0.5 + confidence / 2.0));
      DifferenceOfRates(e, f, g, h);
    }
  }

  lemma {:induction false} DifferenceOfRates(e: nat, f: nat, g: nat, h: nat)
    requires 0 < e + f + g + h
    ensures
      var d := Rate(e + f, e + f + g + h) - Rate(e + g, e + f + g + h);
      -1.0 <= d <= 1.0 && d * (e + f + g + h) as real == (f - g) as real
  {
    RateInUnit(e + f, e + f + g + h);
    RateInUnit(e + g, e + f + g + h);
    var n := (e + f + g + h) as real;
    assert (e + f) as real / n * n == (e + f) as real && (e + g) as real / n * n == (e + g) as real;
  }

  lemma {:induction false} MarginalsSymmetric(e: nat, f: nat, g: nat, h: nat)
    ensures Marginals(e, f, g, h) == Marginals(e, g, f, h)
  {
    var a, b, c, d := e + f, g + h, e + g, f + h;
    assert a * b * c * d == c * d * a * b;
  }

  lemma {:induction false} CorrelationSymmetric(sqrt: real -> real, e: nat, f: nat, g: nat, h: nat)
    ensures Correlation(sqrt, e, f, g, h) == Correlation(sqrt, e, g, f, h)
  {
    MarginalsSymmetric(e, f, g, h);
    assert f * g == g * f;
  }

  /** Swapping the two arms negates and swaps the interval. */
  lemma {:induction false} SwapNegates(sqrt: real -> real, e: nat, f: nat, g: nat, h: nat, z: real)
    requires 0 < e + f + g + h
    ensures
      var here, there := IntervalOf(sqrt, e, f, g, h, z), IntervalOf(sqrt, e, g, f, h, z);
      there == PairedInterval(-here.difference, -here.upper, -here.lower)
  {
    hide Correlation, WilsonBounds, Radicand, Rate;
    var total := e + f + g + h;
    CorrelationSymmetric(sqrt, e, f, g, h);
    var rho, a, b := Correlation(sqrt, e, f, g, h), GapsOf(sqrt, e + f, total, z), GapsOf(sqrt, e + g, total, z);
    RadicandSymmetric(rho, a.lower, b.upper);
    RadicandSymmetric(rho, a.upper, b.lower);
    assert LowerRadicand(sqrt, e, g, f, h, z) == UpperRadicand(sqrt, e, f, g, h, z);
    assert UpperRadicand(sqrt, e, g, f, h, z) == LowerRadicand(sqrt, e, f, g, h, z);
  }

  // --------------------------------------------------------- noninferiority

  /** `paired_noninferiority`: the strict lower-bound gate, for a margin from zero up to one. */
  function Noninferiority(interval: PairedInterval, margin: real): Result<bool> {
    if 0.0 <= margin < 1.0 then Ok(interval.lower > -margin) else Err(InvalidInput)
  }

  /** The gate answers exactly for a margin in [0, 1); passing it bounds the observed loss, and passing it both ways
      bounds the interval on both sides. */
  lemma {:induction false} NoninferiorBothWays(
      sqrt: real -> real, quantile: real -> real, e: int, f: int, g: int, h: int, confidence: real, margin: real)
    requires IsSqrt(sqrt) && IsQuantile(quantile)
    requires PairedIntervalFor(sqrt, quantile, e, f, g, h, confidence).Ok?
    ensures
      var here := PairedIntervalFor(sqrt, quantile, e, f, g, h, confidence).value;
      var there := PairedIntervalFor(sqrt, quantile, e, g, f, h, confidence).value;
      var passed, passedBack := Noninferiority(here, margin), Noninferiority(there, margin);
      && (passed.Ok? <==> 0.0 <= margin < 1.0) && (passedBack.Ok? <==> passed.Ok?)
      && (passed == Ok(true) ==> here.difference > -margin)
      && (passed.Ok? ==> (passed.value && passedBack.value <==> -margin < here.lower && here.upper < margin))
  {
    IntervalBrackets(sqrt, quantile, e, f, g, h, confidence);
    SwapNegates(sqrt, e, f, g, h, quantile(0.5 + confidence / 2.0));
    hide IntervalOf;
  }
}
