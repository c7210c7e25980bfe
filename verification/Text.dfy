/** Text order and decimal digits. */
module Text {

  /** Code-point order, as Python compares strings and SQLite compares text. */
  predicate Before(a: string, b: string) {
    b != [] && (a == [] || a[0] < b[0] || (a[0] == b[0] && Before(a[1..], b[1..])))
  }

  lemma {:induction false} BeforeIsStrict(a: string)
    ensures !Before(a, a)
  {
    if a != [] { BeforeIsStrict(a[1..]); }
  }

  /** Of two texts exactly one comes first, unless they are equal. */
  lemma {:induction false} BeforeIsTotal(a: string, b: string)
    ensures a == b || Before(a, b) || Before(b, a)
    ensures Before(a, b) ==> a != b && !Before(b, a)
  {
    if a != [] && b != [] {
      BeforeIsTotal(a[1..], b[1..]);
      assert a == [a[0]] + a[1..] && b == [b[0]] + b[1..];
    }
  }

  lemma {:induction false} BeforeIsTransitive(a: string, b: string, c: string)
    requires Before(a, b) && Before(b, c)
    ensures Before(a, c)
  {
    if a != [] && a[0] == b[0] == c[0] { BeforeIsTransitive(a[1..], b[1..], c[1..]); }
  }

  function Pow10(width: nat): nat { if width == 0 then 1 else 10 * Pow10(width - 1) }

  function Digit(n: nat): char
    requires n < 10
  {
    '0' + n as char
  }

  /** `n` in exactly `width` decimal digits. */
  function Digits(n: nat, width: nat): (s: string)
    requires n < Pow10(width)
    ensures |s| == width
  {
    if width == 0 then "" else Digits(n / 10, width - 1) + [Digit(n % 10)]
  }

  /** Fixed-width digits order as their numbers do, and then defer to what follows. */
  lemma {:induction false} DigitsOrder(a: nat, b: nat, width: nat, s: string, t: string)
    requires a < Pow10(width) && b < Pow10(width)
    ensures Before(Digits(a, width) + s, Digits(b, width) + t) <==> a < b || (a == b && Before(s, t))
  {
    if width == 0 {
      assert "" + s == s && "" + t == t;
    } else {
      var c, d := Digit(a % 10), Digit(b % 10);
      DigitsOrder(a / 10, b / 10, width - 1, [c] + s, [d] + t);
      assert Digits(a, width) + s == Digits(a / 10, width - 1) + ([c] + s);
      assert Digits(b, width) + t == Digits(b / 10, width - 1) + ([d] + t);
    }
  }

  /** The number a digit string denotes. */
  function Value(s: string): int { if s == "" then 0 else 10 * Value(s[..|s| - 1]) + (s[|s| - 1] as int - '0' as int) }

  lemma {:induction false} DigitsRoundTrip(n: nat, width: nat)
    requires n < Pow10(width)
    ensures Value(Digits(n, width)) == n
  {
    if width > 0 {
      DigitsRoundTrip(n / 10, width - 1);
      var s := Digits(n, width);
      assert s[..|s| - 1] == Digits(n / 10, width - 1);
    }
  }
}
