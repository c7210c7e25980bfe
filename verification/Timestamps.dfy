/** Timestamp columns: Python's isoformat text, compared as text by SQL and as time by the lease check. */
module Timestamps {

  import opened Outcomes
  import opened Text

  /** A UTC datetime. */
  datatype DateTime = DateTime(year: nat, month: nat, day: nat, hour: nat, minute: nat, second: nat, micro: nat)

  predicate Leap(year: nat) { year % 4 == 0 && (year % 100 != 0 || year % 400 == 0) }

  function MonthDays(year: nat, month: nat): nat {
    if month == 2 then if Leap(year) then 29 else 28
    else if month == 4 || month == 6 || month == 9 || month == 11 then 30
    else 31
  }

  predicate Valid(t: DateTime) {
    && 1 <= t.year <= 9999 && 1 <= t.month <= 12 && 1 <= t.day <= MonthDays(t.year, t.month)
    && t.hour < 24 && t.minute < 60 && t.second < 60 && t.micro < 1_000_000
  }

  // -------------------------------------------------------------------- time

  function DaysBeforeMonth(year: nat, month: nat): nat {
    if month <= 1 then 0 else DaysBeforeMonth(year, month - 1) + MonthDays(year, month - 1)
  }

  function DaysBeforeYear(year: nat): nat {
    if year <= 1 then 0 else DaysBeforeYear(year - 1) + DaysBeforeMonth(year - 1, 13)
  }

  function DayNumber(t: DateTime): nat { DaysBeforeYear(t.year) + DaysBeforeMonth(t.year, t.month) + t.day }

  /** Microseconds since the start of the calendar. */
  function Instant(t: DateTime): nat {
    ((DayNumber(t) * 24 + t.hour) * 60 + t.minute) * 60_000_000 + t.second * 1_000_000 + t.micro
  }

  lemma {:induction false} MonthsGrow(year: nat, m: nat, n: nat)
    requires 1 <= m < n
    ensures DaysBeforeMonth(year, m) + MonthDays(year, m) <= DaysBeforeMonth(year, n)
  {
    if m < n - 1 { MonthsGrow(year, m, n - 1); }
  }

  lemma {:induction false} YearsGrow(y: nat, z: nat)
    requires 1 <= y < z
    ensures DaysBeforeYear(y) + DaysBeforeMonth(y, 13) <= DaysBeforeYear(z)
  {
    hide DaysBeforeMonth;
    if y < z - 1 { YearsGrow(y, z - 1); }
  }

  /** Calendar order on dates is the order of day numbers. */
  predicate DateBefore(a: DateTime, b: DateTime) {
    a.year < b.year || (a.year == b.year && (a.month < b.month || (a.month == b.month && a.day < b.day)))
  }

  lemma {:induction false} DatesGrow(a: DateTime, b: DateTime)
    requires Valid(a) && Valid(b) && DateBefore(a, b)
    ensures DayNumber(a) < DayNumber(b)
  {
    if a.year < b.year {
      YearsGrow(a.year, b.year);
      MonthsGrow(a.year, a.month, 13);
    } else if a.month < b.month {
      MonthsGrow(a.year, a.month, b.month);
    }
  }

  predicate ClockBefore(a: DateTime, b: DateTime) {
    a.hour < b.hour || (a.hour == b.hour && (a.minute < b.minute || (a.minute == b.minute &&
      (a.second < b.second || (a.second == b.second && a.micro < b.micro)))))
  }

  predicate SameDate(a: DateTime, b: DateTime) { a.year == b.year && a.month == b.month && a.day == b.day }

  /** Field-by-field order. */
  predicate FieldsBefore(a: DateTime, b: DateTime) { DateBefore(a, b) || (SameDate(a, b) && ClockBefore(a, b)) }

  lemma {:induction false} FieldsGrow(a: DateTime, b: DateTime)
    requires Valid(a) && Valid(b) && FieldsBefore(a, b)
    ensures Instant(a) < Instant(b)
  {
    if DateBefore(a, b) { DatesGrow(a, b); }
  }

  lemma {:induction false} FieldsOrderIsTime(a: DateTime, b: DateTime)
    requires Valid(a) && Valid(b)
    ensures FieldsBefore(a, b) <==> Instant(a) < Instant(b)
  {
    if FieldsBefore(a, b) { FieldsGrow(a, b); }
    else if FieldsBefore(b, a) { FieldsGrow(b, a); }
    else { assert a == b; }
  }

  // -------------------------------------------------------------------- text

  const ZONE := "+00:00"

  /** The fraction is absent when zero and six digits otherwise. */
  function Tail(micro: nat): string
    requires micro < 1_000_000
  {
    (if micro == 0 then "" else "." + Digits6(micro)) + ZONE
  }

  function Digits6(micro: nat): (s: string)
    requires micro < 1_000_000
    ensures |s| == 6
  {
    assert Pow10(6) == 1_000_000 by { PowersOfTen(); }
    Digits(micro, 6)
  }

  lemma {:induction false} PowersOfTen()
    ensures Pow10(2) == 100 && Pow10(4) == 10_000 && Pow10(6) == 1_000_000
  {
    assert Pow10(3) == 1_000 && Pow10(5) == 100_000;
  }

  function Two(n: nat): (s: string)
    requires n < 100
    ensures |s| == 2
  {
    assert Pow10(2) == 100 by { PowersOfTen(); }
    Digits(n, 2)
  }

  function Four(n: nat): (s: string)
    requires n < 10_000
    ensures |s| == 4
  {
    assert Pow10(4) == 10_000 by { PowersOfTen(); }
    Digits(n, 4)
  }

  function ClockText(t: DateTime): string
    requires Valid(t)
  {
    Two(t.hour) + ([':'] + (Two(t.minute) + ([':'] + (Two(t.second) + Tail(t.micro)))))
  }

  /** `datetime.isoformat()` of a UTC time. */
  function Iso(t: DateTime): string
    requires Valid(t)
  {
    Four(t.year) + (['-'] + (Two(t.month) + (['-'] + (Two(t.day) + (['T'] + ClockText(t))))))
  }

  /** '+' sorts before '.', so a missing fraction sorts as zero. */
  lemma {:induction false} TailOrder(a: nat, b: nat)
    requires a < 1_000_000 && b < 1_000_000
    ensures Before(Tail(a), Tail(b)) <==> a < b
  {
    BeforeIsStrict(ZONE);
    if a != 0 && b != 0 {
      assert Tail(a) == ['.'] + (Digits6(a) + ZONE) && Tail(b) == ['.'] + (Digits6(b) + ZONE);
      PowersOfTen();
      DigitsOrder(a, b, 6, ZONE, ZONE);
    } else if a == 0 && b == 0 {
    } else {
      assert Tail(0)[0] == '+';
    }
  }

  /** Two digits, a separator, and the rest. */
  lemma {:induction false} TwoOrder(a: nat, b: nat, s: string, t: string)
    requires a < 100 && b < 100
    ensures Before(Two(a) + s, Two(b) + t) <==> a < b || (a == b && Before(s, t))
  {
    PowersOfTen();
    DigitsOrder(a, b, 2, s, t);
  }

  lemma {:induction false} ClockOrder(a: DateTime, b: DateTime)
    requires Valid(a) && Valid(b)
    ensures Before(ClockText(a), ClockText(b)) <==> ClockBefore(a, b)
  {
    var sa, sb := Two(a.second) + Tail(a.micro), Two(b.second) + Tail(b.micro);
    var ma, mb := Two(a.minute) + ([':'] + sa), Two(b.minute) + ([':'] + sb);
    TailOrder(a.micro, b.micro);
    TwoOrder(a.second, b.second, Tail(a.micro), Tail(b.micro));
    TwoOrder(a.minute, b.minute, [':'] + sa, [':'] + sb);
    TwoOrder(a.hour, b.hour, [':'] + ma, [':'] + mb);
  }

  lemma {:induction false} IsoOrderIsFieldOrder(a: DateTime, b: DateTime)
    requires Valid(a) && Valid(b)
    ensures Before(Iso(a), Iso(b)) <==> FieldsBefore(a, b)
  {
    var ca, cb := ClockText(a), ClockText(b);
    var da, db := Two(a.day) + (['T'] + ca), Two(b.day) + (['T'] + cb);
    var ma, mb := Two(a.month) + (['-'] + da), Two(b.month) + (['-'] + db);
    ClockOrder(a, b);
    TwoOrder(a.day, b.day, ['T'] + ca, ['T'] + cb);
    TwoOrder(a.month, b.month, ['-'] + da, ['-'] + db);
    PowersOfTen();
    DigitsOrder(a.year, b.year, 4, ['-'] + ma, ['-'] + mb);
  }

  /** Text order of isoformat strings is chronological order. */
  lemma {:induction false} IsoOrderIsTime(a: DateTime, b: DateTime)
    requires Valid(a) && Valid(b)
    ensures Before(Iso(a), Iso(b)) <==> Instant(a) < Instant(b)
    ensures Iso(a) == Iso(b) <==> a == b
  {
    IsoOrderIsFieldOrder(a, b);
    IsoOrderIsFieldOrder(b, a);
    FieldsOrderIsTime(a, b);
    FieldsOrderIsTime(b, a);
    BeforeIsStrict(Iso(a));
  }

  // ----------------------------------------------------------------- reading back

  /** `datetime.fromisoformat` on the two shapes the store writes. */
  function FromIso(s: string): Option<DateTime> {
    if |s| != 25 && |s| != 32 then None
    else
      var fields := (
        Value(s[..4]), Value(s[5..7]), Value(s[8..10]), Value(s[11..13]), Value(s[14..16]), Value(s[17..19]),
        if |s| == 32 then Value(s[20..26]) else 0);
      if fields.0 < 0 || fields.1 < 0 || fields.2 < 0 || fields.3 < 0 || fields.4 < 0 || fields.5 < 0 || fields.6 < 0
      then None
      else
        var t := DateTime(fields.0, fields.1, fields.2, fields.3, fields.4, fields.5, fields.6);
        if Valid(t) then Some(t) else None
  }

  /** The fields stand at fixed positions. */
  lemma {:induction false} IsoSlices(t: DateTime)
    requires Valid(t)
    ensures
      var s := Iso(t);
      && |s| == (if t.micro == 0 then 25 else 32)
      && s[..4] == Four(t.year) && s[5..7] == Two(t.month) && s[8..10] == Two(t.day)
      && s[11..13] == Two(t.hour) && s[14..16] == Two(t.minute) && s[17..19] == Two(t.second)
      && (t.micro != 0 ==> s[20..26] == Digits6(t.micro))
  {
    hide Two, Four, Digits6;
    var tail := Two(t.second) + Tail(t.micro);
    var clock := ClockText(t);
    assert |Tail(t.micro)| == (if t.micro == 0 then 6 else 13);
    assert clock[..2] == Two(t.hour) && clock[3..5] == Two(t.minute) && clock[6..] == tail;
    assert tail[..2] == Two(t.second) && clock[6..8] == tail[..2];
    assert Iso(t)[11..] == clock;
    assert Iso(t)[17..19] == clock[6..8] && Iso(t)[14..16] == clock[3..5] && Iso(t)[11..13] == clock[..2];
    assert t.micro != 0 ==> Tail(t.micro)[1..7] == Digits6(t.micro);
  }

  lemma {:induction false} FieldsRoundTrip(t: DateTime)
    requires Valid(t)
    ensures Value(Four(t.year)) == t.year && Value(Two(t.month)) == t.month && Value(Two(t.day)) == t.day
    ensures Value(Two(t.hour)) == t.hour && Value(Two(t.minute)) == t.minute && Value(Two(t.second)) == t.second
    ensures Value(Digits6(t.micro)) == t.micro
  {
    PowersOfTen();
    DigitsRoundTrip(t.year, 4);
    DigitsRoundTrip(t.month, 2);
    DigitsRoundTrip(t.day, 2);
    DigitsRoundTrip(t.hour, 2);
    DigitsRoundTrip(t.minute, 2);
    DigitsRoundTrip(t.second, 2);
    DigitsRoundTrip(t.micro, 6);
  }

  /** Reading back a stored timestamp gives the time that was written. */
  lemma {:induction false} IsoRoundTrip(t: DateTime)
    requires Valid(t)
    ensures FromIso(Iso(t)) == Some(t)
  {
    hide Iso, Value, Two, Four, Digits6;
    IsoSlices(t);
    FieldsRoundTrip(t);
  }

  /** The text spells the fields in decimal between fixed separators, with the fraction only when it is not zero. */
  lemma {:induction false} IsoSpells(t: DateTime)
    requires Valid(t)
    ensures
      var s := Iso(t);
      && |s| == (if t.micro == 0 then 25 else 32)
      && s[4] == '-' && s[7] == '-' && s[10] == 'T' && s[13] == ':' && s[16] == ':'
      && s[|s| - 6..] == "+00:00" && (t.micro != 0 ==> s[19] == '.' && Value(s[20..26]) == t.micro)
      && Value(s[..4]) == t.year && Value(s[5..7]) == t.month && Value(s[8..10]) == t.day
      && Value(s[11..13]) == t.hour && Value(s[14..16]) == t.minute && Value(s[17..19]) == t.second
  {
    IsoSlices(t);
    FieldsRoundTrip(t);
    hide Two, Four, Digits6, Value;
    var clock := ClockText(t);
    assert Iso(t)[11..] == clock && Iso(t)[10] == 'T';
    assert clock[2] == ':' && clock[5] == ':' && clock[8..] == Tail(t.micro);
    assert Iso(t)[19..] == Tail(t.micro);
    assert Tail(t.micro)[|Tail(t.micro)| - 6..] == ZONE;
  }

  /** One microsecond, second, minute, hour or day later on the calendar is that much later in time, across the ends of
      months and years. */
  lemma {:induction false} CalendarSteps(t: DateTime)
    ensures Instant(t.(micro := t.micro + 1)) == Instant(t) + 1
    ensures Instant(t.(second := t.second + 1)) == Instant(t) + 1_000_000
    ensures Instant(t.(minute := t.minute + 1)) == Instant(t) + 60_000_000
    ensures Instant(t.(hour := t.hour + 1)) == Instant(t) + 3_600_000_000
    ensures Instant(t.(day := t.day + 1)) == Instant(t) + 86_400_000_000
    ensures 1 <= t.month && t.day == MonthDays(t.year, t.month) ==>
              Instant(t.(month := t.month + 1, day := 1)) == Instant(t) + 86_400_000_000
    ensures 1 <= t.year && t.month == 12 && t.day == 31 ==>
              Instant(t.(year := t.year + 1, month := 1, day := 1)) == Instant(t) + 86_400_000_000
  {}

  lemma {:induction false} MonthLengths(year: nat)
    ensures forall m <- [1, 3, 5, 7, 8, 10, 12] :: MonthDays(year, m) == 31
    ensures forall m <- [4, 6, 9, 11] :: MonthDays(year, m) == 30
    ensures MonthDays(year, 2) ==
      if year % 400 == 0 then 29 else if year % 100 == 0 then 28 else if year % 4 == 0 then 29 else 28
  {}

  // ------------------------------------------------------------------- leases

  /** `_require_lease` accepts: the stored text, read as a time, is later than now. */
  predicate LeaseAccepted(stored: string, now: DateTime) {
    FromIso(stored).Some? && Instant(now) < Instant(FromIso(stored).value)
  }

  /** Recovery selects: `lease_until <= ?`, compared as text. */
  predicate SelectedByRecovery(stored: string, now: DateTime)
    requires Valid(now)
  {
    stored == Iso(now) || Before(stored, Iso(now))
  }

  lemma {:induction false} InstantDetermines(a: DateTime, b: DateTime)
    requires Valid(a) && Valid(b)
    ensures Instant(a) == Instant(b) <==> a == b
  {
    hide Instant;
    FieldsOrderIsTime(a, b);
    FieldsOrderIsTime(b, a);
  }

  /** At every instant a stored lease is either still accepted or selected by recovery, never both. */
  lemma {:induction false} LeaseDichotomy(lease: DateTime, now: DateTime)
    requires Valid(lease) && Valid(now)
    ensures LeaseAccepted(Iso(lease), now) <==> !SelectedByRecovery(Iso(lease), now)
  {
    hide Iso, FromIso, Instant, Before;
    IsoRoundTrip(lease);
    IsoOrderIsTime(lease, now);
    IsoOrderIsTime(now, lease);
    InstantDetermines(lease, now);
  }

  /** The two tests on the stored text are the two tests on the instants it stands for. */
  lemma {:induction false} TextTestsAreTimeTests(lease: DateTime, now: DateTime)
    requires Valid(lease) && Valid(now)
    ensures LeaseAccepted(Iso(lease), now) <==> Instant(now) < Instant(lease)
    ensures SelectedByRecovery(Iso(lease), now) <==> Instant(lease) <= Instant(now)
  {
    hide Iso, FromIso, Instant, Before;
    IsoRoundTrip(lease);
    IsoOrderIsTime(lease, now);
    InstantDetermines(lease, now);
  }
}
