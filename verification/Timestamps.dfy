/** UTC timestamps as the stores write them: the text of datetime.isoformat, whose fraction
    is left out when it is zero. The lemmas show that comparing two such texts by code
    points is comparing the two moments, although the texts differ in length. */
module Timestamps {
  import opened Text
  import opened Engine

  /** The fields of a datetime in UTC. */
  datatype DateTime = DateTime(year: nat, month: nat, day: nat, hour: nat, minute: nat, second: nat, micro: nat) {
    predicate Valid() {
      && 1 <= year <= 9999 && 1 <= month <= 12 && 1 <= day <= DaysInMonth(year, month)
      && hour < 24 && minute < 60 && second < 60 && micro < 1_000_000
    }
  }

  predicate IsLeap(year: nat) {
    year % 4 == 0 && (year % 100 != 0 || year % 400 == 0)
  }

  function DaysInMonth(year: nat, month: nat): nat {
    if month == 2 then (if IsLeap(year) then 29 else 28)
    else if month in {4, 6, 9, 11} then 30
    else 31
  }

  /** Days from the first day of year 1 to the first day of this year, of this month. */
  function DaysBeforeYear(year: nat): nat {
    if year <= 1 then 0 else DaysBeforeYear(year - 1) + (if IsLeap(year - 1) then 366 else 365)
  }

  function DaysBeforeMonth(year: nat, month: nat): nat {
    if month <= 1 then 0 else DaysBeforeMonth(year, month - 1) + DaysInMonth(year, month - 1)
  }

  function DayNumber(d: DateTime): int {
    DaysBeforeYear(d.year) + DaysBeforeMonth(d.year, d.month) + d.day - 1
  }

  /** Microseconds since the start of year 1. */
  function Instant(d: DateTime): Time {
    (((DayNumber(d) * 24 + d.hour) * 60 + d.minute) * 60 + d.second) * 1_000_000 + d.micro
  }

  // ---------- The order of moments is the order of fields ----------

  function FieldsOf(d: DateTime): seq<nat> {
    [d.year, d.month, d.day, d.hour, d.minute, d.second, d.micro]
  }

  /** The first difference decides. */
  predicate FieldsBefore(a: seq<nat>, b: seq<nat>)
    requires |a| == |b|
  {
    a != [] && (a[0] < b[0] || (a[0] == b[0] && FieldsBefore(a[1..], b[1..])))
  }

  lemma {:induction false} YearsGrow(a: nat, b: nat)
    requires 1 <= a < b
    ensures DaysBeforeYear(a) + 365 <= DaysBeforeYear(b)
    ensures IsLeap(a) ==> DaysBeforeYear(a) + 366 <= DaysBeforeYear(b)
    decreases b
  {
    if a < b - 1 {
      YearsGrow(a, b - 1);
    }
  }

  lemma {:induction false} MonthsGrow(year: nat, a: nat, b: nat)
    requires 1 <= a < b
    ensures DaysBeforeMonth(year, a) + DaysInMonth(year, a) <= DaysBeforeMonth(year, b)
    decreases b
  {
    if a < b - 1 {
      MonthsGrow(year, a, b - 1);
    }
  }

  lemma MonthsFitYear(year: nat, month: nat)
    requires 1 <= month <= 12
    ensures DaysBeforeMonth(year, month) + DaysInMonth(year, month) <= (if IsLeap(year) then 366 else 365)
  {
    assert DaysBeforeMonth(year, 2) == 31;
    assert DaysBeforeMonth(year, 3) == 31 + DaysInMonth(year, 2);
    assert DaysBeforeMonth(year, 5) == DaysBeforeMonth(year, 3) + 31 + 30;
    assert DaysBeforeMonth(year, 7) == DaysBeforeMonth(year, 5) + 31 + 30;
    assert DaysBeforeMonth(year, 9) == DaysBeforeMonth(year, 7) + 31 + 31;
    assert DaysBeforeMonth(year, 11) == DaysBeforeMonth(year, 9) + 30 + 31;
    assert DaysBeforeMonth(year, 13) == DaysBeforeMonth(year, 11) + 30 + 31;
    MonthsGrow(year, month, 13);
  }

  lemma DaysAreOrdered(a: DateTime, b: DateTime)
    requires a.Valid() && b.Valid()
    ensures (a.year, a.month, a.day) == (b.year, b.month, b.day) ==> DayNumber(a) == DayNumber(b)
    ensures a.year < b.year
            || (a.year == b.year && (a.month < b.month || (a.month == b.month && a.day < b.day))) ==>
              DayNumber(a) < DayNumber(b)
  {
    if a.year < b.year {
      YearsGrow(a.year, b.year);
      MonthsFitYear(a.year, a.month);
    } else if a.year == b.year && a.month < b.month {
      MonthsGrow(a.year, a.month, b.month);
    }
  }

  function Clock(d: DateTime): seq<nat> {
    [d.hour, d.minute, d.second, d.micro]
  }

  lemma DateThenClock(a: DateTime, b: DateTime)
    ensures FieldsBefore(FieldsOf(a), FieldsOf(b)) <==>
              || a.year < b.year
              || (a.year == b.year && (a.month < b.month || (a.month == b.month &&
                   (a.day < b.day || (a.day == b.day && FieldsBefore(Clock(a), Clock(b)))))))
  {
    var x, y := FieldsOf(a)[1..], FieldsOf(b)[1..];
    assert x[1..] == [a.day] + Clock(a) && y[1..] == [b.day] + Clock(b);
    assert x[1..][1..] == Clock(a) && y[1..][1..] == Clock(b);
    assert FieldsBefore(x[1..], y[1..]) <==> a.day < b.day || (a.day == b.day && FieldsBefore(Clock(a), Clock(b)));
    assert FieldsBefore(x, y) <==> a.month < b.month || (a.month == b.month && FieldsBefore(x[1..], y[1..]));
  }

  lemma BeforeIsEarlier(a: DateTime, b: DateTime)
    requires a.Valid() && b.Valid() && FieldsBefore(FieldsOf(a), FieldsOf(b))
    ensures Instant(a) < Instant(b)
  {
    DateThenClock(a, b);
    ClockIsOrdered(Clock(a), Clock(b));
    DaysAreOrdered(a, b);
  }

  lemma ClockIsOrdered(x: seq<nat>, y: seq<nat>)
    requires |x| == |y| == 4
    ensures FieldsBefore(x, y) ==>
              || x[0] < y[0]
              || (x[0] == y[0] && (x[1] < y[1] || (x[1] == y[1] && (x[2] < y[2] || (x[2] == y[2] && x[3] < y[3])))))
  {
    var x2, y2 := x[1..][1..], y[1..][1..];
    assert x2 == [x[2], x[3]] && y2 == [y[2], y[3]];
    assert FieldsBefore(x2[1..], y2[1..]) <==> x[3] < y[3];
    assert FieldsBefore(x2, y2) <==> x[2] < y[2] || (x[2] == y[2] && x[3] < y[3]);
    assert FieldsBefore(x[1..], y[1..]) <==> x[1] < y[1] || (x[1] == y[1] && FieldsBefore(x2, y2));
  }

  lemma {:induction false} FieldsAreTotal(a: seq<nat>, b: seq<nat>)
    requires |a| == |b|
    ensures FieldsBefore(a, b) || a == b || FieldsBefore(b, a)
  {
    if a != [] {
      FieldsAreTotal(a[1..], b[1..]);
      assert a == [a[0]] + a[1..] && b == [b[0]] + b[1..];
    }
  }

  /** Comparing the fields one after the other is comparing the moments. */
  lemma FieldOrderIsTime(a: DateTime, b: DateTime)
    requires a.Valid() && b.Valid()
    ensures FieldsBefore(FieldsOf(a), FieldsOf(b)) <==> Instant(a) < Instant(b)
    ensures a == b <==> Instant(a) == Instant(b)
  {
    FieldsAreTotal(FieldsOf(a), FieldsOf(b));
    assert FieldsOf(a) == FieldsOf(b) ==> a == b by {
      assert FieldsOf(a)[0] == a.year && FieldsOf(a)[1] == a.month && FieldsOf(a)[2] == a.day;
      assert FieldsOf(a)[3] == a.hour && FieldsOf(a)[4] == a.minute && FieldsOf(a)[5] == a.second;
      assert FieldsOf(a)[6] == a.micro;
    }
    if FieldsBefore(FieldsOf(a), FieldsOf(b)) {
      BeforeIsEarlier(a, b);
    } else if FieldsBefore(FieldsOf(b), FieldsOf(a)) {
      BeforeIsEarlier(b, a);
    }
  }

  // ---------- The text ----------

  function Digit(n: nat): char
    requires n < 10
  {
    (n + 0x30) as char
  }

  function Pow10(w: nat): nat {
    if w == 0 then 1 else 10 * Pow10(w - 1)
  }

  /** n in w decimal digits, with leading zeros. */
  function Digits(n: nat, w: nat): string {
    if w == 0 then "" else Digits(n / 10, w - 1) + [Digit(n % 10)]
  }

  /** One field, and the separator written after it. */
  datatype Field = Field(width: nat, after: char)

  const LAYOUT := [Field(4, '-'), Field(2, '-'), Field(2, 'T'), Field(2, ':'), Field(2, ':')]
  const OFFSET := "+00:00"

  function Fraction(micro: nat): string {
    (if micro == 0 then "" else "." + Digits(micro, 6)) + OFFSET
  }

  function Written(layout: seq<Field>, values: seq<nat>): string
    requires |values| == |layout| + 2
    decreases |layout|
  {
    if layout == [] then Digits(values[0], 2) + Fraction(values[1])
    else Digits(values[0], layout[0].width) + ([layout[0].after] + Written(layout[1..], values[1..]))
  }

  function Iso(d: DateTime): string {
    Written(LAYOUT, FieldsOf(d))
  }

  // ---------- Text order ----------

  lemma {:induction false} LessAfterEqualLength(a: string, b: string, x: string, y: string)
    requires |a| == |b|
    ensures Less(a + x, b + y) <==> Less(a, b) || (a == b && Less(x, y))
  {
    if a == [] {
      assert a + x == x && b + y == y;
    } else {
      assert (a + x)[1..] == a[1..] + x && (b + y)[1..] == b[1..] + y;
      LessAfterEqualLength(a[1..], b[1..], x, y);
      assert a == [a[0]] + a[1..] && b == [b[0]] + b[1..];
    }
  }

  lemma {:induction false} DigitsCompare(n: nat, m: nat, w: nat)
    requires n < Pow10(w) && m < Pow10(w)
    ensures |Digits(n, w)| == |Digits(m, w)| == w
    ensures Less(Digits(n, w), Digits(m, w)) <==> n < m
    ensures Digits(n, w) == Digits(m, w) <==> n == m
  {
    if w > 0 {
      DigitsCompare(n / 10, m / 10, w - 1);
      var a, b := Digits(n / 10, w - 1), Digits(m / 10, w - 1);
      LessAfterEqualLength(a, b, [Digit(n % 10)], [Digit(m % 10)]);
      assert (a + [Digit(n % 10)])[..w - 1] == a && (b + [Digit(m % 10)])[..w - 1] == b;
      assert (a + [Digit(n % 10)])[w - 1] == Digit(n % 10) && (b + [Digit(m % 10)])[w - 1] == Digit(m % 10);
      DigitCompare(n % 10, m % 10);
    }
  }

  lemma DigitCompare(n: nat, m: nat)
    requires n < 10 && m < 10
    ensures Less([Digit(n)], [Digit(m)]) <==> n < m
    ensures Digit(n) == Digit(m) <==> n == m
  {
  }

  /** A fixed-width number decides unless it is equal; then the rest does. */
  lemma NumberThenRest(n: nat, m: nat, w: nat, x: string, y: string)
    requires n < Pow10(w) && m < Pow10(w)
    ensures Less(Digits(n, w) + x, Digits(m, w) + y) <==> n < m || (n == m && Less(x, y))
  {
    DigitsCompare(n, m, w);
    LessAfterEqualLength(Digits(n, w), Digits(m, w), x, y);
  }

  lemma SixDigits()
    ensures Pow10(2) == 100 && Pow10(4) == 10_000 && Pow10(6) == 1_000_000
  {
    assert Pow10(4) == 100 * Pow10(2) && Pow10(6) == 100 * Pow10(4);
  }

  /** A missing fraction sorts first, because '+' comes before '.'. */
  lemma FractionCompare(n: nat, m: nat)
    requires n < 1_000_000 && m < 1_000_000
    ensures Less(Fraction(n), Fraction(m)) <==> n < m
  {
    SixDigits();
    LessTotal(OFFSET, OFFSET);
    if n > 0 && m > 0 {
      NumberThenRest(n, m, 6, OFFSET, OFFSET);
      assert Fraction(n) == "." + (Digits(n, 6) + OFFSET) && Fraction(m) == "." + (Digits(m, 6) + OFFSET);
      LessAfterEqualLength(".", ".", Digits(n, 6) + OFFSET, Digits(m, 6) + OFFSET);
    } else {
      assert "" + OFFSET == OFFSET && OFFSET[0] == '+';
      assert n > 0 ==> Fraction(n)[0] == '.';
      assert m > 0 ==> Fraction(m)[0] == '.';
    }
  }

  ghost predicate Fits(layout: seq<Field>, values: seq<nat>) {
    && |values| == |layout| + 2
    && (forall i | 0 <= i < |layout| :: values[i] < Pow10(layout[i].width))
    && values[|layout|] < Pow10(2) && values[|layout| + 1] < 1_000_000
  }

  lemma {:induction false} WrittenCompare(layout: seq<Field>, a: seq<nat>, b: seq<nat>)
    requires Fits(layout, a) && Fits(layout, b)
    ensures Less(Written(layout, a), Written(layout, b)) <==> FieldsBefore(a, b)
    decreases |layout|
  {
    if layout == [] {
      NumberThenRest(a[0], b[0], 2, Fraction(a[1]), Fraction(b[1]));
      FractionCompare(a[1], b[1]);
      assert FieldsBefore(a[1..], b[1..]) <==> a[1] < b[1];
    } else {
      WrittenCompare(layout[1..], a[1..], b[1..]);
      var x, y := Written(layout[1..], a[1..]), Written(layout[1..], b[1..]);
      var c := [layout[0].after];
      LessTotal(c, c);
      LessAfterEqualLength(c, c, x, y);
      NumberThenRest(a[0], b[0], layout[0].width, c + x, c + y);
    }
  }

  lemma FieldsFit(d: DateTime)
    requires d.Valid()
    ensures Fits(LAYOUT, FieldsOf(d))
  {
    SixDigits();
  }

  /** Comparing the texts by code points is comparing the moments. */
  lemma IsoOrderIsTime(a: DateTime, b: DateTime)
    requires a.Valid() && b.Valid()
    ensures Less(Iso(a), Iso(b)) <==> Instant(a) < Instant(b)
    ensures Iso(a) == Iso(b) <==> Instant(a) == Instant(b)
  {
    FieldsFit(a);
    FieldsFit(b);
    WrittenCompare(LAYOUT, FieldsOf(a), FieldsOf(b));
    WrittenCompare(LAYOUT, FieldsOf(b), FieldsOf(a));
    FieldOrderIsTime(a, b);
    FieldOrderIsTime(b, a);
    LessTotal(Iso(a), Iso(b));
  }

  ghost predicate IsMoment(t: Time) {
    exists d: DateTime :: d.Valid() && Instant(d) == t
  }

  /** The text that a store writes for moment t. */
  ghost function TextOf(t: Time): string {
    if IsMoment(t) then
      var d: DateTime :| d.Valid() && Instant(d) == t;
      Iso(d)
    else ""
  }

  /** On these times, the order of the texts is the order of the times. */
  ghost predicate KeepsOrder(text: Time -> string, times: Time -> bool) {
    forall a, b | times(a) && times(b) ::
      (Less(text(a), text(b)) <==> a < b) && (text(a) == text(b) <==> a == b)
  }

  lemma TextOfAt(d: DateTime)
    requires d.Valid()
    ensures TextOf(Instant(d)) == Iso(d)
  {
    assert IsMoment(Instant(d));
    var e: DateTime :| e.Valid() && Instant(e) == Instant(d) && Iso(e) == TextOf(Instant(d));
    IsoOrderIsTime(d, e);
  }

  lemma TextOfKeepsOrder()
    ensures KeepsOrder(TextOf, IsMoment)
  {
    forall a, b | IsMoment(a) && IsMoment(b)
      ensures (Less(TextOf(a), TextOf(b)) <==> a < b) && (TextOf(a) == TextOf(b) <==> a == b)
    {
      var d: DateTime :| d.Valid() && Instant(d) == a;
      var e: DateTime :| e.Valid() && Instant(e) == b;
      TextOfAt(d);
      TextOfAt(e);
      IsoOrderIsTime(d, e);
    }
  }
}
