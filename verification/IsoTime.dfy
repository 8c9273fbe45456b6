/**
 Timestamps are stored as the ISO text of UTC datetimes, and queries compare these texts. The fraction is left out when
 it is zero, so texts differ in length; that their order is still the order of time rests on '+' sorting before '.'.
 */
module IsoTime {

  /** A UTC datetime of the proleptic Gregorian calendar. */
  datatype Utc = Utc(year: nat, month: nat, day: nat, hour: nat, minute: nat, second: nat, micro: nat)

  predicate IsLeap(year: nat) {
    year % 4 == 0 && (year % 100 != 0 || year % 400 == 0)
  }

  function DaysIn(year: nat, month: nat): nat {
    if month == 2 then (if IsLeap(year) then 29 else 28)
    else if month == 4 || month == 6 || month == 9 || month == 11 then 30
    else 31
  }

  predicate Valid(t: Utc) {
    && 1 <= t.year <= 9999 && 1 <= t.month <= 12 && 1 <= t.day <= DaysIn(t.year, t.month)
    && t.hour < 24 && t.minute < 60 && t.second < 60 && t.micro < 1_000_000
  }

  /******* Time *******/

  function DaysBeforeYear(year: nat): nat
    requires year >= 1
  {
    365 * (year - 1) + (year - 1) / 4 - (year - 1) / 100 + (year - 1) / 400
  }

  function DaysBeforeMonth(year: nat, month: nat): nat
    requires month >= 1
  {
    if month == 1 then 0 else DaysBeforeMonth(year, month - 1) + DaysIn(year, month - 1)
  }

  /** Days since the start of the calendar. */
  function Days(t: Utc): nat
    requires t.year >= 1 && t.month >= 1
  {
    DaysBeforeYear(t.year) + DaysBeforeMonth(t.year, t.month) + t.day
  }

  /** Seconds since the start of the calendar, and the microsecond within the second. */
  function Seconds(t: Utc): nat
    requires t.year >= 1 && t.month >= 1
  {
    ((Days(t) * 24 + t.hour) * 60 + t.minute) * 60 + t.second
  }

  predicate Earlier(a: Utc, b: Utc)
    requires Valid(a) && Valid(b)
  {
    Seconds(a) * 1_000_000 + a.micro < Seconds(b) * 1_000_000 + b.micro
  }

  /******* Text *******/

  function Digit(n: nat): char
    requires n < 10
  {
    "0123456789"[n]
  }

  /** The last `width` decimal digits of a number. */
  function Padded(n: nat, width: nat): (digits: string)
    ensures |digits| == width
  {
    if width == 0 then "" else Padded(n / 10, width - 1) + [Digit(n % 10)]
  }

  function Fraction(micro: nat): string {
    if micro == 0 then "" else "." + Padded(micro, 6)
  }

  function Text(t: Utc): string {
    Padded(t.year, 4) + ("-" + (Padded(t.month, 2) + ("-" + (Padded(t.day, 2) + ("T" + (Padded(t.hour, 2)
    + (":" + (Padded(t.minute, 2) + (":" + (Padded(t.second, 2) + (Fraction(t.micro) + "+00:00")))))))))))
  }

  /** The order of texts by code point. */
  predicate Less(a: string, b: string) {
    b != "" && (a == "" || a[0] < b[0] || (a[0] == b[0] && Less(a[1..], b[1..])))
  }

  /******* Order of texts *******/

  /** Parts of equal length compare one after the other. */
  lemma {:induction false} LessByParts(a: string, b: string, x: string, y: string)
    requires |a| == |b|
    ensures Less(a + x, b + y) <==> Less(a, b) || (a == b && Less(x, y))
  {
    if a == "" {
      assert a + x == x && b + y == y;
    } else {
      assert (a + x)[1..] == a[1..] + x && (b + y)[1..] == b[1..] + y;
      LessByParts(a[1..], b[1..], x, y);
    }
  }

  function Power(width: nat): nat {
    if width == 0 then 1 else 10 * Power(width - 1)
  }

  lemma {:induction false} PaddedOrder(n: nat, m: nat, width: nat)
    requires n < Power(width) && m < Power(width)
    ensures Less(Padded(n, width), Padded(m, width)) <==> n < m
    ensures Padded(n, width) == Padded(m, width) <==> n == m
  {
    if width > 0 {
      PaddedOrder(n / 10, m / 10, width - 1);
      DigitOrder(Padded(n / 10, width - 1), Padded(m / 10, width - 1), n % 10, m % 10);
    }
  }

  lemma DigitOrder(a: string, b: string, n: nat, m: nat)
    requires |a| == |b| && n < 10 && m < 10
    ensures Less(a + [Digit(n)], b + [Digit(m)]) <==> Less(a, b) || (a == b && n < m)
    ensures a + [Digit(n)] == b + [Digit(m)] <==> a == b && n == m
  {
    LessByParts(a, b, [Digit(n)], [Digit(m)]);
    assert (a + [Digit(n)])[..|a|] == a && (b + [Digit(m)])[..|b|] == b;
    assert (a + [Digit(n)])[|a|] == Digit(n) && (b + [Digit(m)])[|b|] == Digit(m);
  }

  lemma Powers()
    ensures Power(2) == 100 && Power(4) == 10000 && Power(6) == 1_000_000
  {
    assert Power(3) == 1000;
    assert Power(5) == 100_000;
  }

  /** One padded field and its separator, in front of the rest. */
  lemma FieldOrder(n: nat, m: nat, width: nat, x: string, y: string)
    requires n < Power(width) && m < Power(width)
    ensures Less(Padded(n, width) + x, Padded(m, width) + y) <==> n < m || (n == m && Less(x, y))
  {
    PaddedOrder(n, m, width);
    LessByParts(Padded(n, width), Padded(m, width), x, y);
  }

  lemma SeparatorOrder(separator: string, x: string, y: string)
    ensures Less(separator + x, separator + y) <==> Less(x, y)
  {
    LessByParts(separator, separator, x, y);
    NeverBelowItself(separator);
  }

  lemma {:induction false} NeverBelowItself(a: string)
    ensures !Less(a, a)
  {
    if a != "" {
      NeverBelowItself(a[1..]);
    }
  }

  /** A missing fraction sorts first. */
  lemma FractionOrder(n: nat, m: nat)
    requires n < 1_000_000 && m < 1_000_000
    ensures Less(Fraction(n) + "+00:00", Fraction(m) + "+00:00") <==> n < m
  {
    var zone := "+00:00";
    Powers();
    NeverBelowItself(zone);
    assert "" + zone == zone;
    if n == 0 && m != 0 {
      assert Fraction(m) + zone == "." + (Padded(m, 6) + zone);
      assert (Fraction(m) + zone)[0] == '.' && zone[0] == '+';
    } else if n != 0 && m == 0 {
      assert Fraction(n) + zone == "." + (Padded(n, 6) + zone);
      assert (Fraction(n) + zone)[0] == '.' && zone[0] == '+';
    } else if n != 0 {
      assert Fraction(n) + zone == "." + (Padded(n, 6) + zone);
      assert Fraction(m) + zone == "." + (Padded(m, 6) + zone);
      SeparatorOrder(".", Padded(n, 6) + zone, Padded(m, 6) + zone);
      FieldOrder(n, m, 6, zone, zone);
    }
  }

  predicate FieldsBelow(a: Utc, b: Utc) {
    || a.year < b.year
    || (a.year == b.year && (a.month < b.month || (a.month == b.month && DayAndTimeBelow(a, b))))
  }

  predicate DayAndTimeBelow(a: Utc, b: Utc) {
    a.day < b.day || (a.day == b.day && TimeBelow(a, b))
  }

  predicate TimeBelow(a: Utc, b: Utc) {
    || a.hour < b.hour
    || (a.hour == b.hour && (a.minute < b.minute || (a.minute == b.minute && SecondBelow(a, b))))
  }

  predicate SecondBelow(a: Utc, b: Utc) {
    a.second < b.second || (a.second == b.second && a.micro < b.micro)
  }

  function SecondText(t: Utc): string {
    Padded(t.second, 2) + (Fraction(t.micro) + "+00:00")
  }

  function TimeText(t: Utc): string {
    Padded(t.hour, 2) + (":" + (Padded(t.minute, 2) + (":" + SecondText(t))))
  }

  function DayText(t: Utc): string {
    Padded(t.day, 2) + ("T" + TimeText(t))
  }

  lemma TimeTextOrder(a: Utc, b: Utc)
    requires Valid(a) && Valid(b)
    ensures Less(TimeText(a), TimeText(b)) <==> TimeBelow(a, b)
  {
    Powers();
    var x, y := Padded(a.minute, 2) + (":" + SecondText(a)), Padded(b.minute, 2) + (":" + SecondText(b));
    FieldOrder(a.hour, b.hour, 2, ":" + x, ":" + y);
    SeparatorOrder(":", x, y);
    FieldOrder(a.minute, b.minute, 2, ":" + SecondText(a), ":" + SecondText(b));
    SeparatorOrder(":", SecondText(a), SecondText(b));
    FieldOrder(a.second, b.second, 2, Fraction(a.micro) + "+00:00", Fraction(b.micro) + "+00:00");
    FractionOrder(a.micro, b.micro);
  }

  lemma FieldsOrder(a: Utc, b: Utc)
    requires Valid(a) && Valid(b)
    ensures Less(Text(a), Text(b)) <==> FieldsBelow(a, b)
  {
    Powers();
    var x, y := Padded(a.month, 2) + ("-" + DayText(a)), Padded(b.month, 2) + ("-" + DayText(b));
    assert Text(a) == Padded(a.year, 4) + ("-" + x) && Text(b) == Padded(b.year, 4) + ("-" + y);
    FieldOrder(a.year, b.year, 4, "-" + x, "-" + y);
    SeparatorOrder("-", x, y);
    FieldOrder(a.month, b.month, 2, "-" + DayText(a), "-" + DayText(b));
    SeparatorOrder("-", DayText(a), DayText(b));
    FieldOrder(a.day, b.day, 2, "T" + TimeText(a), "T" + TimeText(b));
    SeparatorOrder("T", TimeText(a), TimeText(b));
    TimeTextOrder(a, b);
  }

  /******* Order of time *******/

  lemma NextByFour(n: nat)
    ensures (n + 1) / 4 == n / 4 + if (n + 1) % 4 == 0 then 1 else 0
  {
  }

  lemma NextByHundred(n: nat)
    ensures (n + 1) / 100 == n / 100 + if (n + 1) % 100 == 0 then 1 else 0
  {
  }

  lemma NextByFourHundred(n: nat)
    ensures (n + 1) / 400 == n / 400 + if (n + 1) % 400 == 0 then 1 else 0
  {
  }

  lemma FourHundredthsAreHundredths(n: nat)
    requires n % 400 == 0
    ensures n % 100 == 0
  {
    assert n == 100 * (4 * (n / 400));
  }

  lemma HundredthsAreFourths(n: nat)
    requires n % 100 == 0
    ensures n % 4 == 0
  {
    assert n == 4 * (25 * (n / 100));
  }

  lemma YearLength(year: nat)
    requires year >= 1
    ensures DaysBeforeYear(year + 1) == DaysBeforeYear(year) + if IsLeap(year) then 366 else 365
  {
    NextByFour(year - 1);
    NextByHundred(year - 1);
    NextByFourHundred(year - 1);
    if year % 400 == 0 {
      FourHundredthsAreHundredths(year);
    }
    if year % 100 == 0 {
      HundredthsAreFourths(year);
    }
  }

  lemma {:induction false} YearsAscend(early: nat, late: nat)
    requires 1 <= early <= late
    ensures DaysBeforeYear(early) <= DaysBeforeYear(late)
    decreases late - early
  {
    if early < late {
      YearLength(early);
      YearsAscend(early + 1, late);
    }
  }

  lemma {:induction false} MonthsAscend(year: nat, early: nat, late: nat)
    requires 1 <= early <= late
    ensures DaysBeforeMonth(year, early) <= DaysBeforeMonth(year, late)
    ensures early < late ==> DaysBeforeMonth(year, early) + DaysIn(year, early) <= DaysBeforeMonth(year, late)
    decreases late
  {
    if early < late {
      MonthsAscend(year, early, late - 1);
    }
  }

  lemma DaysWithinYear(t: Utc)
    requires Valid(t)
    ensures DaysBeforeMonth(t.year, t.month) + t.day <= if IsLeap(t.year) then 366 else 365
  {
    MonthsAscend(t.year, t.month, 13);
    var y, february := t.year, DaysIn(t.year, 2);
    assert DaysBeforeMonth(y, 2) == 31 && DaysBeforeMonth(y, 3) == 31 + february;
    assert DaysBeforeMonth(y, 4) == 62 + february && DaysBeforeMonth(y, 5) == 92 + february;
    assert DaysBeforeMonth(y, 6) == 123 + february && DaysBeforeMonth(y, 7) == 153 + february;
    assert DaysBeforeMonth(y, 8) == 184 + february && DaysBeforeMonth(y, 9) == 215 + february;
    assert DaysBeforeMonth(y, 10) == 245 + february && DaysBeforeMonth(y, 11) == 276 + february;
    assert DaysBeforeMonth(y, 12) == 306 + february && DaysBeforeMonth(y, 13) == 337 + february;
  }

  predicate DateBelow(a: Utc, b: Utc) {
    a.year < b.year || (a.year == b.year && (a.month < b.month || (a.month == b.month && a.day < b.day)))
  }

  /** A later date is at least one day later. */
  lemma DaysAscend(a: Utc, b: Utc)
    requires Valid(a) && Valid(b) && DateBelow(a, b)
    ensures Days(a) < Days(b)
  {
    if a.year < b.year {
      DaysWithinYear(a);
      YearLength(a.year);
      YearsAscend(a.year + 1, b.year);
    } else if a.month < b.month {
      MonthsAscend(a.year, a.month, b.month);
    }
  }

  lemma EarlierByFields(a: Utc, b: Utc)
    requires Valid(a) && Valid(b) && FieldsBelow(a, b)
    ensures Earlier(a, b)
  {
    if DateBelow(a, b) {
      DaysAscend(a, b);
    }
  }

  /** Comparing two timestamps as texts, as the queries do, is comparing the times they stand for. */
  lemma TextOrderIsTimeOrder(a: Utc, b: Utc)
    requires Valid(a) && Valid(b)
    ensures Less(Text(a), Text(b)) <==> Earlier(a, b)
    ensures Text(a) == Text(b) <==> a == b
  {
    FieldsOrder(a, b);
    FieldsOrder(b, a);
    if FieldsBelow(a, b) {
      EarlierByFields(a, b);
    } else if FieldsBelow(b, a) {
      EarlierByFields(b, a);
    } else {
      assert a == b;
    }
    NeverBelowItself(Text(a));
  }
}
