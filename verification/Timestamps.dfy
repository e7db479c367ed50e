/** The Gregorian calendar as a count of days. */
module Calendar {

  predicate IsLeap(year: nat) {
    year % 4 == 0 && (year % 100 != 0 || year % 400 == 0)
  }

  function YearLength(year: nat): nat {
    if IsLeap(year) then 366 else 365
  }

  function MonthLength(year: nat, month: nat): nat {
    if month == 2 then (if IsLeap(year) then 29 else 28)
    else if month in {4, 6, 9, 11} then 30
    else 31
  }

  /** Days from the start of year 0 to the start of `year`, counted year by year. */
  function DaysBeforeYear(year: nat): nat {
    if year == 0 then 0 else DaysBeforeYear(year - 1) + YearLength(year - 1)
  }

  function DaysBeforeMonth(year: nat, month: nat): nat {
    if month <= 1 then 0 else DaysBeforeMonth(year, month - 1) + MonthLength(year, month - 1)
  }

  predicate IsDate(year: nat, month: nat, day: nat) {
    1 <= month <= 12 && 1 <= day <= MonthLength(year, month)
  }

  function DayNumber(year: nat, month: nat, day: nat): int {
    DaysBeforeYear(year) + DaysBeforeMonth(year, month) + day - 1
  }

  /** The count of days has the usual closed form. */
  lemma {:induction false} DaysBeforeYearClosedForm(year: nat)
    ensures DaysBeforeYear(year) == 365 * year + (year + 3) / 4 - (year + 99) / 100 + (year + 399) / 400
  {
    if year > 0 {
      DaysBeforeYearClosedForm(year - 1);
      LeapStep(year - 1);
    }
  }

  lemma LeapStep(y: nat)
    ensures (y + 4) / 4 == (y + 3) / 4 + (if y % 4 == 0 then 1 else 0)
    ensures (y + 100) / 100 == (y + 99) / 100 + (if y % 100 == 0 then 1 else 0)
    ensures (y + 400) / 400 == (y + 399) / 400 + (if y % 400 == 0 then 1 else 0)
    ensures (y % 400 == 0 ==> y % 100 == 0) && (y % 100 == 0 ==> y % 4 == 0)
  {
    CeilingByFour(y);
    CeilingByHundred(y);
    CeilingByFourHundred(y);
    HundredsAreFours(y);
  }

  lemma CeilingByFour(y: nat)
    ensures (y + 4) / 4 == (y + 3) / 4 + (if y % 4 == 0 then 1 else 0)
  {
  }

  lemma CeilingByHundred(y: nat)
    ensures (y + 100) / 100 == (y + 99) / 100 + (if y % 100 == 0 then 1 else 0)
  {
  }

  lemma CeilingByFourHundred(y: nat)
    ensures (y + 400) / 400 == (y + 399) / 400 + (if y % 400 == 0 then 1 else 0)
  {
  }

  lemma HundredsAreFours(y: nat)
    ensures (y % 400 == 0 ==> y % 100 == 0) && (y % 100 == 0 ==> y % 4 == 0)
  {
    assert y % 400 == 0 ==> y == 100 * (4 * (y / 400));
    assert y % 100 == 0 ==> y == 4 * (25 * (y / 100));
  }

  lemma {:induction false} YearsAreOrdered(y: nat, z: nat)
    requires y < z
    ensures DaysBeforeYear(y) + YearLength(y) <= DaysBeforeYear(z)
  {
    if y < z - 1 {
      YearsAreOrdered(y, z - 1);
    }
  }

  lemma {:induction false} MonthsAreOrdered(year: nat, m: nat, n: nat)
    requires 1 <= m < n
    ensures DaysBeforeMonth(year, m) + MonthLength(year, m) <= DaysBeforeMonth(year, n)
  {
    if m < n - 1 {
      MonthsAreOrdered(year, m, n - 1);
    }
  }

  lemma TwelveMonthsMakeAYear(year: nat)
    ensures DaysBeforeMonth(year, 13) == YearLength(year)
  {
    assert DaysBeforeMonth(year, 3) == DaysBeforeMonth(year, 2) + MonthLength(year, 2);
    assert DaysBeforeMonth(year, 5) == DaysBeforeMonth(year, 3) + 61;
    assert DaysBeforeMonth(year, 7) == DaysBeforeMonth(year, 5) + 61;
    assert DaysBeforeMonth(year, 9) == DaysBeforeMonth(year, 7) + 62;
    assert DaysBeforeMonth(year, 11) == DaysBeforeMonth(year, 9) + 61;
    assert DaysBeforeMonth(year, 13) == DaysBeforeMonth(year, 11) + 61;
  }

  /** The days of the calendar, month by month. */
  lemma DatesOfMonth(year: nat, month: nat, day: nat)
    ensures IsDate(year, month, day) <==>
            || (month in {1, 3, 5, 7, 8, 10, 12} && 1 <= day <= 31)
            || (month in {4, 6, 9, 11} && 1 <= day <= 30)
            || (month == 2 && 1 <= day <= 28)
            || (month == 2 && day == 29 && year % 4 == 0 && (year % 100 != 0 || year % 400 == 0))
  {
  }

  lemma DaysBeforeEarlyMonth(year: nat, month: nat)
    requires 1 <= month <= 6
    ensures DaysBeforeMonth(year, 1) == 0 && DaysBeforeMonth(year, 2) == 31
    ensures month > 2 ==> DaysBeforeMonth(year, month) == 58 + (153 * (month - 3) + 7) / 5 + (if IsLeap(year) then 1 else 0)
  {
    assert DaysBeforeMonth(year, 3) == DaysBeforeMonth(year, 2) + MonthLength(year, 2);
    assert DaysBeforeMonth(year, 5) == DaysBeforeMonth(year, 4) + 30;
  }

  lemma DaysBeforeLateMonth(year: nat, month: nat)
    requires 6 <= month <= 12
    ensures DaysBeforeMonth(year, month) == 58 + (153 * (month - 3) + 7) / 5 + (if IsLeap(year) then 1 else 0)
  {
    DaysBeforeEarlyMonth(year, 6);
    assert DaysBeforeMonth(year, 7) == DaysBeforeMonth(year, 6) + 30;
    assert DaysBeforeMonth(year, 8) == DaysBeforeMonth(year, 7) + 31;
    assert DaysBeforeMonth(year, 9) == DaysBeforeMonth(year, 8) + 31;
    assert DaysBeforeMonth(year, 10) == DaysBeforeMonth(year, 9) + 30;
    assert DaysBeforeMonth(year, 11) == DaysBeforeMonth(year, 10) + 31;
    assert DaysBeforeMonth(year, 12) == DaysBeforeMonth(year, 11) + 30;
  }

  lemma QuartersOfYear(y: nat)
    ensures (y - 1) / 4 == (y + 3) / 4 - 1 && (y - 1) / 100 == (y + 99) / 100 - 1 && (y - 1) / 400 == (y + 399) / 400 - 1
  {
  }

  /** Days to the first of March of year 0, and from there to the first of March of a year. */
  function DaysToMarch(y: int): int {
    60 + 365 * y + y / 4 - y / 100 + y / 400
  }

  lemma YearsToMarch(year: nat)
    ensures DaysBeforeYear(year) == DaysToMarch(year - 1) + 306
    ensures DaysBeforeYear(year) + 59 + (if IsLeap(year) then 1 else 0) == DaysToMarch(year)
  {
    hide DaysBeforeYear;
    DaysBeforeYearClosedForm(year);
    QuartersOfYear(year);
    LeapStep(year);
    QuartersOfYear(year + 1);
  }

  /** The day number of every date, by the closed form that counts from the first of March. */
  lemma DayNumberClosedForm(year: nat, month: nat, day: nat)
    requires 1 <= month <= 12
    ensures var y := if month <= 2 then year - 1 else year;
            DayNumber(year, month, day) ==
              60 + 365 * y + y / 4 - y / 100 + y / 400 + (153 * ((month + 9) % 12) + 2) / 5 + day - 1
  {
    hide DaysBeforeYear, DaysBeforeMonth;
    YearsToMarch(year);
    if month <= 6 {
      DaysBeforeEarlyMonth(year, month);
    } else {
      DaysBeforeLateMonth(year, month);
    }
  }

  /** The day after a date is a date, with the next number. */
  lemma NextDay(year: nat, month: nat, day: nat)
    requires IsDate(year, month, day)
    ensures IsDate(year, month, day + 1) ==> DayNumber(year, month, day + 1) == DayNumber(year, month, day) + 1
    ensures !IsDate(year, month, day + 1) && month < 12 ==>
              IsDate(year, month + 1, 1) && DayNumber(year, month + 1, 1) == DayNumber(year, month, day) + 1
    ensures !IsDate(year, month, day + 1) && month == 12 ==>
              IsDate(year + 1, 1, 1) && DayNumber(year + 1, 1, 1) == DayNumber(year, month, day) + 1
  {
    TwelveMonthsMakeAYear(year);
  }

  predicate DateLess(y: nat, m: nat, d: nat, y': nat, m': nat, d': nat) {
    y < y' || (y == y' && (m < m' || (m == m' && d < d')))
  }

  /** Dates compare field by field exactly as their day numbers do. */
  lemma DatesAreOrdered(y: nat, m: nat, d: nat, y': nat, m': nat, d': nat)
    requires IsDate(y, m, d) && IsDate(y', m', d') && DateLess(y, m, d, y', m', d')
    ensures DayNumber(y, m, d) < DayNumber(y', m', d')
  {
    if y < y' {
      YearsAreOrdered(y, y');
      TwelveMonthsMakeAYear(y);
      MonthsAreOrdered(y, m, 13);
    } else if m < m' {
      MonthsAreOrdered(y, m, m');
    }
  }
}

/** The contracts' UTC timestamps: their shape, the instant they denote, and the two orders on them. */
module Timestamps {
  import opened Basics
  import opened Text
  import opened Calendar

  predicate DigitsIn(s: string, lo: nat, hi: nat)
    requires lo <= hi <= |s|
  {
    AllDigits(s[lo..hi])
  }

  /** The pattern of #RFC3339UTC: a date, a time, an optional fraction of at least one digit, then Z. */
  predicate Shape(s: string) {
    && |s| >= 20 && s[|s| - 1] == 'Z'
    && DigitsIn(s, 0, 4) && s[4] == '-' && DigitsIn(s, 5, 7) && s[7] == '-' && DigitsIn(s, 8, 10)
    && s[10] == 'T'
    && DigitsIn(s, 11, 13) && s[13] == ':' && DigitsIn(s, 14, 16) && s[16] == ':' && DigitsIn(s, 17, 19)
    && (|s| == 20 || (|s| >= 22 && s[19] == '.' && DigitsIn(s, 20, |s| - 1)))
  }

  function Fraction(s: string): string
    requires Shape(s)
    ensures AllDigits(Fraction(s))
  {
    if |s| == 20 then "" else s[20..|s| - 1]
  }

  function Pow10(n: nat): nat {
    if n == 0 then 1 else 10 * Pow10(n - 1)
  }

  /** Nanoseconds of a fraction: digits past the ninth are dropped. */
  function Nanos(fraction: string): nat
    requires AllDigits(fraction)
  {
    if |fraction| >= 9 then Decimal(fraction[..9]) else Decimal(fraction) * Pow10(9 - |fraction|)
  }

  datatype Moment = Moment(year: nat, month: nat, day: nat, hour: nat, minute: nat, second: nat, nanos: nat) {
    /** The fields name a day of the calendar and a second of that day; 23:59:60 is not one. */
    predicate Exists() {
      IsDate(year, month, day) && hour < 24 && minute < 60 && second < 60
    }

    function Seconds(): int {
      (DayNumber(year, month, day) * 24 + hour) * 3600 + minute * 60 + second
    }

    /** Nanoseconds since 1970-01-01T00:00:00Z. */
    function UnixNanos(): int {
      (Seconds() - UNIX_EPOCH_DAY * 86_400) * 1_000_000_000 + nanos
    }
  }

  const UNIX_EPOCH_DAY := 719_528

  lemma UnixEpochIsZero()
    ensures Moment(1970, 1, 1, 0, 0, 0, 0).UnixNanos() == 0
  {
    hide DaysBeforeYear;
    DaysBeforeYearClosedForm(1970);
  }

  /** The nanoseconds since 1970 of a moment, in closed form. */
  lemma InstantClosedForm(m: Moment)
    requires 1 <= m.month <= 12
    ensures var y := if m.month <= 2 then m.year - 1 else m.year;
            var day := 365 * y + y / 4 - y / 100 + y / 400 + (153 * ((m.month + 9) % 12) + 2) / 5 + m.day - 719_469;
            m.UnixNanos() == (((day * 24 + m.hour) * 60 + m.minute) * 60 + m.second) * 1_000_000_000 + m.nanos
  {
    hide DayNumber;
    DayNumberClosedForm(m.year, m.month, m.day);
  }

  /** The same time of the next day. */
  function Tomorrow(m: Moment): Moment {
    if IsDate(m.year, m.month, m.day + 1) then m.(day := m.day + 1)
    else if m.month < 12 then m.(month := m.month + 1, day := 1)
    else m.(year := m.year + 1, month := 1, day := 1)
  }

  /** A day has 86,400 seconds, an hour 3,600 and a minute 60, at every moment and across every month and year. */
  lemma TimePasses(m: Moment)
    requires m.Exists()
    ensures Tomorrow(m).Exists() && Tomorrow(m).UnixNanos() == m.UnixNanos() + 86_400_000_000_000
    ensures m.hour < 23 ==> var n := m.(hour := m.hour + 1); n.Exists() && n.UnixNanos() == m.UnixNanos() + 3_600_000_000_000
    ensures m.minute < 59 ==> var n := m.(minute := m.minute + 1); n.Exists() && n.UnixNanos() == m.UnixNanos() + 60_000_000_000
    ensures m.second < 59 ==> var n := m.(second := m.second + 1); n.Exists() && n.UnixNanos() == m.UnixNanos() + 1_000_000_000
    ensures m.hour <= 23 && m.minute <= 59 && m.second <= 59
  {
    hide DayNumber;
    NextDay(m.year, m.month, m.day);
  }

  function Read(s: string): Moment
    requires Shape(s)
  {
    Moment(Decimal(s[0..4]), Decimal(s[5..7]), Decimal(s[8..10]),
           Decimal(s[11..13]), Decimal(s[14..16]), Decimal(s[17..19]), Nanos(Fraction(s)))
  }

  function DigitAt(s: string, i: nat): int
    requires i < |s|
  {
    s[i] as int - '0' as int
  }

  lemma TwoDigits(s: string)
    requires AllDigits(s) && |s| == 2
    ensures Decimal(s) == 10 * DigitAt(s, 0) + DigitAt(s, 1)
  {
    assert s[..1][..0] == "" && Decimal(s[..1]) == DigitAt(s, 0);
  }

  lemma FourDigits(s: string)
    requires AllDigits(s) && |s| == 4
    ensures Decimal(s) == 1000 * DigitAt(s, 0) + 100 * DigitAt(s, 1) + 10 * DigitAt(s, 2) + DigitAt(s, 3)
  {
    assert s[..3][..2] == s[..2];
    TwoDigits(s[..2]);
    assert Decimal(s[..3]) == 10 * Decimal(s[..2]) + DigitAt(s, 2);
  }

  /** The fields of a timestamp are where section 5.6 of RFC 3339 has them: year, month, day, hour, minute, second. */
  lemma FieldsByDigits(s: string)
    requires Shape(s)
    ensures Read(s).year == 1000 * DigitAt(s, 0) + 100 * DigitAt(s, 1) + 10 * DigitAt(s, 2) + DigitAt(s, 3)
    ensures Read(s).month == 10 * DigitAt(s, 5) + DigitAt(s, 6) && Read(s).day == 10 * DigitAt(s, 8) + DigitAt(s, 9)
    ensures Read(s).hour == 10 * DigitAt(s, 11) + DigitAt(s, 12) && Read(s).minute == 10 * DigitAt(s, 14) + DigitAt(s, 15)
    ensures Read(s).second == 10 * DigitAt(s, 17) + DigitAt(s, 18)
  {
    FourDigits(s[0..4]);
    TwoDigits(s[5..7]);
    TwoDigits(s[8..10]);
    TwoDigits(s[11..13]);
    TwoDigits(s[14..16]);
    TwoDigits(s[17..19]);
  }

  /** The instant a timestamp denotes, when it denotes one. */
  function Instant(s: string): Option<int> {
    if Shape(s) && Read(s).Exists() then Some(Read(s).UnixNanos()) else None
  }

  /**
   `time.parse_rfc3339_ns`: the instant, unless it does not fit a signed 64-bit integer. Offsets other
   than Z never reach it.
   */
  function ParseNanos(s: string): Option<int> {
    match Instant(s)
    case Some(ns) => if -0x8000_0000_0000_0000 <= ns < 0x8000_0000_0000_0000 then Some(ns) else None
    case None => None
  }

  /** The policy has a number for a timestamp exactly when it exists and fits a signed 64-bit integer. */
  lemma ParseNanosIff(s: string, n: int)
    ensures ParseNanos(s) == Some(n) <==>
            && Shape(s) && Read(s).Exists() && n == Read(s).UnixNanos()
            && -9_223_372_036_854_775_808 <= n <= 9_223_372_036_854_775_807
  {
    hide Shape, Read, Moment.Exists, Moment.UnixNanos;
  }

  /** The `date-time` format: field ranges as in section 5.6 of RFC 3339, with 23:59:60 allowed. */
  predicate DateTimeFormat(s: string)
    requires Shape(s)
  {
    var m := Read(s);
    && IsDate(m.year, m.month, m.day) && m.hour < 24 && m.minute < 60
    && (m.second < 60 || (m.second == 60 && m.hour == 23 && m.minute == 59))
  }

  /** The format admits exactly the moments that exist, and the second after the last one of a day. */
  lemma DateTimeFormatIff(s: string)
    requires Shape(s)
    ensures var m := Read(s);
            DateTimeFormat(s) <==>
              || m.Exists()
              || (m.hour == 23 && m.minute == 59 && m.second == 60 && m.(second := 59).Exists())
  {
    hide Shape, Read, IsDate;
  }

  /** Field by field, the most significant first. */
  predicate MomentLess(a: Moment, b: Moment) {
    if (a.year, a.month, a.day) != (b.year, b.month, b.day) then
      DateLess(a.year, a.month, a.day, b.year, b.month, b.day)
    else if a.hour != b.hour then a.hour < b.hour
    else if a.minute != b.minute then a.minute < b.minute
    else if a.second != b.second then a.second < b.second
    else a.nanos < b.nanos
  }

  /** Comparing moments field by field is comparing the instants. */
  lemma MomentsAreOrdered(a: Moment, b: Moment)
    requires a.Exists() && b.Exists() && MomentLess(a, b)
    requires a.nanos < 1_000_000_000
    ensures a.UnixNanos() < b.UnixNanos()
  {
    if DateLess(a.year, a.month, a.day, b.year, b.month, b.day) {
      DatesAreOrdered(a.year, a.month, a.day, b.year, b.month, b.day);
    }
  }

  lemma SliceOfPrefix(a: string, i: nat, lo: nat, hi: nat)
    requires lo <= hi <= i <= |a|
    ensures a[lo..hi] == a[..i][lo..hi]
  {
    assert forall k | 0 <= k < hi - lo :: a[lo..hi][k] == a[lo + k] == a[..i][lo + k];
  }

  /** A field lying before the first difference of two strings is equal in both. */
  lemma SameField(a: string, b: string, i: nat, lo: nat, hi: nat)
    requires i < |a| && i < |b| && a[..i] == b[..i] && lo <= hi <= i
    ensures a[lo..hi] == b[lo..hi]
  {
    SliceOfPrefix(a, i, lo, hi);
    SliceOfPrefix(b, i, lo, hi);
  }

  /** The field holding the first difference compares as the character there does. */
  lemma FieldOrder(a: string, b: string, i: nat, lo: nat, hi: nat)
    requires i < |a| && i < |b| && a[..i] == b[..i] && lo <= i < hi <= |a| && hi <= |b|
    requires DigitsIn(a, lo, hi) && DigitsIn(b, lo, hi) && a[i] < b[i]
    ensures Decimal(a[lo..hi]) < Decimal(b[lo..hi])
  {
    SameField(a, b, i, lo, i);
    assert a[lo..hi][..i - lo] == a[lo..i] && b[lo..hi][..i - lo] == b[lo..i];
    DecimalOrder(a[lo..hi], b[lo..hi], i - lo);
  }

  lemma {:induction false} DecimalBound(s: string)
    requires AllDigits(s)
    ensures Decimal(s) < Pow10(|s|)
  {
    if s != "" {
      DecimalBound(s[..|s| - 1]);
    }
  }

  lemma {:induction false} Pow10Splits(m: nat, n: nat)
    ensures Pow10(m) * Pow10(n) == Pow10(m + n)
  {
    if m > 0 {
      Pow10Splits(m - 1, n);
    }
  }

  /** A fraction is less than a second. */
  lemma NanosBound(fraction: string)
    requires AllDigits(fraction)
    ensures Nanos(fraction) < 1_000_000_000
  {
    assert Pow10(9) == 1_000_000_000 by {
      assert Pow10(3) == 1000 && Pow10(6) == 1000 * Pow10(3);
    }
    if |fraction| >= 9 {
      DecimalBound(fraction[..9]);
    } else {
      DecimalBound(fraction);
      Pow10Splits(|fraction|, 9 - |fraction|);
      Pow10IsPositive(9 - |fraction|);
      TimesKeepsOrder(Decimal(fraction), Pow10(|fraction|), Pow10(9 - |fraction|));
    }
  }

  lemma Pow10IsPositive(n: nat)
    ensures Pow10(n) >= 1
  {
  }

  /** Fractions of one length, at most nine digits long, compare as their nanoseconds. */
  lemma FractionOrder(a: string, b: string, i: nat)
    requires Shape(a) && Shape(b) && |a| == |b| && 20 <= i < |a| - 1 && |a| <= 30
    requires a[..i] == b[..i] && a[i] < b[i]
    ensures Nanos(Fraction(a)) < Nanos(Fraction(b))
  {
    FieldOrder(a, b, i, 20, |a| - 1);
    var x, y := Fraction(a), Fraction(b);
    if |x| == 9 {
      assert x[..9] == x && y[..9] == y;
    } else {
      Pow10IsPositive(9 - |x|);
      TimesKeepsOrder(Decimal(x), Decimal(y), Pow10(9 - |x|));
    }
  }

  lemma TimesKeepsOrder(x: nat, y: nat, scale: nat)
    requires x < y && scale >= 1
    ensures x * scale < y * scale
  {
  }

  /** On one shape and width, string order is field-by-field order. */
  lemma TextOrderIsFieldOrder(a: string, b: string)
    requires Shape(a) && Shape(b) && |a| == |b| <= 30 && TextLess(a, b)
    ensures MomentLess(Read(a), Read(b))
  {
    TextLessIsTotal(a, b);
    var i := FirstDifference(a, b);
    FirstDifferenceDecides(a, b, i);
    if i < 4 {
      FieldOrder(a, b, i, 0, 4);
    } else {
      SameField(a, b, i, 0, 4);
      if i < 7 {
        FieldOrder(a, b, i, 5, 7);
      } else {
        SameField(a, b, i, 5, 7);
        if i < 10 {
          FieldOrder(a, b, i, 8, 10);
        } else {
          SameField(a, b, i, 8, 10);
          TimeOrder(a, b, i);
        }
      }
    }
  }

  lemma TimeOrder(a: string, b: string, i: nat)
    requires Shape(a) && Shape(b) && |a| == |b| <= 30
    requires 10 < i < |a| && a[..i] == b[..i] && a[i] < b[i]
    requires Read(a).year == Read(b).year && Read(a).month == Read(b).month && Read(a).day == Read(b).day
    ensures MomentLess(Read(a), Read(b))
  {
    if i < 13 {
      FieldOrder(a, b, i, 11, 13);
    } else {
      SameField(a, b, i, 11, 13);
      if i < 16 {
        FieldOrder(a, b, i, 14, 16);
      } else {
        SameField(a, b, i, 14, 16);
        if i < 19 {
          FieldOrder(a, b, i, 17, 19);
        } else {
          SameField(a, b, i, 17, 19);
          FractionOrder(a, b, i);
        }
      }
    }
  }

  predicate Denotes(s: string, width: nat) {
    Shape(s) && |Fraction(s)| == width && Read(s).Exists()
  }

  predicate AtOrAfter(a: string, b: string) {
    !TextLess(a, b)
  }

  /**
   Section 5.1 of RFC 3339: timestamps with the same number of fractional digits, nine at most,
   compare as strings exactly as the instants they denote.
   */
  lemma OrdersAgree(a: string, b: string, width: nat)
    requires width <= 9 && Denotes(a, width) && Denotes(b, width)
    ensures AtOrAfter(a, b) <==> Read(a).UnixNanos() >= Read(b).UnixNanos()
  {
    TextLessIsTotal(a, b);
    NanosBound(Fraction(a));
    NanosBound(Fraction(b));
    if TextLess(a, b) {
      TextOrderIsFieldOrder(a, b);
      MomentsAreOrdered(Read(a), Read(b));
    } else if a != b {
      TextOrderIsFieldOrder(b, a);
      MomentsAreOrdered(Read(b), Read(a));
    }
  }

  /** Every pair of timestamps of these widths compares alike both ways. */
  ghost predicate OrdersAgreeAt(v: nat, w: nat) {
    forall a, b :: Denotes(a, v) && Denotes(b, w) ==>
      && (AtOrAfter(a, b) <==> Read(a).UnixNanos() >= Read(b).UnixNanos())
      && (AtOrAfter(b, a) <==> Read(b).UnixNanos() >= Read(a).UnixNanos())
  }

  /** The start of the year 2000 with a given fraction. */
  function Stamp(fraction: string): string {
    "2000-01-01T00:00:00" + (if fraction == "" then "Z" else "." + fraction + "Z")
  }

  lemma StampNumbers()
    ensures AllDigits("2000") && AllDigits("01") && AllDigits("00")
    ensures Decimal("2000") == 2000 && Decimal("01") == 1 && Decimal("00") == 0
  {
    assert "2000"[..3] == "200" && "200"[..2] == "20" && "20"[..1] == "2" && "2"[..0] == "";
    assert "01"[..1] == "0" && "00"[..1] == "0" && "0"[..0] == "";
  }

  lemma StampDenotes(fraction: string)
    requires AllDigits(fraction)
    ensures Denotes(Stamp(fraction), |fraction|) && Fraction(Stamp(fraction)) == fraction
    ensures Read(Stamp(fraction)) == Moment(2000, 1, 1, 0, 0, 0, Nanos(fraction))
  {
    var s := Stamp(fraction);
    var head := "2000-01-01T00:00:00";
    assert s[..19] == head;
    assert s[0..4] == head[0..4] == "2000" && s[5..7] == head[5..7] == "01" && s[8..10] == head[8..10] == "01";
    assert s[11..13] == head[11..13] == "00" && s[14..16] == head[14..16] == "00" && s[17..19] == head[17..19] == "00";
    StampNumbers();
    if fraction != "" {
      assert s[20..|s| - 1] == fraction;
    }
    assert Fraction(s) == fraction;
  }

  function Zeros(n: nat): (z: string)
    ensures |z| == n && AllDigits(z)
  {
    seq(n, _ => '0')
  }

  lemma {:induction false} DecimalOfZeros(n: nat)
    ensures Decimal(Zeros(n)) == 0
  {
    if n > 0 {
      assert Zeros(n)[..n - 1] == Zeros(n - 1);
      DecimalOfZeros(n - 1);
    }
  }

  /** A fraction that starts with nine zeros, or is all zeros, is zero nanoseconds. */
  lemma NanosOfZeros(fraction: string)
    requires AllDigits(fraction)
    requires fraction == Zeros(|fraction|) || (|fraction| >= 9 && fraction[..9] == Zeros(9))
    ensures Nanos(fraction) == 0
  {
    DecimalOfZeros(|fraction|);
    DecimalOfZeros(9);
    if fraction == Zeros(|fraction|) && |fraction| >= 9 {
      assert fraction[..9] == Zeros(9);
    }
  }

  /** Two different timestamps of one instant: the string order tells them apart, so the orders differ. */
  lemma SameInstantDifferentText(f: string, g: string)
    requires AllDigits(f) && AllDigits(g) && f != g && Nanos(f) == Nanos(g)
    ensures !OrdersAgreeAt(|f|, |g|)
  {
    StampDenotes(f);
    StampDenotes(g);
    var a, b := Stamp(f), Stamp(g);
    TextLessIsTotal(a, b);
  }

  /** Equal widths of at most nine digits are exactly what makes the two orders agree. */
  lemma OrdersAgreeExactlyAt(v: nat, w: nat)
    ensures OrdersAgreeAt(v, w) <==> v == w <= 9
  {
    if v == w <= 9 {
      forall a, b | Denotes(a, v) && Denotes(b, w)
        ensures AtOrAfter(a, b) <==> Read(a).UnixNanos() >= Read(b).UnixNanos()
        ensures AtOrAfter(b, a) <==> Read(b).UnixNanos() >= Read(a).UnixNanos()
      {
        OrdersAgree(a, b, v);
        OrdersAgree(b, a, v);
      }
    } else if v != w {
      NanosOfZeros(Zeros(v));
      NanosOfZeros(Zeros(w));
      SameInstantDifferentText(Zeros(v), Zeros(w));
    } else {
      var g := Zeros(w - 1) + "1";
      assert g[..9] == Zeros(9) && g[w - 1] != Zeros(w)[w - 1];
      NanosOfZeros(Zeros(v));
      NanosOfZeros(g);
      SameInstantDifferentText(Zeros(v), g);
    }
  }
}

/** Exactly when two timestamps of any precision compare as strings otherwise than as instants. */
module TimestampOrder {
  import opened Text
  import opened Timestamps

  predicate SameSecond(a: string, b: string)
    requires Shape(a) && Shape(b)
  {
    a[..19] == b[..19]
  }

  predicate ProperPrefix(f: string, g: string) {
    f < g
  }

  /** Fractions that agree on all the digits an instant keeps, and differ after them. */
  predicate DifferPastNine(f: string, g: string) {
    |f| >= 9 && |g| >= 9 && f[..9] == g[..9] && !(f <= g) && !(g <= f)
  }

  /** The first nine digits of a fraction, filled up with zeros. */
  function Nine(f: string): (n: string)
    requires AllDigits(f)
    ensures |n| == 9 && AllDigits(n)
  {
    if |f| >= 9 then f[..9] else f + Zeros(9 - |f|)
  }

  lemma AppendedZero(f: string, k: nat)
    requires AllDigits(f) && k > 0 && AllDigits(f + Zeros(k - 1))
    ensures AllDigits(f + Zeros(k)) && Decimal(f + Zeros(k)) == 10 * Decimal(f + Zeros(k - 1))
  {
    assert (f + Zeros(k))[..|f| + k - 1] == f + Zeros(k - 1);
  }

  lemma TimesTen(x: nat, k: nat)
    requires k > 0
    ensures x * Pow10(k) == 10 * (x * Pow10(k - 1))
  {
    assert Pow10(k) == 10 * Pow10(k - 1);
  }

  lemma {:induction false} DecimalWithZeros(f: string, k: nat)
    requires AllDigits(f)
    ensures AllDigits(f + Zeros(k)) && Decimal(f + Zeros(k)) == Decimal(f) * Pow10(k)
  {
    if k == 0 {
      assert f + Zeros(0) == f && Pow10(0) == 1;
    } else {
      hide Pow10, Zeros;
      DecimalWithZeros(f, k - 1);
      AppendedZero(f, k);
      TimesTen(Decimal(f), k);
    }
  }

  lemma NanosOfNine(f: string)
    requires AllDigits(f)
    ensures Nanos(f) == Decimal(Nine(f))
  {
    if |f| < 9 {
      DecimalWithZeros(f, 9 - |f|);
    }
  }

  /** An extended fraction denotes no less. */
  lemma NanosOfPrefix(f: string, g: string)
    requires AllDigits(f) && AllDigits(g) && f <= g
    ensures Nanos(f) <= Nanos(g)
  {
    NanosOfNine(f);
    NanosOfNine(g);
    if Nine(f) != Nine(g) {
      var i := FirstDifference(Nine(f), Nine(g));
      assert forall k | 0 <= k < |f| && k < 9 :: Nine(f)[k] == f[k] && Nine(g)[k] == f[k];
      assert Nine(f)[i] == '0';
      DecimalOrder(Nine(f), Nine(g), i);
    }
  }

  /** A difference among the first nine digits decides the instants. */
  lemma NanosByDifference(f: string, g: string, i: nat)
    requires AllDigits(f) && AllDigits(g) && i < 9 && i < |f| && i < |g| && f[..i] == g[..i] && f[i] < g[i]
    ensures Nanos(f) < Nanos(g)
  {
    NanosOfNine(f);
    NanosOfNine(g);
    assert Nine(f)[..i] == f[..i] && Nine(g)[..i] == g[..i];
    DecimalOrder(Nine(f), Nine(g), i);
  }

  /** What follows the seconds. */
  function Tail(f: string): string {
    if f == "" then "Z" else "." + f + "Z"
  }

  lemma TimestampParts(a: string)
    requires Shape(a)
    ensures a == a[..19] + Tail(Fraction(a))
  {
  }

  lemma {:induction false} CommonPrefixOrder(p: string, x: string, y: string)
    ensures TextLess(p + x, p + y) <==> TextLess(x, y)
  {
    if p == "" {
      assert p + x == x && p + y == y;
    } else {
      assert (p + x)[1..] == p[1..] + x && (p + y)[1..] == p[1..] + y;
      CommonPrefixOrder(p[1..], x, y);
    }
  }

  /** A fraction cut short reads as later than the longer one: `Z` sorts after digits and after `.`. */
  lemma ShorterTailIsLater(f: string, g: string)
    requires AllDigits(f) && AllDigits(g) && ProperPrefix(f, g)
    ensures TextLess(Tail(g), Tail(f)) && !TextLess(Tail(f), Tail(g))
  {
    var i := if f == "" then 0 else |f| + 1;
    assert Tail(f)[i] == 'Z' && Tail(g)[..i] == Tail(f)[..i];
    assert f != "" ==> Tail(g)[i] == g[|f|] && IsDigit(g[|f|]);
    FirstDifferenceDecides(Tail(g), Tail(f), i);
    FirstDifferenceDecides(Tail(f), Tail(g), i);
  }

  lemma {:induction false} Divergence(f: string, g: string) returns (i: nat)
    requires !(f <= g) && !(g <= f)
    ensures i < |f| && i < |g| && f[..i] == g[..i] && f[i] != g[i]
  {
    if f[0] != g[0] {
      i := 0;
    } else {
      assert f == [f[0]] + f[1..] && g == [g[0]] + g[1..];
      i := Divergence(f[1..], g[1..]);
      assert f[..i + 1] == [f[0]] + f[1..][..i] && g[..i + 1] == [g[0]] + g[1..][..i];
      i := i + 1;
    }
  }

  lemma DivergingTails(f: string, g: string, i: nat)
    requires AllDigits(f) && AllDigits(g) && i < |f| && i < |g| && f[..i] == g[..i] && f[i] != g[i]
    ensures TextLess(Tail(f), Tail(g)) <==> f[i] < g[i]
    ensures TextLess(f, g) <==> f[i] < g[i]
  {
    assert Tail(f)[..i + 1] == "." + f[..i] && Tail(g)[..i + 1] == "." + g[..i];
    FirstDifferenceDecides(Tail(f), Tail(g), i + 1);
    FirstDifferenceDecides(f, g, i);
  }

  /** A timestamp that is no earlier, but reads as earlier, against one of the same second. */
  predicate Recedes(f: string, g: string) {
    ProperPrefix(g, f) || (DifferPastNine(f, g) && TextLess(f, g))
  }

  lemma DivergingOrder(f: string, g: string)
    requires AllDigits(f) && AllDigits(g) && !(f <= g) && !(g <= f)
    ensures TextLess(Tail(f), Tail(g)) <==> TextLess(f, g)
    ensures DifferPastNine(f, g) ==> Nanos(f) == Nanos(g)
    ensures !DifferPastNine(f, g) ==> (TextLess(f, g) <==> Nanos(f) < Nanos(g)) && Nanos(f) != Nanos(g)
  {
    var i := Divergence(f, g);
    DivergingTails(f, g, i);
    if i < 9 {
      DivergeEarly(f, g, i);
    } else {
      assert f[..9] == f[..i][..9] && g[..9] == g[..i][..9];
    }
  }

  lemma DivergeEarly(f: string, g: string, i: nat)
    requires AllDigits(f) && AllDigits(g) && i < 9 && i < |f| && i < |g| && f[..i] == g[..i] && f[i] != g[i]
    ensures !DifferPastNine(f, g) && (f[i] < g[i] <==> Nanos(f) < Nanos(g)) && Nanos(f) != Nanos(g)
  {
    if |f| >= 9 && |g| >= 9 {
      assert f[..9][i] != g[..9][i];
    }
    if f[i] < g[i] {
      NanosByDifference(f, g, i);
    } else {
      NanosByDifference(g, f, i);
    }
  }

  /** Within one second. */
  lemma TailOrder(f: string, g: string)
    requires AllDigits(f) && AllDigits(g)
    ensures Nanos(f) >= Nanos(g) ==> (TextLess(Tail(f), Tail(g)) <==> Recedes(f, g))
    ensures Nanos(f) < Nanos(g) ==> (!TextLess(Tail(f), Tail(g)) <==> ProperPrefix(f, g))
  {
    hide Tail, Nanos, TextLess;
    if f <= g && g <= f {
      assert f == g;
      TextLessIsTotal(Tail(f), Tail(g));
    } else if f <= g {
      NanosOfPrefix(f, g);
      ShorterTailIsLater(f, g);
    } else if g <= f {
      NanosOfPrefix(g, f);
      ShorterTailIsLater(g, f);
    } else {
      DivergingOrder(f, g);
    }
  }

  lemma SecondsOfTimestamp(a: string)
    requires Shape(a)
    ensures Shape(a[..19] + "Z") && Fraction(a[..19] + "Z") == ""
    ensures Read(a[..19] + "Z") == Read(a).(nanos := 0)
    ensures Nanos(Fraction(a)) < 1_000_000_000
  {
    var s := a[..19] + "Z";
    assert s[0..4] == a[0..4] && s[5..7] == a[5..7] && s[8..10] == a[8..10];
    assert s[11..13] == a[11..13] && s[14..16] == a[14..16] && s[17..19] == a[17..19];
    NanosBound(Fraction(a));
  }

  /** Reading a whole second is comparing its digits: different seconds differ in a field. */
  lemma WholeSecondOrder(x: string, y: string)
    requires Shape(x) && Shape(y) && |x| == |y| == 20
    ensures MomentLess(Read(x), Read(y)) <==> TextLess(x, y)
    ensures x != y ==> MomentLess(Read(x), Read(y)) != MomentLess(Read(y), Read(x))
  {
    TextLessIsTotal(x, y);
    if TextLess(x, y) {
      TextOrderIsFieldOrder(x, y);
    } else if x != y {
      TextOrderIsFieldOrder(y, x);
    }
  }

  lemma WholeSeconds(m: Moment, n: Moment)
    requires MomentLess(m.(nanos := 0), n.(nanos := 0))
    ensures MomentLess(m, n) && !MomentLess(n, m)
  {
  }

  /** In different seconds, strings and moments agree at any precision. */
  lemma AcrossSeconds(a: string, b: string)
    requires Shape(a) && Shape(b) && !SameSecond(a, b)
    ensures TextLess(a, b) <==> MomentLess(Read(a), Read(b))
  {
    var x, y := a[..19] + "Z", b[..19] + "Z";
    SecondsOfTimestamp(a);
    SecondsOfTimestamp(b);
    WholeSecondOrder(x, y);
    WholeSecondOrder(y, x);
    assert x[..19] == a[..19] && y[..19] == b[..19];
    var i := FirstDifference(a[..19], b[..19]);
    assert a[..i] == a[..19][..i] && b[..i] == b[..19][..i] && x[..i] == a[..i] && y[..i] == b[..i];
    FirstDifferenceDecides(a, b, i);
    FirstDifferenceDecides(x, y, i);
    if MomentLess(Read(x), Read(y)) {
      WholeSeconds(Read(a), Read(b));
    } else {
      WholeSeconds(Read(b), Read(a));
    }
  }

  lemma WithinSecond(a: string, b: string)
    requires Shape(a) && Shape(b) && SameSecond(a, b)
    ensures TextLess(a, b) <==> TextLess(Tail(Fraction(a)), Tail(Fraction(b)))
    ensures Read(a) == Read(b).(nanos := Nanos(Fraction(a))) && Read(b).nanos == Nanos(Fraction(b))
  {
    TimestampParts(a);
    TimestampParts(b);
    CommonPrefixOrder(a[..19], Tail(Fraction(a)), Tail(Fraction(b)));
    SecondsOfTimestamp(a);
    SecondsOfTimestamp(b);
  }

  /** What the text order takes for "not before", by seconds and fractions. */
  predicate ReadsAtOrAfter(a: string, b: string)
    requires Shape(a) && Shape(b)
  {
    if MomentLess(Read(a), Read(b)) then SameSecond(a, b) && ProperPrefix(Fraction(a), Fraction(b))
    else !(SameSecond(a, b) && Recedes(Fraction(a), Fraction(b)))
  }

  /**
   For all timestamps, of any precision and leap seconds included: one that is no earlier reads as earlier
   exactly within the same second, when the other fraction is cut shorter or they differ only past the
   ninth digit; one that is earlier reads as no earlier exactly within the same second, when its own
   fraction is cut shorter.
   */
  lemma TextOrderIff(a: string, b: string)
    requires Shape(a) && Shape(b)
    ensures AtOrAfter(a, b) <==> ReadsAtOrAfter(a, b)
  {
    hide Shape, Read, Fraction, Recedes, Tail, Nanos, TextLess;
    if SameSecond(a, b) {
      WithinSecond(a, b);
      TailOrder(Fraction(a), Fraction(b));
    } else {
      AcrossSeconds(a, b);
    }
  }

  lemma MomentLessIsTotal(m: Moment, n: Moment)
    ensures m != n ==> MomentLess(m, n) || MomentLess(n, m)
  {
  }

  /** On instants, moments compare as nanoseconds. */
  lemma MomentsAreInstants(a: string, b: string)
    requires Shape(a) && Shape(b) && Read(a).Exists() && Read(b).Exists()
    ensures MomentLess(Read(a), Read(b)) <==> Read(a).UnixNanos() < Read(b).UnixNanos()
  {
    hide MomentLess, Moment.UnixNanos, Moment.Exists, Shape;
    NanosBound(Fraction(a));
    NanosBound(Fraction(b));
    MomentLessIsTotal(Read(a), Read(b));
    if MomentLess(Read(a), Read(b)) {
      MomentsAreOrdered(Read(a), Read(b));
    } else if MomentLess(Read(b), Read(a)) {
      MomentsAreOrdered(Read(b), Read(a));
    }
  }

  /** The same in nanoseconds, for timestamps that denote instants. */
  lemma InstantOrderIff(a: string, b: string)
    requires Shape(a) && Shape(b) && Read(a).Exists() && Read(b).Exists()
    ensures Read(a).UnixNanos() >= Read(b).UnixNanos() ==>
              (!AtOrAfter(a, b) <==> SameSecond(a, b) && Recedes(Fraction(a), Fraction(b)))
    ensures Read(a).UnixNanos() < Read(b).UnixNanos() ==>
              (AtOrAfter(a, b) <==> SameSecond(a, b) && ProperPrefix(Fraction(a), Fraction(b)))
  {
    TextOrderIff(a, b);
    MomentsAreInstants(a, b);
  }

  /** Up to nine digits, only a fraction cut short misleads the text order. */
  lemma RecedesIffCutShort(f: string, g: string)
    requires |f| <= 9 || |g| <= 9
    ensures Recedes(f, g) <==> ProperPrefix(g, f)
  {
    assert |f| == 9 ==> f[..9] == f;
    assert |g| == 9 ==> g[..9] == g;
  }

  /** In any second, a leap second too: a finish whose fraction continues that of the start reads as earlier. */
  lemma LaterFinishReadsAsEarlier(start: string, finish: string)
    requires Shape(start) && Shape(finish)
    requires SameSecond(finish, start) && ProperPrefix(Fraction(start), Fraction(finish))
    ensures !MomentLess(Read(finish), Read(start)) && !AtOrAfter(finish, start)
    ensures Read(finish).UnixNanos() - Read(start).UnixNanos() == Nanos(Fraction(finish)) - Nanos(Fraction(start)) >= 0
  {
    WithinSecond(finish, start);
    NanosOfPrefix(Fraction(start), Fraction(finish));
    TextOrderIff(finish, start);
  }
}
