/** Stored timestamps: RFC 3339 text with trimmed fractions, and the fixed-width form the queries compare. */
module Timestamps {
  import opened Domain
  import opened Timecalc

  // ---------------------------------------------------------------- calendar

  /** A UTC instant as RFC 3339 section 5.6 writes it. */
  datatype Civil = Civil(year: int, month: int, day: int, hour: int, minute: int, second: int, nanos: int)

  predicate Leap(year: int) { year % 4 == 0 && (year % 100 != 0 || year % 400 == 0) }

  function YearLength(year: int): int { if Leap(year) then 366 else 365 }

  function MonthLength(year: int, month: int): int {
    if month == 2 then if Leap(year) then 29 else 28
    else if month in {4, 6, 9, 11} then 30
    else 31
  }

  predicate Valid(c: Civil) {
    && 0 <= c.year <= 9999 && 1 <= c.month <= 12 && 1 <= c.day <= MonthLength(c.year, c.month)
    && 0 <= c.hour < 24 && 0 <= c.minute < 60 && 0 <= c.second < 60 && 0 <= c.nanos < SECOND
  }

  function DaysBeforeYear(year: nat): int {
    if year == 0 then 0 else DaysBeforeYear(year - 1) + YearLength(year - 1)
  }

  function DaysBeforeMonth(year: int, month: nat): int
    requires 1 <= month
  {
    if month == 1 then 0 else DaysBeforeMonth(year, month - 1) + MonthLength(year, month - 1)
  }

  /** Days from 0000-01-01 to 1970-01-01. */
  const EPOCH_DAY := 719_528

  function UnixSeconds(c: Civil): int
    requires Valid(c)
  {
    (DaysBeforeYear(c.year) + DaysBeforeMonth(c.year, c.month) + c.day - 1 - EPOCH_DAY) * 86_400 + c.hour * 3600
      + c.minute * 60 + c.second
  }

  /** The instant, in nanoseconds since the epoch. */
  function Instant(c: Civil): Time
    requires Valid(c)
  {
    UnixSeconds(c) * SECOND + c.nanos
  }

  lemma QuotientStep(n: int, d: int)
    requires d > 0
    ensures (n + 1) / d == n / d + (if (n + 1) % d == 0 then 1 else 0)
    ensures (n + d) % d == n % d
  {
    DivisionBounds(n, d);
    assert n + d == (n / d + 1) * d + n % d;
    DivisionUnique(n + d, d, n / d + 1, n % d);
    if n % d == d - 1 {
      assert n + 1 == (n / d + 1) * d + 0;
      DivisionUnique(n + 1, d, n / d + 1, 0);
    } else {
      DivisionUnique(n + 1, d, n / d, n % d + 1);
    }
  }

  lemma {:induction false} YearsClosedForm(year: nat)
    ensures DaysBeforeYear(year) == 365 * year + (year + 3) / 4 - (year + 99) / 100 + (year + 399) / 400
    decreases year
  {
    if year > 0 {
      var m := year - 1;
      YearsClosedForm(m);
      QuotientStep(m + 3, 4);
      QuotientStep(m, 4);
      QuotientStep(m + 99, 100);
      QuotientStep(m, 100);
      QuotientStep(m + 399, 400);
      QuotientStep(m, 400);
      FourHundred(m);
    }
  }

  lemma FourHundred(m: int)
    ensures m % 100 == 0 ==> m % 4 == 0
    ensures m % 400 == 0 ==> m % 100 == 0
  {
  }

  lemma FirstMonth(year: int)
    ensures DaysBeforeMonth(year, 1) == 0
  {
  }

  /** The day numbers agree with the Unix epoch and with the calculator's representable seconds. */
  lemma EpochIsRight()
    ensures UnixSeconds(Civil(1970, 1, 1, 0, 0, 0, 0)) == 0
    ensures UnixSeconds(Civil(0, 1, 1, 0, 0, 0, 0)) == FIRST_SECOND
    ensures UnixSeconds(Civil(9999, 12, 31, 23, 59, 59, 0)) == LAST_SECOND
  {
    hide DaysBeforeYear, DaysBeforeMonth;
    YearsClosedForm(0);
    YearsClosedForm(1970);
    YearsClosedForm(9999);
    FirstMonth(0);
    FirstMonth(1970);
    MonthTotals(9999);
  }

  lemma MonthTotals(year: int)
    ensures DaysBeforeMonth(year, 12) + 31 == YearLength(year)
  {
    assert DaysBeforeMonth(year, 2) == 31;
    assert DaysBeforeMonth(year, 3) == 31 + MonthLength(year, 2);
    assert DaysBeforeMonth(year, 4) == DaysBeforeMonth(year, 3) + 31;
    assert DaysBeforeMonth(year, 6) == DaysBeforeMonth(year, 4) + 61;
    assert DaysBeforeMonth(year, 8) == DaysBeforeMonth(year, 6) + 61;
    assert DaysBeforeMonth(year, 10) == DaysBeforeMonth(year, 8) + 61 + 0 + 0;
    assert DaysBeforeMonth(year, 12) == DaysBeforeMonth(year, 10) + 61;
  }

  // ---------------------------------------------------------------- order of instants

  /** Field by field, most significant first. */
  predicate Earlier(a: Civil, b: Civil) {
    if a.year != b.year then a.year < b.year
    else if a.month != b.month then a.month < b.month
    else if a.day != b.day then a.day < b.day
    else if a.hour != b.hour then a.hour < b.hour
    else if a.minute != b.minute then a.minute < b.minute
    else if a.second != b.second then a.second < b.second
    else a.nanos < b.nanos
  }

  lemma {:induction false} YearsIncrease(a: nat, b: nat)
    requires a <= b
    ensures DaysBeforeYear(a) <= DaysBeforeYear(b)
    ensures a < b ==> DaysBeforeYear(a) + YearLength(a) <= DaysBeforeYear(b)
    decreases b
  {
    if a < b { YearsIncrease(a, b - 1); }
  }

  lemma {:induction false} MonthsIncrease(year: int, a: nat, b: nat)
    requires 1 <= a <= b
    ensures DaysBeforeMonth(year, a) <= DaysBeforeMonth(year, b)
    ensures a < b ==> DaysBeforeMonth(year, a) + MonthLength(year, a) <= DaysBeforeMonth(year, b)
    decreases b
  {
    if a < b { MonthsIncrease(year, a, b - 1); }
  }

  function DayOfYear(c: Civil): int
    requires Valid(c)
  {
    DaysBeforeMonth(c.year, c.month) + c.day - 1
  }

  lemma DayWithinYear(c: Civil)
    requires Valid(c)
    ensures 0 <= DayOfYear(c) < YearLength(c.year)
  {
    MonthsIncrease(c.year, 1, c.month);
    MonthsIncrease(c.year, c.month, 12);
    MonthTotals(c.year);
  }

  lemma EarlierDay(a: Civil, b: Civil)
    requires Valid(a) && Valid(b)
    requires a.year < b.year || (a.year == b.year && (a.month < b.month || (a.month == b.month && a.day < b.day)))
    ensures DaysBeforeYear(a.year) + DayOfYear(a) < DaysBeforeYear(b.year) + DayOfYear(b)
  {
    if a.year < b.year {
      DayWithinYear(a);
      DayWithinYear(b);
      YearsIncrease(a.year, b.year);
    } else if a.month < b.month {
      MonthsIncrease(a.year, a.month, b.month);
    }
  }

  lemma EarlierIsSmaller(a: Civil, b: Civil)
    requires Valid(a) && Valid(b) && Earlier(a, b)
    ensures Instant(a) < Instant(b)
  {
    if a.year < b.year || (a.year == b.year && (a.month < b.month || (a.month == b.month && a.day < b.day))) {
      EarlierDay(a, b);
    }
    hide DaysBeforeYear, DaysBeforeMonth;
  }

  /** Comparing the written fields is comparing the instants. */
  lemma EarlierIff(a: Civil, b: Civil)
    requires Valid(a) && Valid(b)
    ensures Earlier(a, b) <==> Instant(a) < Instant(b)
    ensures a == b <==> Instant(a) == Instant(b)
  {
    hide Instant, Valid;
    if Earlier(a, b) {
      EarlierIsSmaller(a, b);
    } else if Earlier(b, a) {
      EarlierIsSmaller(b, a);
    } else {
      assert a == b;
    }
  }

  // ---------------------------------------------------------------- every instant has its date

  function YearOfDay(day: int, bound: nat): (year: nat)
    requires 0 <= day < DaysBeforeYear(bound)
    ensures year < bound && DaysBeforeYear(year) <= day < DaysBeforeYear(year) + YearLength(year)
  {
    if DaysBeforeYear(bound - 1) <= day then bound - 1 else YearOfDay(day, bound - 1)
  }

  function MonthOfDay(year: int, day: int, bound: nat): (month: nat)
    requires 1 <= bound <= 12 && 0 <= day < DaysBeforeMonth(year, bound) + MonthLength(year, bound)
    ensures 1 <= month <= bound
    ensures DaysBeforeMonth(year, month) <= day < DaysBeforeMonth(year, month) + MonthLength(year, month)
  {
    if DaysBeforeMonth(year, bound) <= day then bound else MonthOfDay(year, day, bound - 1)
  }

  lemma AllDays()
    ensures FIRST_SECOND == -EPOCH_DAY * 86_400
    ensures LAST_SECOND + 1 == (DaysBeforeYear(10_000) - EPOCH_DAY) * 86_400
  {
    hide DaysBeforeYear;
    YearsClosedForm(10_000);
  }

  lemma TimeOfDay(rest: int)
    requires 0 <= rest < 86_400
    ensures 0 <= rest / 3600 < 24 && 0 <= rest % 3600 / 60 < 60 && 0 <= rest % 60 < 60
    ensures rest / 3600 * 3600 + rest % 3600 / 60 * 60 + rest % 60 == rest
  {
  }

  /** Days since 0000-01-01. */
  function DayNumber(t: Time): int { (Unix(t) + EPOCH_DAY * 86_400) / 86_400 }

  function SecondOfDay(t: Time): int { (Unix(t) + EPOCH_DAY * 86_400) % 86_400 }

  lemma DayInRange(t: Time)
    requires Representable(t)
    ensures 0 <= DayNumber(t) < DaysBeforeYear(10_000) && 0 <= SecondOfDay(t) < 86_400
    ensures (DayNumber(t) - EPOCH_DAY) * 86_400 + SecondOfDay(t) == Unix(t)
  {
    hide DaysBeforeYear;
    AllDays();
    DivisionBounds(Unix(t) + EPOCH_DAY * 86_400, 86_400);
  }

  /** The date that writes an instant of years 0 to 9999: by EarlierIff, the only one. */
  function DateOf(t: Time): (c: Civil)
    requires Representable(t)
    ensures Valid(c) && Instant(c) == t
  {
    hide DaysBeforeYear, DaysBeforeMonth, MonthLength, YearLength, DayNumber, SecondOfDay;
    DayInRange(t);
    var year := YearOfDay(DayNumber(t), 10_000);
    LastMonth(year);
    var day := DayNumber(t) - DaysBeforeYear(year);
    var month := MonthOfDay(year, day, 12);
    var rest := SecondOfDay(t);
    TimeOfDay(rest);
    DivisionBounds(t, SECOND);
    Civil(year, month, day - DaysBeforeMonth(year, month) + 1, rest / 3600, rest % 3600 / 60, rest % 60, Nanosecond(t))
  }

  lemma LastMonth(year: int)
    ensures DaysBeforeMonth(year, 12) + MonthLength(year, 12) == YearLength(year)
  {
    MonthTotals(year);
    hide DaysBeforeMonth;
  }

  // ---------------------------------------------------------------- text

  function Digit(n: int): char
    requires 0 <= n < 10
  {
    ('0' as int + n) as char
  }

  /** n in decimal, zero-padded to `width` digits. */
  function Digits(n: int, width: nat): (s: string)
    requires 0 <= n
    ensures |s| == width
  {
    if width == 0 then "" else Digits(n / 10, width - 1) + [Digit(n % 10)]
  }

  function TrimZeros(s: string): string {
    if s != "" && s[|s| - 1] == '0' then TrimZeros(s[..|s| - 1]) else s
  }

  function ToMonth(c: Civil): (s: string)
    requires Valid(c)
    ensures |s| == 7
  {
    Digits(c.year, 4) + "-" + Digits(c.month, 2)
  }

  function ToHour(c: Civil): (s: string)
    requires Valid(c)
    ensures |s| == 13
  {
    ToMonth(c) + "-" + Digits(c.day, 2) + "T" + Digits(c.hour, 2)
  }

  function Seconds(c: Civil): (s: string)
    requires Valid(c)
    ensures |s| == 19
  {
    ToHour(c) + ":" + Digits(c.minute, 2) + ":" + Digits(c.second, 2)
  }

  /** timeString: the RFC3339Nano layout drops trailing zeros, and the point with them. */
  function TimeString(c: Civil): string
    requires Valid(c)
  {
    var fraction := TrimZeros(Digits(c.nanos, 9));
    Seconds(c) + (if fraction == "" then "" else "." + fraction) + "Z"
  }

  /** comparisonTimeString: always nine fractional digits. */
  function ComparisonTimeString(c: Civil): string
    requires Valid(c)
  {
    Seconds(c) + "." + Digits(c.nanos, 9) + "Z"
  }

  /** The instant part of an occurrence key. */
  function KeyString(c: Civil): string
    requires Valid(c)
  {
    Seconds(c) + "Z"
  }

  /** SQL substr: positions count from 1, and the range is cut to the string. */
  function Substr(s: string, from: int, count: int): string
    requires from >= 1
  {
    var lo := Min(from - 1, |s|);
    var hi := Min(lo + (if count < 0 then 0 else count), |s|);
    s[lo..hi]
  }

  function TimestampSQL(s: string): string {
    Substr(s, 1, 19) + "."
    + Substr((if Substr(s, 20, 1) == "." then Substr(s, 21, |s| - 21) else "") + "000000000", 1, 9)
    + "Z"
  }

  // ---------------------------------------------------------------- normalisation

  lemma {:induction false} TrimmedPadsBack(s: string)
    ensures |TrimZeros(s)| <= |s| && TrimZeros(s) + Zeros(|s| - |TrimZeros(s)|) == s
    decreases |s|
  {
    if s != "" && s[|s| - 1] == '0' {
      var front := s[..|s| - 1];
      TrimmedPadsBack(front);
      assert TrimZeros(s) + Zeros(|s| - |TrimZeros(s)|) == (TrimZeros(front) + Zeros(|front| - |TrimZeros(front)|))
        + "0";
      assert s == front + "0";
    }
  }

  function Zeros(n: nat): (s: string)
    ensures |s| == n && forall i | 0 <= i < n :: s[i] == '0'
  {
    if n == 0 then "" else Zeros(n - 1) + "0"
  }

  lemma {:induction false} PadFraction(fraction: string, digits: string)
    requires |digits| == 9 && |fraction| <= 9 && fraction + Zeros(9 - |fraction|) == digits
    ensures Substr(fraction + "000000000", 1, 9) == digits
  {
    var padded := fraction + "000000000";
    forall i | 0 <= i < 9 ensures padded[i] == digits[i] {
      assert (fraction + Zeros(9 - |fraction|))[i] == digits[i];
    }
    assert padded[..9] == digits;
  }

  lemma SubstrMiddle(s: string, a: string, b: string, c: string)
    requires s == a + b + c
    ensures Substr(s, |a| + 1, |b|) == b
  {
    assert s[|a|..|a| + |b|] == b;
  }

  /** Whatever the fraction, the query's normalisation of the stored text is the fixed-width text. */
  lemma NormalisedIsFixedWidth(c: Civil)
    requires Valid(c)
    ensures TimestampSQL(TimeString(c)) == ComparisonTimeString(c)
  {
    hide Digits, TrimZeros, Seconds, Substr;
    var head := Seconds(c);
    var digits := Digits(c.nanos, 9);
    var fraction := TrimZeros(digits);
    TrimmedPadsBack(digits);
    PadFraction(fraction, digits);
    var s := TimeString(c);
    if fraction == "" {
      assert s == head + "" + "Z";
      assert s == "" + head + "Z" && s == head + "Z" + "";
      SubstrMiddle(s, "", head, "Z");
      SubstrMiddle(s, head, "Z", "");
      assert "" + "000000000" == fraction + "000000000";
    } else {
      var rest := fraction + "Z";
      assert s == "" + head + ("." + rest) && s == head + "." + rest && s == (head + ".") + fraction + "Z";
      SubstrMiddle(s, "", head, "." + rest);
      SubstrMiddle(s, head, ".", rest);
      SubstrMiddle(s, head + ".", fraction, "Z");
    }
  }

  // ---------------------------------------------------------------- order of text

  /** The byte order databases use for TEXT. */
  predicate Before(a: string, b: string) {
    if b == "" then false
    else if a == "" then true
    else a[0] < b[0] || (a[0] == b[0] && Before(a[1..], b[1..]))
  }

  lemma {:induction false} BeforeConcat(a: string, b: string, x: string, y: string)
    requires |a| == |b|
    ensures Before(a + x, b + y) <==> Before(a, b) || (a == b && Before(x, y))
    decreases |a|
  {
    if a == "" {
      assert a + x == x && b + y == y;
    } else {
      assert (a + x)[0] == a[0] && (b + y)[0] == b[0];
      assert (a + x)[1..] == a[1..] + x && (b + y)[1..] == b[1..] + y;
      BeforeConcat(a[1..], b[1..], x, y);
      assert a == b <==> a[0] == b[0] && a[1..] == b[1..] by {
        assert a == [a[0]] + a[1..] && b == [b[0]] + b[1..];
      }
    }
  }

  lemma BeforeSelf(a: string)
    ensures !Before(a, a)
    decreases |a|
  {
    if a != "" { BeforeSelf(a[1..]); }
  }

  function Pow10(n: nat): int { if n == 0 then 1 else 10 * Pow10(n - 1) }

  lemma SingleBefore(m: int, n: int)
    requires 0 <= m < 10 && 0 <= n < 10
    ensures Before([Digit(m)], [Digit(n)]) <==> m < n
    ensures [Digit(m)] == [Digit(n)] <==> m == n
  {
    assert [Digit(m)][0] == Digit(m) && [Digit(n)][0] == Digit(n);
  }

  /** Zero-padded numbers of one width compare as text the way they compare as numbers. */
  lemma {:induction false} DigitsOrder(m: int, n: int, width: nat)
    requires 0 <= m < Pow10(width) && 0 <= n < Pow10(width)
    ensures Before(Digits(m, width), Digits(n, width)) <==> m < n
    ensures Digits(m, width) == Digits(n, width) <==> m == n
    decreases width
  {
    if width > 0 {
      DigitsOrder(m / 10, n / 10, width - 1);
      SingleBefore(m % 10, n % 10);
      var a, b := Digits(m / 10, width - 1), Digits(n / 10, width - 1);
      BeforeConcat(a, b, [Digit(m % 10)], [Digit(n % 10)]);
      assert Digits(m, width)[..width - 1] == a && Digits(n, width)[..width - 1] == b;
      assert Digits(m, width)[width - 1] == Digit(m % 10) && Digits(n, width)[width - 1] == Digit(n % 10);
    }
  }

  /** One more field after a separator. */
  lemma FieldOrder(p: string, q: string, separator: string, m: int, n: int, width: nat)
    requires |p| == |q| && 0 <= m < Pow10(width) && 0 <= n < Pow10(width)
    ensures Before(p + separator + Digits(m, width), q + separator + Digits(n, width)) <==>
              Before(p, q) || (p == q && m < n)
    ensures p + separator + Digits(m, width) == q + separator + Digits(n, width) <==> p == q && m == n
  {
    DigitsOrder(m, n, width);
    BeforeConcat(p + separator, q + separator, Digits(m, width), Digits(n, width));
    BeforeConcat(p, q, separator, separator);
    BeforeSelf(separator);
    hide Digits, Before;
    assert (p + separator)[..|p|] == p && (q + separator)[..|q|] == q;
    var x, y := p + separator + Digits(m, width), q + separator + Digits(n, width);
    assert x[..|p| + |separator|] == p + separator && y[..|q| + |separator|] == q + separator;
    assert x[|p| + |separator|..] == Digits(m, width) && y[|q| + |separator|..] == Digits(n, width);
  }

  lemma Widths()
    ensures Pow10(2) == 100 && Pow10(4) == 10_000 && Pow10(9) == SECOND
  {
    assert Pow10(3) == 1000 && Pow10(5) == 100_000 && Pow10(7) == 10_000_000;
  }

  lemma MonthOrder(a: Civil, b: Civil)
    requires Valid(a) && Valid(b)
    ensures Before(ToMonth(a), ToMonth(b)) <==> a.year < b.year || (a.year == b.year && a.month < b.month)
    ensures ToMonth(a) == ToMonth(b) <==> a.year == b.year && a.month == b.month
  {
    Widths();
    hide Digits, Pow10, Before;
    DigitsOrder(a.year, b.year, 4);
    FieldOrder(Digits(a.year, 4), Digits(b.year, 4), "-", a.month, b.month, 2);
  }

  lemma HourOrder(a: Civil, b: Civil)
    requires Valid(a) && Valid(b)
    ensures Before(ToHour(a), ToHour(b)) <==>
              Before(ToMonth(a), ToMonth(b)) || (ToMonth(a) == ToMonth(b)
                && (a.day < b.day || (a.day == b.day && a.hour < b.hour)))
    ensures ToHour(a) == ToHour(b) <==> ToMonth(a) == ToMonth(b) && a.day == b.day && a.hour == b.hour
  {
    Widths();
    hide Digits, Pow10, Before, ToMonth;
    FieldOrder(ToMonth(a), ToMonth(b), "-", a.day, b.day, 2);
    FieldOrder(ToMonth(a) + "-" + Digits(a.day, 2), ToMonth(b) + "-" + Digits(b.day, 2), "T", a.hour, b.hour, 2);
  }

  lemma SecondsOrder(a: Civil, b: Civil)
    requires Valid(a) && Valid(b)
    ensures Before(Seconds(a), Seconds(b)) <==>
              Before(ToHour(a), ToHour(b)) || (ToHour(a) == ToHour(b)
                && (a.minute < b.minute || (a.minute == b.minute && a.second < b.second)))
    ensures Seconds(a) == Seconds(b) <==> ToHour(a) == ToHour(b) && a.minute == b.minute && a.second == b.second
  {
    Widths();
    hide Digits, Pow10, Before, ToHour;
    FieldOrder(ToHour(a), ToHour(b), ":", a.minute, b.minute, 2);
    FieldOrder(ToHour(a) + ":" + Digits(a.minute, 2), ToHour(b) + ":" + Digits(b.minute, 2), ":", a.second, b.second,
      2);
  }

  /** The text order of the fixed-width form is the order of its fields. */
  lemma TextOrderIsFieldOrder(a: Civil, b: Civil)
    requires Valid(a) && Valid(b)
    ensures Before(ComparisonTimeString(a), ComparisonTimeString(b)) <==> Earlier(a, b)
  {
    Widths();
    BeforeSelf("Z");
    hide Digits, Pow10, Before, Seconds, ToHour, ToMonth;
    MonthOrder(a, b);
    HourOrder(a, b);
    SecondsOrder(a, b);
    FieldOrder(Seconds(a), Seconds(b), ".", a.nanos, b.nanos, 9);
    BeforeConcat(Seconds(a) + "." + Digits(a.nanos, 9), Seconds(b) + "." + Digits(b.nanos, 9), "Z", "Z");
  }

  /** What the queries compare sorts chronologically: the normalised stored text of one instant precedes that
      of another exactly when the instant is earlier, and coincides exactly when the instants do. */
  lemma StoredTextSortsChronologically(a: Civil, b: Civil)
    requires Valid(a) && Valid(b)
    ensures Before(TimestampSQL(TimeString(a)), TimestampSQL(TimeString(b))) <==> Instant(a) < Instant(b)
    ensures TimestampSQL(TimeString(a)) == TimestampSQL(TimeString(b)) <==> Instant(a) == Instant(b)
  {
    hide TimestampSQL, TimeString, ComparisonTimeString, Instant, Before, Valid;
    NormalisedIsFixedWidth(a);
    NormalisedIsFixedWidth(b);
    TextOrderIsFieldOrder(a, b);
    TextOrderIsFieldOrder(b, a);
    EarlierIff(a, b);
    EarlierIff(b, a);
    BeforeSelf(ComparisonTimeString(a));
  }

  /** The stored text itself does not sort: trimming puts a later instant first. */
  lemma RawTextDoesNotSort()
    ensures
      var whole := Civil(2026, 1, 1, 0, 0, 0, 0);
      var half := whole.(nanos := 500_000_000);
      Instant(whole) < Instant(half) && Before(TimeString(half), TimeString(whole))
  {
    var whole := Civil(2026, 1, 1, 0, 0, 0, 0);
    var half := whole.(nanos := 500_000_000);
    NothingLeft();
    OneDigitLeft();
    var head := Seconds(whole);
    assert Seconds(half) == head;
    assert TimeString(whole) == head + "Z";
    assert TimeString(half) == head + ".5Z";
    BeforeConcat(head, head, ".5Z", "Z");
    BeforeSelf(head);
    assert Before(".5Z", "Z");
    EarlierIff(whole, half);
  }

  lemma NothingLeft()
    ensures TrimZeros(Digits(0, 9)) == ""
  {
    AllZero(9);
    OnlyZerosTrim(9);
  }

  lemma {:induction false} AllZero(width: nat)
    ensures Digits(0, width) == Zeros(width)
  {
    if width > 0 { AllZero(width - 1); }
  }

  lemma {:induction false} OnlyZerosTrim(n: nat)
    ensures TrimZeros(Zeros(n)) == ""
  {
    if n > 0 {
      OnlyZerosTrim(n - 1);
      assert Zeros(n)[..n - 1] == Zeros(n - 1);
    }
  }

  lemma TrimStep(s: string)
    ensures TrimZeros(s + "0") == TrimZeros(s)
  {
    assert (s + "0")[..|s|] == s;
  }

  lemma ShiftDigits(n: nat, width: nat)
    ensures Digits(10 * n, width + 1) == Digits(n, width) + "0"
    ensures TrimZeros(Digits(10 * n, width + 1)) == TrimZeros(Digits(n, width))
  {
    TrimStep(Digits(n, width));
  }

  lemma OneDigitLeft()
    ensures TrimZeros(Digits(500_000_000, 9)) == "5"
  {
    assert Digits(5, 1) == "5" by { assert Digits(0, 0) == ""; }
    ShiftDigits(5, 1);
    ShiftDigits(50, 2);
    ShiftDigits(500, 3);
    ShiftDigits(5_000, 4);
    ShiftDigits(50_000, 5);
    ShiftDigits(500_000, 6);
    ShiftDigits(5_000_000, 7);
    ShiftDigits(50_000_000, 8);
  }

  lemma WholeSecond(c: Civil)
    requires Valid(c)
    ensures
      var whole := c.(nanos := 0);
      Valid(whole) && TimeString(whole) == KeyString(c) && Instant(whole) == UnixSeconds(c) * SECOND
  {
    NothingLeft();
    hide Digits, TrimZeros;
  }

  /** The key text names its second: two instants share it exactly when they fall in the same second. */
  lemma KeyNamesSecond(a: Civil, b: Civil)
    requires Valid(a) && Valid(b)
    ensures KeyString(a) == KeyString(b) <==> UnixSeconds(a) == UnixSeconds(b)
  {
    hide TimeString, KeyString, Digits, Instant, TimestampSQL, UnixSeconds;
    WholeSecond(a);
    WholeSecond(b);
    TextDeterminesFields(a.(nanos := 0), b.(nanos := 0));
    EarlierIff(a.(nanos := 0), b.(nanos := 0));
  }

  lemma TextDeterminesFields(a: Civil, b: Civil)
    requires Valid(a) && Valid(b)
    ensures TimeString(a) == TimeString(b) <==> a == b
  {
    if TimeString(a) == TimeString(b) {
      StoredTextSortsChronologically(a, b);
      EarlierIff(a, b);
    }
    hide TimeString, Instant, Digits;
  }

  // ---------------------------------------------------------------- reading back

  function Value(s: string): int {
    if s == "" then 0 else 10 * Value(s[..|s| - 1]) + (s[|s| - 1] as int - '0' as int)
  }

  lemma {:induction false} ValueOfDigits(n: int, width: nat)
    requires 0 <= n < Pow10(width)
    ensures Value(Digits(n, width)) == n
    decreases width
  {
    if width > 0 {
      ValueOfDigits(n / 10, width - 1);
      assert Digits(n, width)[..width - 1] == Digits(n / 10, width - 1);
    }
  }

  /** mustParseTime on stored text. */
  function ParseTime(s: string): Civil
    requires |s| >= 20
  {
    var fraction := if s[19] == '.' then Substr(s, 21, |s| - 21) else "";
    Civil(Value(s[0..4]), Value(s[5..7]), Value(s[8..10]), Value(s[11..13]), Value(s[14..16]), Value(s[17..19]),
          Value(Substr(fraction + "000000000", 1, 9)))
  }

  lemma FieldsOf(c: Civil)
    requires Valid(c)
    ensures
      var s := Seconds(c);
      && s[0..4] == Digits(c.year, 4) && s[5..7] == Digits(c.month, 2) && s[8..10] == Digits(c.day, 2)
      && s[11..13] == Digits(c.hour, 2) && s[14..16] == Digits(c.minute, 2) && s[17..19] == Digits(c.second, 2)
  {
    hide Digits;
    assert Seconds(c)[..13] == ToHour(c) && ToHour(c)[..7] == ToMonth(c);
    assert Seconds(c)[0..4] == ToMonth(c)[0..4] && Seconds(c)[5..7] == ToMonth(c)[5..7];
    assert Seconds(c)[8..10] == ToHour(c)[8..10] && Seconds(c)[11..13] == ToHour(c)[11..13];
  }

  /** Stored instants read back as they were written, to the nanosecond. */
  lemma ParseInvertsTimeString(c: Civil)
    requires Valid(c)
    ensures |TimeString(c)| >= 20 && ParseTime(TimeString(c)) == c
  {
    Widths();
    hide Digits, TrimZeros, Seconds, Substr, Value, Pow10;
    var head := Seconds(c);
    var digits := Digits(c.nanos, 9);
    var fraction := TrimZeros(digits);
    FieldsOf(c);
    TrimmedPadsBack(digits);
    PadFraction(fraction, digits);
    ValueOfDigits(c.year, 4);
    ValueOfDigits(c.month, 2);
    ValueOfDigits(c.day, 2);
    ValueOfDigits(c.hour, 2);
    ValueOfDigits(c.minute, 2);
    ValueOfDigits(c.second, 2);
    ValueOfDigits(c.nanos, 9);
    var s := TimeString(c);
    assert s[..19] == head;
    assert forall i, j | 0 <= i <= j <= 19 :: s[i..j] == head[i..j];
    if fraction != "" {
      assert s == (head + ".") + fraction + "Z";
      SubstrMiddle(s, head + ".", fraction, "Z");
    } else {
      assert s == head + "Z";
      assert "" + "000000000" == fraction + "000000000";
    }
  }
}
