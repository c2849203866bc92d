/** The closed-form calendar arithmetic of the timestamp code, refined against
    a day-by-day Gregorian count. The source works on `i64`; the unbounded
    functions come first, and `DaysFromCivil64` then repeats the forward
    direction with every operation wrapped to 64 bits. */
module Calendar {

  // ---- The Gregorian calendar, by definition ----

  predicate Leap(year: int) {
    year % 4 == 0 && (year % 100 != 0 || year % 400 == 0)
  }

  function YearLength(year: int): int {
    if Leap(year) then 366 else 365
  }

  function MonthLength(year: int, month: int): int
    requires 1 <= month <= 12
  {
    if month == 2 then (if Leap(year) then 29 else 28)
    else if month in {4, 6, 9, 11} then 30
    else 31
  }

  /** Days from 1970-01-01 to the first of January, one year at a time. */
  function YearStart(year: int): int
    decreases if year >= 1970 then year - 1970 else 1970 - year
  {
    if year == 1970 then 0
    else if year > 1970 then YearStart(year - 1) + YearLength(year - 1)
    else YearStart(year + 1) - YearLength(year)
  }

  /** Days from the first of January to the first of the month. */
  function MonthStart(year: int, month: int): int
    requires 1 <= month <= 12
  {
    if month == 1 then 0 else MonthStart(year, month - 1) + MonthLength(year, month - 1)
  }

  function DayCount(year: int, month: int, day: int): int
    requires 1 <= month <= 12
  {
    YearStart(year) + MonthStart(year, month) + day - 1
  }

  datatype Date = Date(year: int, month: int, day: int)

  predicate Valid(date: Date) {
    1 <= date.month <= 12 && 1 <= date.day <= MonthLength(date.year, date.month)
  }

  predicate Before(a: Date, b: Date) {
    || a.year < b.year
    || (a.year == b.year && a.month < b.month)
    || (a.year == b.year && a.month == b.month && a.day < b.day)
  }

  // ---- The closed forms ----

  /** Division as the source's integers do it: towards zero. */
  function TruncDiv(a: int, b: int): int
    requires b > 0
  {
    if a >= 0 then a / b else -((-a) / b)
  }

  function DayOfYear(month: int, day: int): int {
    TruncDiv(153 * (month + if month > 2 then -3 else 9) + 2, 5) + day - 1
  }

  function DaysFromCivil(year: int, month: int, day: int): int {
    var y := if month <= 2 then year - 1 else year;
    var era := TruncDiv(if y >= 0 then y else y - 399, 400);
    var yearOfEra := y - era * 400;
    var dayOfEra := yearOfEra * 365 + TruncDiv(yearOfEra, 4) - TruncDiv(yearOfEra, 100) + DayOfYear(month, day);
    era * 146_097 + dayOfEra - 719_468
  }

  function EraOfDay(z: int): int {
    TruncDiv(if z >= 0 then z else z - 146_096, 146_097)
  }

  function YearOfEra(dayOfEra: int): int
    requires 0 <= dayOfEra
  {
    TruncDiv(dayOfEra - dayOfEra / 1460 + dayOfEra / 36_524 - dayOfEra / 146_096, 365)
  }

  function CivilFromDays(days: int): Date {
    var z := days + 719_468;
    var era := EraOfDay(z);
    var dayOfEra := z - era * 146_097;
    EraIsFloor(z);
    CivilInEra(era, dayOfEra)
  }

  function CivilInEra(era: int, dayOfEra: int): Date
    requires 0 <= dayOfEra
  {
    var yearOfEra := YearOfEra(dayOfEra);
    var dayOfYear := dayOfEra - (365 * yearOfEra + TruncDiv(yearOfEra, 4) - TruncDiv(yearOfEra, 100));
    var monthPrime := TruncDiv(5 * dayOfYear + 2, 153);
    var day := dayOfYear - TruncDiv(153 * monthPrime + 2, 5) + 1;
    var month := monthPrime + if monthPrime < 10 then 3 else -9;
    Date(yearOfEra + era * 400 + if month <= 2 then 1 else 0, month, day)
  }

  /** Shifting by one period less a day turns truncation into a floor. */
  lemma EraIsFloor(z: int)
    ensures EraOfDay(z) == z / 146_097
    ensures 0 <= z - EraOfDay(z) * 146_097 < 146_097
  {
    if z < 0 {
      var q, r := z / 146_097, z % 146_097;
      assert -(z - 146_096) == 146_097 * -q + (146_096 - r);
    }
  }

  lemma CenturyIsFloor(y: int)
    ensures TruncDiv(if y >= 0 then y else y - 399, 400) == y / 400
  {
    if y < 0 {
      var q, r := y / 400, y % 400;
      assert -(y - 399) == 400 * -q + (399 - r);
    }
  }

  // ---- The closed form counts days ----

  /** Days before the March-based year `y`, counted from the start of era 0. */
  function MarchYears(y: int): int {
    365 * y + y / 4 - y / 100 + y / 400
  }

  lemma MarchYearStep(y: int)
    ensures MarchYears(y) - MarchYears(y - 1) == YearLength(y)
  {
    FloorStep(y, 4);
    FloorStep(y, 100);
    FloorStep(y, 400);
  }

  lemma FloorStep(y: int, n: int)
    requires n > 1
    ensures y / n - (y - 1) / n == if y % n == 0 then 1 else 0
  {
    var q, r := y / n, y % n;
    assert y == q * n + r;
    if r == 0 {
      assert y - 1 == (q - 1) * n + (n - 1);
      QuotientIs(y - 1, n, q - 1, n - 1);
    } else {
      assert y - 1 == q * n + (r - 1);
      QuotientIs(y - 1, n, q, r - 1);
    }
  }

  lemma QuotientIs(a: int, n: int, q: int, r: int)
    requires n > 0 && 0 <= r < n && a == q * n + r
    ensures a / n == q && a % n == r
  {
    var d := a / n - q;
    assert a == (a / n) * n + a % n;
    assert d * n == r - a % n by { assert d * n == (a / n) * n - q * n; }
    Magnitude(d, n);
  }

  lemma {:induction false} Magnitude(d: int, n: int)
    requires n > 0
    ensures d > 0 ==> d * n >= n
    ensures d < 0 ==> d * n <= -n
    decreases if d >= 0 then d else -d
  {
    if d > 0 {
      assert d * n == (d - 1) * n + n;
      Magnitude(d - 1, n);
    } else if d < 0 {
      assert d * n == (d + 1) * n - n;
      Magnitude(d + 1, n);
    }
  }

  lemma {:induction false} YearStartClosed(year: int)
    ensures YearStart(year) == MarchYears(year - 1) - MarchYears(1969)
    decreases if year >= 1970 then year - 1970 else 1970 - year
  {
    if year > 1970 {
      YearStartClosed(year - 1);
      MarchYearStep(year - 1);
    } else if year < 1970 {
      YearStartClosed(year + 1);
      MarchYearStep(year);
    }
  }

  lemma EraSplit(y: int, e: int, r: int)
    requires 0 <= r < 400 && y == e * 400 + r
    ensures MarchYears(y) == e * 146_097 + r * 365 + r / 4 - r / 100
  {
    QuotientIs(y, 400, e, r);
    QuotientIs(y, 100, e * 4 + r / 100, r % 100);
    QuotientIs(y, 4, e * 100 + r / 4, r % 4);
  }

  /** The month formula against the table of month lengths. */
  lemma MonthOffsets(year: int, month: int)
    requires 1 <= month <= 12
    ensures MonthStart(year, month)
         == if month <= 2 then DayOfYear(month, 1) - 306
            else DayOfYear(month, 1) + YearLength(year) - 306
  {
    if month <= 6 { FirstMonths(year, month); } else { LastMonths(year, month); }
  }

  lemma FirstMonths(year: int, month: int)
    requires 1 <= month <= 6
    ensures MonthStart(year, month)
         == if month <= 2 then DayOfYear(month, 1) - 306
            else DayOfYear(month, 1) + YearLength(year) - 306
  {
    assert MonthStart(year, 2) == 31;
    assert MonthStart(year, 3) == YearLength(year) - 306;
    assert MonthStart(year, 4) == YearLength(year) - 275;
    assert MonthStart(year, 5) == YearLength(year) - 245;
  }

  lemma LastMonths(year: int, month: int)
    requires 7 <= month <= 12
    ensures MonthStart(year, month) == DayOfYear(month, 1) + YearLength(year) - 306
  {
    FirstMonths(year, 6);
    assert MonthStart(year, 7) == YearLength(year) - 184;
    assert MonthStart(year, 8) == YearLength(year) - 153;
    assert MonthStart(year, 9) == YearLength(year) - 122;
    assert MonthStart(year, 10) == YearLength(year) - 92;
    assert MonthStart(year, 11) == YearLength(year) - 61;
  }

  lemma ClosedForm(year: int, month: int, day: int)
    ensures var y := if month <= 2 then year - 1 else year;
            DaysFromCivil(year, month, day) == MarchYears(y) + DayOfYear(month, day) - 719_468
  {
    var y := if month <= 2 then year - 1 else year;
    CenturyIsFloor(y);
    EraSplit(y, y / 400, y % 400);
  }

  /** The closed form is the Gregorian day count, for every year, every month
      and any day number at all. */
  lemma DaysFromCivilCounts(year: int, month: int, day: int)
    requires 1 <= month <= 12
    ensures DaysFromCivil(year, month, day) == DayCount(year, month, day)
  {
    ClosedForm(year, month, day);
    DayCountClosed(year, month, day);
  }

  lemma DayCountClosed(year: int, month: int, day: int)
    requires 1 <= month <= 12
    ensures var y := if month <= 2 then year - 1 else year;
            DayCount(year, month, day) == MarchYears(y) + DayOfYear(month, day) - 719_468
  {
    YearStartClosed(year);
    MonthOffsets(year, month);
    MarchYearStep(year);
    assert MarchYears(1969) == 719_162;
  }

  /** A day past the end of the month is that many days into the next one: the
      thirty-first of February is a day of March. */
  lemma DayPastMonthRollsOver(year: int, month: int, extra: int)
    requires 1 <= month <= 12
    ensures DaysFromCivil(year, month, MonthLength(year, month) + extra)
         == if month == 12 then DaysFromCivil(year + 1, 1, extra) else DaysFromCivil(year, month + 1, extra)
  {
    DaysFromCivilCounts(year, month, MonthLength(year, month) + extra);
    if month == 12 {
      DaysFromCivilCounts(year + 1, 1, extra);
      YearIsItsMonths(year);
      YearFollows(year);
    } else {
      DaysFromCivilCounts(year, month + 1, extra);
    }
  }

  lemma YearIsItsMonths(year: int)
    ensures MonthStart(year, 12) + MonthLength(year, 12) == YearLength(year)
  {
    MonthOffsets(year, 12);
  }

  lemma YearFollows(year: int)
    ensures YearStart(year + 1) == YearStart(year) + YearLength(year)
  {
    if year < 1970 {
      assert YearStart(year) == YearStart(year + 1) - YearLength(year);
    }
  }

  // ---- The inverse ----

  /** What the year-of-era formula finds: the number of whole March-based years
      before a day of the era, and the days left over. */
  predicate SplitsEra(dayOfEra: int, year: int, rest: int) {
    && 0 <= year < 400
    && 0 <= rest <= 365
    && (rest == 365 ==> Leap(year + 1))
    && dayOfEra == 365 * year + year / 4 - year / 100 + rest
  }

  /** Counting by centuries, then four-year cycles, then years. */
  lemma EraDigits(dayOfEra: int) returns (c: int, q: int, n: int, rest: int)
    requires 0 <= dayOfEra < 146_097
    ensures 0 <= c <= 3 && 0 <= q <= 24 && 0 <= n <= 3 && 0 <= rest <= 365
    ensures dayOfEra == 36_524 * c + 1461 * q + 365 * n + rest
    ensures rest == 365 ==> n == 3 && (q == 24 ==> c == 3)
  {
    c := if dayOfEra == 146_096 then 3 else dayOfEra / 36_524;
    var ofCentury := dayOfEra - 36_524 * c;
    q := ofCentury / 1461;
    var ofCycle := ofCentury - 1461 * q;
    n := if ofCycle == 1460 then 3 else ofCycle / 365;
    rest := ofCycle - 365 * n;
  }

  lemma YearDigits(c: int, q: int, n: int)
    requires 0 <= c <= 3 && 0 <= q <= 24 && 0 <= n <= 3
    ensures (100 * c + 4 * q + n) / 4 == 25 * c + q
    ensures (100 * c + 4 * q + n) / 100 == c
    ensures n == 3 && (q == 24 ==> c == 3) ==> Leap(100 * c + 4 * q + n + 1)
  {
  }

  /** The correction terms: a 1460th, a 36524th and a 146096th of the day number
      each over-count by at most one. */
  lemma Corrections(dayOfEra: int, c: int, q: int, n: int, rest: int)
    requires 0 <= c <= 3 && 0 <= q <= 24 && 0 <= n <= 3 && 0 <= rest <= 365
    requires rest == 365 ==> n == 3
    requires dayOfEra == 36_524 * c + 1461 * q + 365 * n + rest < 146_097
    ensures dayOfEra / 1460
         == 25 * c + q + if 24 * c + q + 365 * n + rest >= 1460 then 1 else 0
    ensures dayOfEra / 36_524 - dayOfEra / 146_096 == c || dayOfEra - 36_524 * c >= 36_524
  {
    var r := 24 * c + q + 365 * n + rest;
    assert dayOfEra == 1460 * (25 * c + q) + r;
  }

  lemma YearOfEraSplits(dayOfEra: int) returns (year: int, rest: int)
    requires 0 <= dayOfEra < 146_097
    ensures year == YearOfEra(dayOfEra) && SplitsEra(dayOfEra, year, rest)
  {
    var c, q, n, rem := EraDigits(dayOfEra);
    YearDigits(c, q, n);
    YearOfEraIs(dayOfEra, c, q, n, rem);
    year, rest := 100 * c + 4 * q + n, rem;
  }

  lemma YearOfEraIs(dayOfEra: int, c: int, q: int, n: int, rest: int)
    requires 0 <= c <= 3 && 0 <= q <= 24 && 0 <= n <= 3 && 0 <= rest <= 365
    requires rest == 365 ==> n == 3 && (q == 24 ==> c == 3)
    requires 0 <= dayOfEra == 36_524 * c + 1461 * q + 365 * n + rest < 146_097
    ensures YearOfEra(dayOfEra) == 100 * c + 4 * q + n
  {
    Corrections(dayOfEra, c, q, n, rest);
    var year := 100 * c + 4 * q + n;
    var t := dayOfEra - dayOfEra / 1460 + dayOfEra / 36_524 - dayOfEra / 146_096;
    assert 365 * year <= t < 365 * year + 365;
  }

  /** The month formula, read backwards. */
  lemma MonthDigits(dayOfYear: int)
    requires 0 <= dayOfYear <= 365
    ensures var mp := (5 * dayOfYear + 2) / 153;
            var day := dayOfYear - (153 * mp + 2) / 5 + 1;
            && 0 <= mp <= 11
            && 1 <= day
            && (mp == 11 ==> day == dayOfYear - 336)
            && (mp < 11 ==> day <= MonthLength(1, if mp < 10 then mp + 3 else mp - 9))
  {
    var mp := (5 * dayOfYear + 2) / 153;
    assert 153 * mp <= 5 * dayOfYear + 2 < 153 * mp + 153;
  }

  /** The date `rest` days into March-based year `year` of era `era`. */
  function DateAt(era: int, year: int, rest: int): Date {
    var mp := (5 * rest + 2) / 153;
    var month := if mp < 10 then mp + 3 else mp - 9;
    Date(year + era * 400 + if month <= 2 then 1 else 0, month, rest - (153 * mp + 2) / 5 + 1)
  }

  lemma CivilUnfolds(days: int) returns (era: int, dayOfEra: int)
    ensures days + 719_468 == era * 146_097 + dayOfEra && 0 <= dayOfEra < 146_097
    ensures CivilFromDays(days) == CivilInEra(era, dayOfEra)
  {
    EraIsFloor(days + 719_468);
    era := EraOfDay(days + 719_468);
    dayOfEra := days + 719_468 - era * 146_097;
  }

  lemma CivilSplits(days: int) returns (era: int, year: int, rest: int)
    ensures SplitsEra(days + 719_468 - era * 146_097, year, rest)
    ensures CivilFromDays(days) == DateAt(era, year, rest)
  {
    var dayOfEra;
    era, dayOfEra := CivilUnfolds(days);
    year, rest := YearOfEraSplits(dayOfEra);
    CivilIsDateAt(era, dayOfEra, year, rest);
  }

  lemma CivilIsDateAt(era: int, dayOfEra: int, year: int, rest: int)
    requires 0 <= dayOfEra
    requires SplitsEra(dayOfEra, year, rest) && year == YearOfEra(dayOfEra)
    ensures CivilInEra(era, dayOfEra) == DateAt(era, year, rest)
  {
  }

  lemma DateAtValid(era: int, year: int, rest: int)
    requires 0 <= year < 400 && 0 <= rest <= 365
    requires rest == 365 ==> Leap(year + 1)
    ensures Valid(DateAt(era, year, rest))
  {
    MonthDigits(rest);
    LeapRepeats(year + 1, era);
  }

  /** Every day number, before or after 1970, names a valid date that maps
      back to it. */
  lemma CivilRoundTrip(days: int)
    ensures Valid(CivilFromDays(days))
    ensures var d := CivilFromDays(days); DaysFromCivil(d.year, d.month, d.day) == days
  {
    var era, year, rest := CivilSplits(days);
    DateAtValid(era, year, rest);
    DateAtMapsBack(era, year, rest);
  }

  lemma LeapRepeats(year: int, era: int)
    ensures Leap(year + 400 * era) == Leap(year)
  {
    QuotientIs(year + 400 * era, 400, year / 400 + era, year % 400);
    QuotientIs(year + 400 * era, 100, year / 100 + 4 * era, year % 100);
    QuotientIs(year + 400 * era, 4, year / 4 + 100 * era, year % 4);
  }

  lemma DateAtMapsBack(era: int, year: int, rest: int)
    requires 0 <= year < 400 && 0 <= rest <= 365
    ensures var d := DateAt(era, year, rest);
            DaysFromCivil(d.year, d.month, d.day)
              == era * 146_097 + 365 * year + year / 4 - year / 100 + rest - 719_468
  {
    MonthDigits(rest);
    var d := DateAt(era, year, rest);
    ClosedForm(d.year, d.month, d.day);
    EraSplit(year + era * 400, era, year);
  }

  // ---- Order ----

  lemma MonthsRise(year: int, a: int, b: int)
    requires 1 <= a < b <= 12
    ensures MonthStart(year, a) + MonthLength(year, a) <= MonthStart(year, b)
    decreases b
  {
    if a + 1 < b { MonthsRise(year, a, b - 1); }
  }

  lemma DayInsideYear(date: Date)
    requires Valid(date)
    ensures YearStart(date.year) <= DayCount(date.year, date.month, date.day) < YearStart(date.year + 1)
  {
    YearFollows(date.year);
    YearIsItsMonths(date.year);
    if date.month < 12 { MonthsRise(date.year, date.month, 12); }
    if date.month > 1 { MonthsRise(date.year, 1, date.month); }
  }

  lemma {:induction false} YearsRise(a: int, b: int)
    requires a <= b
    ensures YearStart(a) <= YearStart(b)
    decreases b - a
  {
    if a < b {
      YearFollows(b - 1);
      YearsRise(a, b - 1);
    }
  }

  /** A later date has a larger day number, and only a later date does. */
  lemma DaysFromCivilIsMonotone(a: Date, b: Date)
    requires Valid(a) && Valid(b)
    ensures Before(a, b)
       <==> DaysFromCivil(a.year, a.month, a.day) < DaysFromCivil(b.year, b.month, b.day)
  {
    DaysFromCivilCounts(a.year, a.month, a.day);
    DaysFromCivilCounts(b.year, b.month, b.day);
    if Before(a, b) { CountRises(a, b); } else if a != b { CountRises(b, a); }
  }

  lemma CountRises(a: Date, b: Date)
    requires Valid(a) && Valid(b) && Before(a, b)
    ensures DayCount(a.year, a.month, a.day) < DayCount(b.year, b.month, b.day)
  {
    if a.year < b.year {
      DayInsideYear(a);
      DayInsideYear(b);
      YearsRise(a.year + 1, b.year);
    } else if a.month < b.month {
      MonthsRise(a.year, a.month, b.month);
    }
  }

  /** Every valid date comes back unchanged. */
  lemma DateRoundTrip(date: Date)
    requires Valid(date)
    ensures CivilFromDays(DaysFromCivil(date.year, date.month, date.day)) == date
  {
    var days := DaysFromCivil(date.year, date.month, date.day);
    CivilRoundTrip(days);
    DaysFromCivilIsMonotone(date, CivilFromDays(days));
    DaysFromCivilIsMonotone(CivilFromDays(days), date);
  }

  // ---- Sixty-four bits ----

  const MIN_I64: int := -0x8000_0000_0000_0000
  const MAX_I64: int := 0x7FFF_FFFF_FFFF_FFFF

  predicate Fits(x: int) {
    MIN_I64 <= x <= MAX_I64
  }

  /** Two's-complement reduction, as unchecked `i64` arithmetic does it. */
  function Wrap(x: int): (w: int)
    ensures Fits(w)
    ensures Fits(x) ==> w == x
  {
    (x + 0x8000_0000_0000_0000) % 0x1_0000_0000_0000_0000 - 0x8000_0000_0000_0000
  }

  lemma WrapIsPeriodic(x: int, k: int)
    ensures Wrap(x + k * 0x1_0000_0000_0000_0000) == Wrap(x)
  {
    var n := 0x1_0000_0000_0000_0000;
    var a := x + 0x8000_0000_0000_0000;
    QuotientIs(a + k * n, n, a / n + k, a % n);
  }

  lemma WrapAdds(x: int, y: int)
    ensures Wrap(Wrap(x) + y) == Wrap(x + y)
  {
    var n := 0x1_0000_0000_0000_0000;
    var k := (x + 0x8000_0000_0000_0000) / n;
    assert Wrap(x) == x - k * n;
    WrapIsPeriodic(x + y, -k);
    assert (x + y) + -k * n == Wrap(x) + y;
  }

  function Era64(y: int): int {
    TruncDiv(if y >= 0 then y else Wrap(y - 399), 400)
  }

  function DayOfEra64(yearOfEra: int, ofYear: int): int {
    Wrap(Wrap(Wrap(yearOfEra * 365) + TruncDiv(yearOfEra, 4) - TruncDiv(yearOfEra, 100)) + ofYear)
  }

  function Days64(era: int, dayOfEra: int): int {
    Wrap(Wrap(Wrap(era * 146_097) + dayOfEra) - 719_468)
  }

  /** `days_from_civil` on 64-bit integers. The month and the day have been
      range-checked by the caller, so their own terms stay small. */
  function DaysFromCivil64(year: int, month: int, day: int): int {
    var y := if month <= 2 then Wrap(year - 1) else year;
    var era := Era64(y);
    Days64(era, DayOfEra64(Wrap(y - Wrap(era * 400)), DayOfYear(month, day)))
  }

  /** No intermediate of the computation leaves 64 bits. */
  predicate NoOverflow(year: int, month: int, day: int) {
    var y := if month <= 2 then year - 1 else year;
    var era := TruncDiv(if y >= 0 then y else y - 399, 400);
    && Fits(y) && Fits(y - 399) && Fits(era * 400)
    && YearOfEraFits(y - era * 400, DayOfYear(month, day))
    && SumFits(era, (y - era * 400) * 365 + TruncDiv(y - era * 400, 4) - TruncDiv(y - era * 400, 100)
                    + DayOfYear(month, day))
  }

  predicate YearOfEraFits(yearOfEra: int, ofYear: int) {
    && Fits(yearOfEra) && Fits(yearOfEra * 365)
    && Fits(yearOfEra * 365 + TruncDiv(yearOfEra, 4))
    && Fits(yearOfEra * 365 + TruncDiv(yearOfEra, 4) - TruncDiv(yearOfEra, 100))
    && Fits(yearOfEra * 365 + TruncDiv(yearOfEra, 4) - TruncDiv(yearOfEra, 100) + ofYear)
  }

  predicate SumFits(era: int, dayOfEra: int) {
    Fits(era * 146_097) && Fits(era * 146_097 + dayOfEra) && Fits(era * 146_097 + dayOfEra - 719_468)
  }

  lemma OfYearIsSmall(month: int, day: int)
    requires 1 <= month <= 12 && 1 <= day <= 31
    ensures 0 <= DayOfYear(month, day) <= 367
  {
  }

  /** The last three operations, on an era and a day of that era. */
  lemma WrappedSum(era: int, dayOfEra: int)
    ensures Days64(era, dayOfEra) == Wrap(era * 146_097 + dayOfEra - 719_468)
  {
    WrapAdds(era * 146_097, dayOfEra);
    WrapAdds(era * 146_097 + dayOfEra, -719_468);
  }

  lemma SumFitsExactly(era: int, dayOfEra: int)
    requires -1 <= era <= MAX_I64 / 400 && 0 <= dayOfEra <= 146_500
    ensures SumFits(era, dayOfEra) <==> era * 146_097 + dayOfEra <= MAX_I64
  {
  }

  lemma WrappedYear(y: int) returns (era: int, yearOfEra: int)
    requires -1 <= y <= MAX_I64
    ensures era == Era64(y) == TruncDiv(if y >= 0 then y else y - 399, 400)
    ensures y == era * 400 + yearOfEra && 0 <= yearOfEra < 400 && -1 <= era <= MAX_I64 / 400
    ensures Wrap(y - Wrap(era * 400)) == yearOfEra
    ensures Fits(y) && Fits(y - 399) && Fits(era * 400)
  {
    CenturyIsFloor(y);
    era, yearOfEra := y / 400, y % 400;
  }

  lemma WrappedDay(yearOfEra: int, ofYear: int) returns (dayOfEra: int)
    requires 0 <= yearOfEra < 400 && 0 <= ofYear <= 367
    ensures dayOfEra == yearOfEra * 365 + yearOfEra / 4 - yearOfEra / 100 + ofYear
    ensures dayOfEra == yearOfEra * 365 + TruncDiv(yearOfEra, 4) - TruncDiv(yearOfEra, 100) + ofYear
    ensures 0 <= dayOfEra <= 146_500
    ensures DayOfEra64(yearOfEra, ofYear) == dayOfEra
    ensures YearOfEraFits(yearOfEra, ofYear)
  {
    dayOfEra := yearOfEra * 365 + yearOfEra / 4 - yearOfEra / 100 + ofYear;
  }

  lemma CountInEra(year: int, month: int, day: int, era: int, yearOfEra: int)
    requires 1 <= month <= 12 && 0 <= yearOfEra < 400
    requires (if month <= 2 then year - 1 else year) == era * 400 + yearOfEra
    ensures DayCount(year, month, day)
         == era * 146_097 + (yearOfEra * 365 + yearOfEra / 4 - yearOfEra / 100 + DayOfYear(month, day)) - 719_468
  {
    DayCountClosed(year, month, day);
    EraSplit(era * 400 + yearOfEra, era, yearOfEra);
  }

  lemma WrappedSteps(year: int, month: int, day: int) returns (era: int, dayOfEra: int)
    requires 0 <= year <= MAX_I64 && 1 <= month <= 12 && 1 <= day <= 31
    ensures -1 <= era <= MAX_I64 / 400 && 0 <= dayOfEra <= 146_500
    ensures DaysFromCivil64(year, month, day) == Days64(era, dayOfEra)
    ensures NoOverflow(year, month, day) <==> SumFits(era, dayOfEra)
    ensures DayCount(year, month, day) == era * 146_097 + dayOfEra - 719_468
  {
    OfYearIsSmall(month, day);
    var yearOfEra;
    era, yearOfEra := WrappedYear(if month <= 2 then year - 1 else year);
    dayOfEra := WrappedDay(yearOfEra, DayOfYear(month, day));
    CountInEra(year, month, day, era, yearOfEra);
    StepsUnfold(year, month, day, era, yearOfEra, dayOfEra);
    ChecksUnfold(year, month, day, era, yearOfEra, dayOfEra);
  }

  lemma StepsUnfold(year: int, month: int, day: int, era: int, yearOfEra: int, dayOfEra: int)
    requires var y := if month <= 2 then year - 1 else year;
             Fits(y) && era == Era64(y) && Wrap(y - Wrap(era * 400)) == yearOfEra
    requires dayOfEra == DayOfEra64(yearOfEra, DayOfYear(month, day))
    ensures DaysFromCivil64(year, month, day) == Days64(era, dayOfEra)
  {
  }

  lemma ChecksUnfold(year: int, month: int, day: int, era: int, yearOfEra: int, dayOfEra: int)
    requires var y := if month <= 2 then year - 1 else year;
             && Fits(y) && Fits(y - 399) && Fits(era * 400)
             && era == TruncDiv(if y >= 0 then y else y - 399, 400)
             && yearOfEra == y - era * 400
    requires YearOfEraFits(yearOfEra, DayOfYear(month, day))
    requires dayOfEra == yearOfEra * 365 + TruncDiv(yearOfEra, 4) - TruncDiv(yearOfEra, 100) + DayOfYear(month, day)
    ensures NoOverflow(year, month, day) <==> SumFits(era, dayOfEra)
  {
  }

  /** A parsed year is a non-negative `i64`. For such a year the wrapped
      computation is the wrapped day count, and it is free of overflow exactly
      when the count, taken from the first of March of year 0, fits. */
  lemma WrappedDaysFromCivil(year: int, month: int, day: int)
    requires 0 <= year <= MAX_I64 && 1 <= month <= 12 && 1 <= day <= 31
    ensures DaysFromCivil64(year, month, day) == Wrap(DayCount(year, month, day))
    ensures NoOverflow(year, month, day) <==> DayCount(year, month, day) <= MAX_I64 - 719_468
  {
    WrappedIsCount(year, month, day);
    OverflowIsCount(year, month, day);
  }

  lemma WrappedIsCount(year: int, month: int, day: int)
    requires 0 <= year <= MAX_I64 && 1 <= month <= 12 && 1 <= day <= 31
    ensures DaysFromCivil64(year, month, day) == Wrap(DayCount(year, month, day))
  {
    var era, dayOfEra := WrappedSteps(year, month, day);
    WrappedSum(era, dayOfEra);
  }

  lemma OverflowIsCount(year: int, month: int, day: int)
    requires 0 <= year <= MAX_I64 && 1 <= month <= 12 && 1 <= day <= 31
    ensures NoOverflow(year, month, day) <==> DayCount(year, month, day) <= MAX_I64 - 719_468
  {
    var era, dayOfEra := WrappedSteps(year, month, day);
    SumFitsExactly(era, dayOfEra);
  }

  /** Every year up to ten to the sixteenth is computed without overflow. */
  lemma YearsWithoutOverflow(year: int, month: int, day: int)
    requires 0 <= year <= 10_000_000_000_000_000 && 1 <= month <= 12 && 1 <= day <= 31
    ensures NoOverflow(year, month, day)
  {
    WrappedDaysFromCivil(year, month, day);
    var y := if month <= 2 then year - 1 else year;
    DayCountClosed(year, month, day);
    OfYearIsSmall(month, day);
    assert MarchYears(y) <= 366 * 10_000_000_000_000_000;
  }
}
