/** The UTC timestamp text: the printer, the parser, and what they do to one
    another. Text is `seq<char>`; the source's byte tests are all about ASCII. */
module Timestamp {
  import opened Calendar
  import opened Decimals
  import opened Search
  import opened Wrappers

  datatype Error = NotUtc | NotShaped | BadDate | BadTime | Overflowed

  // ---- Splitting ----

  lemma SplitThree(a: string, b: string, d: string, c: char)
    requires c !in a && c !in b && c !in d
    ensures Split(a + [c] + b + [c] + d, c) == [a, b, d]
  {
    assert a + [c] + b + [c] + d == a + [c] + (b + [c] + d);
    SplitStep(a, c, b + [c] + d);
    SplitStep(b, c, d);
    IndexOfNone(d, c);
    assert [a] + ([b] + [d]) == [a, b, d];
  }

  lemma JoinTwo(s: string, c: char)
    requires |Split(s, c)| == 2
    ensures s == Split(s, c)[0] + [c] + Split(s, c)[1]
  {
    var last := SplitCut(s, c);
    SplitWhole(last, c);
    assert Split(s, c)[1..][0] == last;
  }

  lemma JoinThree(s: string, c: char)
    requires |Split(s, c)| == 3
    ensures var p := Split(s, c); s == p[0] + [c] + p[1] + [c] + p[2]
  {
    var p := Split(s, c);
    var rest := SplitCut(s, c);
    JoinTwo(rest, c);
    JoinAssociates(p[0], [c], p[1..][0], p[1..][1]);
  }

  lemma JoinAssociates(a: string, c: string, b: string, d: string)
    ensures a + c + (b + c + d) == a + c + b + c + d
  {
  }

  // ---- The parser ----

  /** `next_number`: the k-th part must be there, be all digits and fit `i64`. */
  function NumberAt(parts: seq<string>, k: nat, error: Error): (r: Result<int, Error>)
    ensures r.Ok? <==> k < |parts| && parts[k] != [] && AllDigits(parts[k]) && Value(parts[k]) <= MAX_I64
    ensures r.Ok? ==> 0 <= r.value == Value(parts[k])
    ensures r.Err? ==> r.error == error
  {
    if k >= |parts| || parts[k] == [] || !AllDigits(parts[k]) then Err(error)
    else
      ValueIsNatural(parts[k]);
      if Value(parts[k]) > MAX_I64 then Err(error) else Ok(Value(parts[k]))
  }

  datatype Triple = Triple(first: int, second: int, third: int)

  /** Three calls of `next_number` in a row. */
  function ThreeNumbers(parts: seq<string>, error: Error): (r: Result<Triple, Error>)
    ensures r.Ok? <==> forall k :: 0 <= k < 3 ==> NumberAt(parts, k, error).Ok?
    ensures r.Ok? ==> |parts| >= 3 && r.value == Triple(Value(parts[0]), Value(parts[1]), Value(parts[2]))
    ensures r.Err? ==> r.error == error
  {
    var first :- NumberAt(parts, 0, error);
    var second :- NumberAt(parts, 1, error);
    var third :- NumberAt(parts, 2, error);
    Ok(Triple(first, second, third))
  }

  function DateFrom(parts: seq<string>): Result<Triple, Error> {
    var t :- ThreeNumbers(parts, BadDate);
    if |parts| > 3 || !(1 <= t.second <= 12) || !(1 <= t.third <= 31) then Err(BadDate) else Ok(t)
  }

  function TimeFrom(parts: seq<string>): Result<Triple, Error> {
    var t :- ThreeNumbers(parts, BadTime);
    if |parts| > 3 || !(0 <= t.first <= 23) || !(0 <= t.second <= 59) || !(0 <= t.third <= 60) then Err(BadTime)
    else Ok(t)
  }

  function ParseDate(date: string): Result<Triple, Error> {
    DateFrom(Split(date, '-'))
  }

  function ParseTime(time: string): Result<Triple, Error> {
    TimeFrom(Split(time[..IndexOf(time, '.')], ':'))
  }

  function Checked(x: int): Result<int, Error> {
    if Fits(x) then Ok(x) else Err(Overflowed)
  }

  /** The checked chain at the end of the parser. */
  function Chain(days: int, ofDay: int): Result<int, Error> {
    var daySeconds :- Checked(days * 86_400);
    var seconds :- Checked(daySeconds + ofDay);
    Checked(seconds * 1_000)
  }

  function StripUtc(text: string): Result<string, Error> {
    if |text| >= 1 && text[|text| - 1..] == "Z" then Ok(text[..|text| - 1])
    else if |text| >= 6 && text[|text| - 6..] == "+00:00" then Ok(text[..|text| - 6])
    else Err(NotUtc)
  }

  function At(date: Triple, time: Triple): Result<int, Error> {
    Chain(DaysFromCivil64(date.first, date.second, date.third),
          time.first * 3_600 + time.second * 60 + time.third)
  }

  function ParseBody(date: string, time: string): Result<int, Error> {
    var d :- ParseDate(date);
    var t :- ParseTime(time);
    At(d, t)
  }

  function Parse(text: string): Result<int, Error> {
    var body :- StripUtc(text);
    var i := IndexOf(body, 'T');
    if i == |body| then Err(NotShaped) else ParseBody(body[..i], body[i + 1..])
  }

  // ---- The printer ----

  function TimeText(hours: int, minutes: int, seconds: int): string {
    Padded(hours, 2) + ":" + Padded(minutes, 2) + ":" + Padded(seconds, 2)
  }

  function DateText(date: Date): string {
    Padded(date.year, 4) + "-" + Padded(date.month, 2) + "-" + Padded(date.day, 2)
  }

  function Format(ms: int): string {
    var ofDay := ms % 86_400_000;
    DateText(CivilFromDays(ms / 86_400_000)) + "T"
      + TimeText(ofDay / 3_600_000, (ofDay / 60_000) % 60, (ofDay / 1_000) % 60) + "Z"
  }

  // ---- What the chain computes ----

  /** The instant a date and a time of day name, in milliseconds. */
  function Instant(year: int, month: int, day: int, ofDay: int): int
    requires 1 <= month <= 12
  {
    (DayCount(year, month, day) * 86_400 + ofDay) * 1_000
  }

  /** Checking each step is the same as checking the answer. */
  lemma ChainIsExact(days: int, ofDay: int)
    requires 0 <= ofDay <= 86_400
    ensures Chain(days, ofDay) == Checked((days * 86_400 + ofDay) * 1_000)
  {
  }

  /** A date that overflows the unchecked day arithmetic comes out wrong exactly
      when the wrapped day number is one whose milliseconds fit; every other
      date gets the true instant, or the overflow error exactly when the true
      instant does not fit. */
  lemma ParsedInstant(year: int, month: int, day: int, ofDay: int)
    requires 0 <= year <= MAX_I64 && 1 <= month <= 12 && 1 <= day <= 31 && 0 <= ofDay <= 86_400
    ensures Chain(DaysFromCivil64(year, month, day), ofDay) == Checked(Instant(year, month, day, ofDay))
       <==> || DayCount(year, month, day) <= MAX_I64
            || !Fits((Wrap(DayCount(year, month, day)) * 86_400 + ofDay) * 1_000)
  {
    ChainWraps(year, month, day, ofDay);
    CountFromZero(year, month, day);
    ChainOfWrapped(DayCount(year, month, day), ofDay);
  }

  lemma ChainWraps(year: int, month: int, day: int, ofDay: int)
    requires 0 <= year <= MAX_I64 && 1 <= month <= 12 && 1 <= day <= 31
    ensures Chain(DaysFromCivil64(year, month, day), ofDay) == Chain(Wrap(DayCount(year, month, day)), ofDay)
  {
    WrappedDaysFromCivil(year, month, day);
  }

  lemma ChainOfWrapped(count: int, ofDay: int)
    requires count >= -719_528 && 0 <= ofDay <= 86_400
    ensures Chain(Wrap(count), ofDay) == Checked((count * 86_400 + ofDay) * 1_000)
       <==> count <= MAX_I64 || !Fits((Wrap(count) * 86_400 + ofDay) * 1_000)
  {
    ChainIsExact(Wrap(count), ofDay);
    if count > MAX_I64 {
      assert !Fits((count * 86_400 + ofDay) * 1_000);
    }
  }

  lemma CountFromZero(year: int, month: int, day: int)
    requires 0 <= year && 1 <= month <= 12 && 1 <= day
    ensures DayCount(year, month, day) >= -719_528
  {
    DayCountClosed(year, month, day);
    OfYearIsPositive(month, day);
    MarchYearsFrom(if month <= 2 then year - 1 else year);
  }

  lemma OfYearIsPositive(month: int, day: int)
    requires 1 <= month <= 12 && 1 <= day
    ensures DayOfYear(month, day) >= 0
    ensures month <= 2 ==> DayOfYear(month, day) >= 306
  {
  }

  lemma MarchYearsFrom(y: int)
    requires y >= -1
    ensures MarchYears(y) >= if y == -1 then -366 else 0
  {
  }

  lemma YearsThatParse(year: int, month: int, day: int, ofDay: int)
    requires 0 <= year <= 10_000_000_000_000_000 && 1 <= month <= 12 && 1 <= day <= 31 && 0 <= ofDay <= 86_400
    ensures Chain(DaysFromCivil64(year, month, day), ofDay) == Checked(Instant(year, month, day, ofDay))
  {
    YearsWithoutOverflow(year, month, day);
    WrappedDaysFromCivil(year, month, day);
    ParsedInstant(year, month, day, ofDay);
  }

  /** A year that fits `i64` and still goes wrong: it is taken for the ninth of
      November 2022. */
  lemma YearTakenForAnother()
    ensures DaysFromCivil64(50_505_469_855_535_132, 1, 1) == DayCount(2022, 11, 9)
    ensures Chain(DaysFromCivil64(50_505_469_855_535_132, 1, 1), 0).Ok?
    ensures !Fits(Instant(50_505_469_855_535_132, 1, 1, 0))
  {
    WrappedDaysFromCivil(50_505_469_855_535_132, 1, 1);
    FarAwayDays();
    DayCountClosed(2022, 11, 9);
    ChainIsExact(19_305, 0);
  }

  lemma FarAwayDays()
    ensures DayCount(50_505_469_855_535_132, 1, 1) == 0x1_0000_0000_0000_0000 + 19_305
    ensures Wrap(DayCount(50_505_469_855_535_132, 1, 1)) == 19_305
  {
    CountInEra(50_505_469_855_535_132, 1, 1, 126_263_674_638_837, 331);
  }

  // ---- The language the parser accepts ----

  /** The six numbers of a timestamp as they are spelled, and what follows the
      decimal point when there is one. */
  datatype Spelling = Spelling(
    year: string, month: string, day: string,
    hour: string, minute: string, second: string,
    fraction: string, zone: string)

  predicate Number(s: string, low: int, high: int) {
    s != [] && AllDigits(s) && low <= Value(s) <= high
  }

  predicate DateSpelled(s: Spelling) {
    Number(s.year, 0, MAX_I64) && Number(s.month, 1, 12) && Number(s.day, 1, 31)
  }

  predicate TimeSpelled(s: Spelling) {
    Number(s.hour, 0, 23) && Number(s.minute, 0, 59) && Number(s.second, 0, 60)
  }

  predicate WellSpelled(s: Spelling) {
    && DateSpelled(s)
    && TimeSpelled(s)
    && (s.fraction == "" || s.fraction[0] == '.')
    && s.zone in {"Z", "+00:00"}
  }

  function DateOf(s: Spelling): string {
    s.year + "-" + s.month + "-" + s.day
  }

  function ClockOf(s: Spelling): string {
    s.hour + ":" + s.minute + ":" + s.second
  }

  function Text(s: Spelling): string {
    DateOf(s) + "T" + (ClockOf(s) + s.fraction) + s.zone
  }

  function InstantOf(s: Spelling): Result<int, Error> {
    At(Triple(Value(s.year), Value(s.month), Value(s.day)),
       Triple(Value(s.hour), Value(s.minute), Value(s.second)))
  }

  lemma DateReads(s: Spelling)
    requires WellSpelled(s)
    ensures ParseDate(DateOf(s)) == Ok(Triple(Value(s.year), Value(s.month), Value(s.day)))
  {
    SplitThree(s.year, s.month, s.day, '-');
    DateOfParts(s.year, s.month, s.day);
  }

  lemma DateOfParts(year: string, month: string, day: string)
    requires Number(year, 0, MAX_I64) && Number(month, 1, 12) && Number(day, 1, 31)
    ensures DateFrom([year, month, day]) == Ok(Triple(Value(year), Value(month), Value(day)))
  {
  }

  lemma TimeOfParts(hour: string, minute: string, second: string)
    requires Number(hour, 0, 23) && Number(minute, 0, 59) && Number(second, 0, 60)
    ensures TimeFrom([hour, minute, second]) == Ok(Triple(Value(hour), Value(minute), Value(second)))
  {
  }

  lemma TimeReads(s: Spelling)
    requires WellSpelled(s)
    ensures ParseTime(ClockOf(s) + s.fraction) == Ok(Triple(Value(s.hour), Value(s.minute), Value(s.second)))
  {
    WholeSeconds(s);
    SplitThree(s.hour, s.minute, s.second, ':');
    TimeOfParts(s.hour, s.minute, s.second);
  }

  lemma WholeSeconds(s: Spelling)
    requires WellSpelled(s)
    ensures var time := ClockOf(s) + s.fraction; time[..IndexOf(time, '.')] == ClockOf(s)
  {
    var clock := ClockOf(s);
    assert '.' !in clock;
    if s.fraction == "" {
      assert clock + s.fraction == clock;
      IndexOfNone(clock, '.');
    } else {
      assert clock + s.fraction == clock + ['.'] + s.fraction[1..];
      IndexOfFirst(clock, '.', s.fraction[1..]);
    }
  }

  lemma ZoneStrips(body: string, zone: string)
    requires zone in {"Z", "+00:00"}
    ensures StripUtc(body + zone) == Ok(body)
  {
    var text := body + zone;
    assert text[|body|..] == zone && text[..|body|] == body;
    if zone == "+00:00" {
      assert text[|text| - 1..] == "0";
    }
  }

  lemma BodySplits(date: string, time: string, zone: string)
    requires 'T' !in date && zone in {"Z", "+00:00"}
    ensures Parse(date + "T" + time + zone) == ParseBody(date, time)
  {
    var body := date + ['T'] + time;
    ZoneStrips(body, zone);
    IndexOfFirst(date, 'T', time);
    assert body[..|date|] == date && body[|date| + 1..] == time;
  }

  /** Every well-spelled timestamp is read as the instant of its numbers; what
      follows a decimal point is ignored, whatever it is. */
  lemma WellSpelledParses(s: Spelling)
    requires WellSpelled(s)
    ensures Parse(Text(s)) == InstantOf(s)
  {
    BodySplits(DateOf(s), ClockOf(s) + s.fraction, s.zone);
    DateReads(s);
    TimeReads(s);
  }

  /** Midnight of the first of January of a year far away. */
  function FarAway(): Spelling {
    Spelling(Padded(50_505_469_855_535_132, 4), Padded(1, 2), Padded(1, 2), Padded(0, 2), Padded(0, 2), Padded(0, 2),
             "", "Z")
  }

  lemma FarAwaySpells()
    ensures WellSpelled(FarAway())
    ensures InstantOf(FarAway()) == Chain(DaysFromCivil64(50_505_469_855_535_132, 1, 1), 0)
  {
    PaddedReads(50_505_469_855_535_132, 4);
    PaddedReads(1, 2);
    PaddedReads(0, 2);
    Assembled(FarAway(), Date(50_505_469_855_535_132, 1, 1), 0);
  }

  /** A well-spelled text whose instant does not fit `i64`, and which the parser
      accepts as midnight of the ninth of November 2022. */
  lemma TextTakenForAnother()
    ensures WellSpelled(FarAway()) && !Fits(Instant(50_505_469_855_535_132, 1, 1, 0))
    ensures Parse(Text(FarAway())) == Ok(Instant(2022, 11, 9, 0))
  {
    FarAwaySpells();
    WellSpelledParses(FarAway());
    FarAwayChain();
    YearTakenForAnother();
  }

  lemma FarAwayChain()
    ensures Chain(DaysFromCivil64(50_505_469_855_535_132, 1, 1), 0) == Ok(Instant(2022, 11, 9, 0))
  {
    YearTakenForAnother();
    ChainIsExact(DayCount(2022, 11, 9), 0);
    DayCountClosed(2022, 11, 9);
  }

  lemma DateSpells(date: string) returns (year: string, month: string, day: string)
    requires ParseDate(date).Ok?
    ensures Number(year, 0, MAX_I64) && Number(month, 1, 12) && Number(day, 1, 31)
    ensures date == year + "-" + month + "-" + day
  {
    JoinThree(date, '-');
    var parts := Split(date, '-');
    year, month, day := parts[0], parts[1], parts[2];
  }

  lemma TimeSpells(time: string) returns (hour: string, minute: string, second: string, fraction: string)
    requires ParseTime(time).Ok?
    ensures Number(hour, 0, 23) && Number(minute, 0, 59) && Number(second, 0, 60)
    ensures fraction == "" || fraction[0] == '.'
    ensures time == hour + ":" + minute + ":" + second + fraction
  {
    var i := IndexOf(time, '.');
    JoinThree(time[..i], ':');
    var parts := Split(time[..i], ':');
    hour, minute, second, fraction := parts[0], parts[1], parts[2], time[i..];
    assert time == time[..i] + time[i..];
  }

  lemma ZoneSplits(text: string) returns (zone: string)
    requires StripUtc(text).Ok?
    ensures zone in {"Z", "+00:00"} && text == StripUtc(text).value + zone
  {
    zone := text[|StripUtc(text).value|..];
  }

  lemma BodyParts(body: string) returns (date: string, time: string)
    requires IndexOf(body, 'T') < |body|
    ensures date == body[..IndexOf(body, 'T')] && time == body[IndexOf(body, 'T') + 1..]
    ensures body == date + "T" + time
  {
    date, time := body[..IndexOf(body, 'T')], body[IndexOf(body, 'T') + 1..];
  }

  lemma TextSplits(text: string) returns (date: string, time: string, zone: string)
    requires Parse(text).Ok? || Parse(text).error == Overflowed
    ensures ParseBody(date, time) == Parse(text)
    ensures zone in {"Z", "+00:00"} && text == date + "T" + time + zone
  {
    zone := ZoneSplits(text);
    date, time := BodyParts(StripUtc(text).value);
  }

  lemma BodyReads(date: string, time: string)
    requires ParseBody(date, time).Ok? || ParseBody(date, time).error == Overflowed
    ensures ParseDate(date).Ok? && ParseTime(time).Ok?
  {
  }

  /** The parser accepts nothing else: a text that does not fail on its shape is
      a well-spelled timestamp. */
  lemma ParsedIsWellSpelled(text: string) returns (s: Spelling)
    requires Parse(text).Ok? || Parse(text).error == Overflowed
    ensures WellSpelled(s) && Text(s) == text
  {
    var date, time, zone := TextSplits(text);
    BodyReads(date, time);
    var year, month, day := DateSpells(date);
    var hour, minute, second, fraction := TimeSpells(time);
    s := Spelling(year, month, day, hour, minute, second, fraction, zone);
    assert DateOf(s) == date;
    assert ClockOf(s) + s.fraction == time;
  }

  // ---- There and back ----

  /** What the printer writes, as a spelling, for years that have no sign. */
  function Spelled(ms: int): Spelling {
    var date := CivilFromDays(ms / 86_400_000);
    var ofDay := ms % 86_400_000;
    Spelling(Padded(date.year, 4), Padded(date.month, 2), Padded(date.day, 2),
             Padded(ofDay / 3_600_000, 2), Padded((ofDay / 60_000) % 60, 2), Padded((ofDay / 1_000) % 60, 2),
             "", "Z")
  }

  lemma FormatIsSpelled(ms: int)
    ensures Format(ms) == Text(Spelled(ms))
  {
    var s := Spelled(ms);
    assert Format(ms) == DateOf(s) + "T" + ClockOf(s) + "Z";
    assert ClockOf(s) + s.fraction == ClockOf(s);
    assert DateOf(s) + "T" + ClockOf(s) == DateOf(s) + "T" + (ClockOf(s) + s.fraction);
  }

  lemma DateIsSpelled(ms: int)
    requires Fits(ms) && CivilFromDays(ms / 86_400_000).year >= 0
    ensures var s, date := Spelled(ms), CivilFromDays(ms / 86_400_000);
            && DateSpelled(s)
            && Value(s.year) == date.year && Value(s.month) == date.month && Value(s.day) == date.day
            && date.year <= 1_000_000_000
  {
    var date := CivilFromDays(ms / 86_400_000);
    CivilRoundTrip(ms / 86_400_000);
    PaddedReads(date.year, 4);
    PaddedReads(date.month, 2);
    PaddedReads(date.day, 2);
    YearIsSmall(date, ms / 86_400_000);
  }

  lemma YearIsSmall(date: Date, days: int)
    requires Valid(date) && DaysFromCivil(date.year, date.month, date.day) == days <= 200_000_000_000
    ensures date.year <= 1_000_000_000
  {
    ClosedForm(date.year, date.month, date.day);
    var y := if date.month <= 2 then date.year - 1 else date.year;
    assert DayOfYear(date.month, date.day) >= 0;
    assert y >= 0 ==> MarchYears(y) >= 365 * y;
  }

  lemma TimeIsSpelled(ms: int)
    ensures var s, ofDay := Spelled(ms), ms % 86_400_000;
            && TimeSpelled(s)
            && Value(s.hour) * 3_600 + Value(s.minute) * 60 + Value(s.second) == ofDay / 1_000
  {
    var ofDay := ms % 86_400_000;
    PaddedReads(ofDay / 3_600_000, 2);
    PaddedReads((ofDay / 60_000) % 60, 2);
    PaddedReads((ofDay / 1_000) % 60, 2);
    ClockDigits(ofDay);
  }

  lemma ClockDigits(ofDay: int)
    requires 0 <= ofDay < 86_400_000
    ensures ofDay / 3_600_000 < 24
    ensures ofDay / 3_600_000 * 3_600 + (ofDay / 60_000) % 60 * 60 + (ofDay / 1_000) % 60 == ofDay / 1_000
  {
    var seconds := ofDay / 1_000;
    assert ofDay / 60_000 == seconds / 60;
    assert ofDay / 3_600_000 == seconds / 60 / 60;
  }

  function RoundedDown(ms: int): int {
    ms - ms % 1_000
  }

  /** Parsing what was printed gives the same instant, rounded down to a whole
      second. */
  lemma PrintedParses(ms: int)
    requires Fits(ms) && CivilFromDays(ms / 86_400_000).year >= 0
    ensures Parse(Format(ms)) == Ok(RoundedDown(ms))
  {
    FormatIsSpelled(ms);
    var s, whole := PrintedInstant(ms);
    WellSpelledParses(s);
  }

  lemma PrintedInstant(ms: int) returns (s: Spelling, whole: int)
    requires Fits(ms) && CivilFromDays(ms / 86_400_000).year >= 0
    ensures s == Spelled(ms) && WellSpelled(s)
    ensures InstantOf(s) == Ok(whole) && whole == RoundedDown(ms)
  {
    var date, days;
    s, date, days, whole := PrintedAs(ms);
    SpelledInstant(s, date, days, whole);
  }

  function OfDay(s: Spelling): int {
    Value(s.hour) * 3_600 + Value(s.minute) * 60 + Value(s.second)
  }

  predicate Spells(s: Spelling, date: Date) {
    WellSpelled(s) && Value(s.year) == date.year && Value(s.month) == date.month && Value(s.day) == date.day
  }

  lemma PrintedAs(ms: int) returns (s: Spelling, date: Date, days: int, whole: int)
    requires Fits(ms) && CivilFromDays(ms / 86_400_000).year >= 0
    ensures s == Spelled(ms) && Spells(s, date) && OfDay(s) < 86_400
    ensures Valid(date) && date.year <= 1_000_000_000 && DaysFromCivil(date.year, date.month, date.day) == days
    ensures whole == RoundedDown(ms) && Fits(whole) && whole == (days * 86_400 + OfDay(s)) * 1_000
  {
    s, date := Spelled(ms), CivilFromDays(ms / 86_400_000);
    DateIsSpelled(ms);
    TimeIsSpelled(ms);
    CivilRoundTrip(ms / 86_400_000);
    days, whole := PrintedSecond(ms, OfDay(s));
  }

  lemma PrintedSecond(ms: int, ofDay: int) returns (days: int, whole: int)
    requires Fits(ms) && CivilFromDays(ms / 86_400_000).year >= 0 && ofDay == ms % 86_400_000 / 1_000
    ensures days == ms / 86_400_000 && whole == (days * 86_400 + ofDay) * 1_000 == ms - ms % 1_000
    ensures 0 <= ofDay < 86_400 && Fits(whole)
  {
    YearZeroStarts(ms / 86_400_000);
    WholeSecond(ms);
    days, whole := ms / 86_400_000, ms - ms % 1_000;
  }

  lemma SpelledInstant(s: Spelling, date: Date, days: int, ms: int)
    requires Spells(s, date) && OfDay(s) <= 86_400 && Valid(date) && date.year <= 1_000_000_000
    requires DaysFromCivil(date.year, date.month, date.day) == days
    requires Fits(ms) && ms == (days * 86_400 + OfDay(s)) * 1_000
    ensures InstantOf(s) == Ok(ms)
  {
    Assembled(s, date, OfDay(s));
    DateParses(date, days, OfDay(s));
  }

  lemma Assembled(s: Spelling, date: Date, ofDay: int)
    requires Value(s.year) == date.year && Value(s.month) == date.month && Value(s.day) == date.day
    requires Value(s.hour) * 3_600 + Value(s.minute) * 60 + Value(s.second) == ofDay
    ensures InstantOf(s) == Chain(DaysFromCivil64(date.year, date.month, date.day), ofDay)
  {
  }

  lemma DateParses(date: Date, days: int, ofDay: int)
    requires Valid(date) && 0 <= date.year <= 1_000_000_000 && 0 <= ofDay <= 86_400
    requires DaysFromCivil(date.year, date.month, date.day) == days
    ensures Chain(DaysFromCivil64(date.year, date.month, date.day), ofDay) == Checked((days * 86_400 + ofDay) * 1_000)
  {
    DaysFromCivilCounts(date.year, date.month, date.day);
    assert Instant(date.year, date.month, date.day, ofDay) == (days * 86_400 + ofDay) * 1_000;
    YearsThatParse(date.year, date.month, date.day, ofDay);
  }

  lemma WholeSecond(ms: int)
    requires Fits(ms) && ms / 86_400_000 >= -719_528
    ensures (ms / 86_400_000 * 86_400 + ms % 86_400_000 / 1_000) * 1_000 == ms - ms % 1_000
    ensures 0 <= ms % 86_400_000 / 1_000 < 86_400
    ensures Fits(ms - ms % 1_000)
  {
    var days, ofDay := ms / 86_400_000, ms % 86_400_000;
    SplitSecond(days, ofDay);
    assert ms == days * 86_400_000 + ofDay;
  }

  lemma SplitSecond(days: int, ofDay: int)
    requires 0 <= ofDay < 86_400_000
    ensures var ms := days * 86_400_000 + ofDay;
            (days * 86_400 + ofDay / 1_000) * 1_000 == ms - ms % 1_000 && ms % 1_000 == ofDay % 1_000
    ensures 0 <= ofDay / 1_000 < 86_400
  {
    QuotientIs(days * 86_400_000 + ofDay, 1_000, days * 86_400 + ofDay / 1_000, ofDay % 1_000);
  }

  /** A year before 0 prints with a sign, which the parser does not read. */
  lemma SignedYearIsRefused(ms: int)
    requires CivilFromDays(ms / 86_400_000).year < 0
    ensures Parse(Format(ms)) == Err(BadDate)
  {
    var s := Spelled(ms);
    FormatIsSpelled(ms);
    assert DateOf(s)[0] == '-';
    assert Split(DateOf(s), '-')[0] == "";
    NoTee(CivilFromDays(ms / 86_400_000));
    BodySplits(DateOf(s), ClockOf(s) + s.fraction, "Z");
  }

  lemma NoTee(date: Date)
    ensures 'T' !in DateText(date)
  {
  }

  /** The round trip holds from the start of year 0 on, and only from there. */
  lemma RoundTripFromYearZero(ms: int)
    requires Fits(ms)
    ensures Parse(Format(ms)) == Ok(RoundedDown(ms)) <==> ms >= -62_167_219_200_000
  {
    YearZeroStarts(ms / 86_400_000);
    if CivilFromDays(ms / 86_400_000).year >= 0 { PrintedParses(ms); } else { SignedYearIsRefused(ms); }
  }

  lemma YearZeroStarts(days: int)
    ensures CivilFromDays(days).year >= 0 <==> days >= -719_528
  {
    CivilRoundTrip(days);
    var date := CivilFromDays(days);
    DaysFromCivilIsMonotone(date, Date(0, 1, 1));
  }
}
