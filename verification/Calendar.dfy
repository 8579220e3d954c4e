/** The two halves of the proleptic Gregorian conversion: `days_from_civil` in the core crate and
    `civil_from_unix` in the adapters, proved to be inverse to each other and to agree with the
    leap rule of Appendix C of RFC 3339. */
module Calendar {
  import opened Basics
  import opened Text

  datatype Date = Date(year: int, month: int, day: int)

  datatype Civil = Civil(date: Date, hour: int, minute: int, second: int)

  // ---- the reference: what a calendar date is -----------------------------------------------

  predicate Leap(y: int) {
    y % 4 == 0 && (y % 100 != 0 || y % 400 == 0)
  }

  function DaysInMonth(y: int, m: int): int {
    if m == 2 then (if Leap(y) then 29 else 28)
    else if m == 4 || m == 6 || m == 9 || m == 11 then 30
    else 31
  }

  predicate ValidDate(d: Date) {
    1 <= d.month <= 12 && 1 <= d.day <= DaysInMonth(d.year, d.month)
  }

  /** The next calendar day. */
  function NextDay(d: Date): Date {
    if d.day < DaysInMonth(d.year, d.month) then d.(day := d.day + 1)
    else if d.month < 12 then Date(d.year, d.month + 1, 1)
    else Date(d.year + 1, 1, 1)
  }

  // ---- the two algorithms -------------------------------------------------------------------

  /** Integer division as the source language does it: truncating toward zero. */
  function TruncDiv(a: int, b: int): int
    requires b > 0
  {
    if a >= 0 then a / b else -((-a) / b)
  }

  function DaysFromCivil(y0: int, m: int, d: int): int {
    var y := if m <= 2 then y0 - 1 else y0;
    var era := TruncDiv(if y >= 0 then y else y - 399, 400);
    var yoe := y - era * 400;
    var doy := TruncDiv(153 * (if m > 2 then m - 3 else m + 9) + 2, 5) + d - 1;
    var doe := yoe * 365 + TruncDiv(yoe, 4) - TruncDiv(yoe, 100) + doy;
    era * 146097 + doe - 719468
  }

  function CivilFromDays(days: int): Date {
    var z := days + 719468;
    CivilInEra(EraOf(z), z - EraOf(z) * 146097)
  }

  function EraOf(z: int): int {
    TruncDiv(if z >= 0 then z else z - 146096, 146097)
  }

  function CivilInEra(era: int, doe: int): Date {
    var yoe := (doe - doe / 1460 + doe / 36524 - doe / 146096) / 365;
    var y := yoe + era * 400;
    var doy := doe - (365 * yoe + yoe / 4 - yoe / 100);
    var mp := (5 * doy + 2) / 153;
    var d := doy - (153 * mp + 2) / 5 + 1;
    var m := if mp < 10 then mp + 3 else mp - 9;
    Date(if m <= 2 then y + 1 else y, m, d)
  }

  /** Dafny's `/` and `%` are Euclidean, as are the source's `div_euclid` and `rem_euclid`. */
  function CivilFromUnix(secs: int): Civil {
    var rem := secs % 86400;
    Civil(CivilFromDays(secs / 86400), rem / 3600, rem % 3600 / 60, rem % 60)
  }

  // ---- eras and years -----------------------------------------------------------------------

  /** Days from 1 March of an era's year 0 to 1 March of its year `yoe`. */
  function YearStart(yoe: int): int {
    365 * yoe + yoe / 4 - yoe / 100 + yoe / 400
  }

  /** The closed form in `CivilFromDays` finds the year a day of the era falls in.  A day is split into
      centuries `a`, four-year cycles `b`, years `c` and a day of the year; the correction terms of the
      closed form are then 25 per century, 1 per cycle, and at most 1 more near the end of a leap year. */
  lemma YearOfEra(doe: int)
    requires 0 <= doe < 146097
    ensures var yoe := (doe - doe / 1460 + doe / 36524 - doe / 146096) / 365;
            0 <= yoe < 400 && YearStart(yoe) <= doe < YearStart(yoe + 1)
  {
    var a := if doe == 146096 then 3 else doe / 36524;
    var b := (doe - 36524 * a) / 1461;
    var rest := doe - 36524 * a - 1461 * b;
    var c := if rest == 1460 then 3 else rest / 365;
    var doy := rest - 365 * c;
    SplitYear(a, b, c, doy);
  }

  lemma SplitYear(a: int, b: int, c: int, doy: int)
    requires 0 <= a <= 3 && 0 <= b <= 24 && 0 <= c <= 3 && 0 <= doy <= 365
    requires doy == 365 ==> c == 3 && (b < 24 || a == 3)
    ensures var doe := 36524 * a + 1461 * b + 365 * c + doy;
            var yoe := 100 * a + 4 * b + c;
            && (doe - doe / 1460 + doe / 36524 - doe / 146096) / 365 == yoe
            && YearStart(yoe) + doy == doe
            && doe < YearStart(yoe + 1)
  {
    var doe := 36524 * a + 1461 * b + 365 * c + doy;
    var rest := 24 * a + b + 365 * c + doy;
    var e := rest / 1460;
    AddMultiple1460(25 * a + b, rest);
    WholeCenturies(a, 1461 * b + 365 * c + doy);
    LeapDaysSpent(a, b, c, doy);
    AddMultiple365(100 * a + 4 * b + c, doy - e);
    YearStartsAt(a, b, c);
  }

  lemma AddMultiple1460(q: int, r: int)
    ensures (1460 * q + r) / 1460 == q + r / 1460
  {
  }

  lemma AddMultiple365(q: int, r: int)
    requires 0 <= r < 365
    ensures (365 * q + r) / 365 == q
  {
  }

  lemma WholeCenturies(a: int, rest: int)
    requires 0 <= a <= 3 && 0 <= rest <= 36524 && (rest == 36524 ==> a == 3)
    ensures var doe := 36524 * a + rest; doe / 36524 - doe / 146096 == a
  {
  }

  lemma LeapDaysSpent(a: int, b: int, c: int, doy: int)
    requires 0 <= a <= 3 && 0 <= b <= 24 && 0 <= c <= 3 && 0 <= doy <= 365
    requires doy == 365 ==> c == 3 && (b < 24 || a == 3)
    ensures 0 <= doy - (24 * a + b + 365 * c + doy) / 1460 < 365
  {
  }

  lemma YearStartsAt(a: int, b: int, c: int)
    requires 0 <= a <= 3 && 0 <= b <= 24 && 0 <= c <= 3
    ensures YearStart(100 * a + 4 * b + c) == 36524 * a + 1461 * b + 365 * c
    ensures YearStart(100 * a + 4 * b + c + 1)
            == 36524 * a + 1461 * b + 365 * c + if c == 3 && (b < 24 || a == 3) then 366 else 365
  {
    var yoe := 100 * a + 4 * b + c;
    var next := yoe + 1;
    assert yoe / 4 == 25 * a + b && yoe / 100 == a && yoe / 400 == 0;
    if c < 3 {
      assert next / 4 == 25 * a + b && next / 100 == a && next / 400 == 0;
    } else if b < 24 {
      assert next / 4 == 25 * a + b + 1 && next / 100 == a && next / 400 == 0;
    } else {
      assert next / 4 == 25 * a + 25 && next / 100 == a + 1 && next / 400 == (if a == 3 then 1 else 0);
    }
  }

  /** A March-based year has 366 days exactly when the February that closes it is in a leap year. */
  lemma YearLength(y: int)
    ensures YearStart(y + 1) - YearStart(y) == (if Leap(y + 1) then 366 else 365)
  {
    Next4(y);
    Next100(y);
    Next400(y);
    Multiples(y + 1);
  }

  lemma Multiples(n: int)
    ensures (n % 100 == 0 ==> n % 4 == 0) && (n % 400 == 0 ==> n % 100 == 0)
  {
    assert n == 100 * (n / 100) + n % 100 && 100 * (n / 100) == 4 * (25 * (n / 100));
    assert n == 400 * (n / 400) + n % 400 && 400 * (n / 400) == 100 * (4 * (n / 400));
  }

  lemma Next4(y: int)
    ensures (y + 1) / 4 == y / 4 + if (y + 1) % 4 == 0 then 1 else 0
  {
  }

  lemma Next100(y: int)
    ensures (y + 1) / 100 == y / 100 + if (y + 1) % 100 == 0 then 1 else 0
  {
  }

  lemma Next400(y: int)
    ensures (y + 1) / 400 == y / 400 + if (y + 1) % 400 == 0 then 1 else 0
  {
  }

  lemma YearStartMonotone(a: int, b: int)
    requires 0 <= a < b <= 400
    ensures YearStart(a + 1) <= YearStart(b)
    decreases b - a
  {
  }

  lemma Shifted4(y: int, k: int)
    ensures (y + 4 * k) % 4 == y % 4
  {
  }

  lemma Shifted100(y: int, k: int)
    ensures (y + 100 * k) % 100 == y % 100
  {
  }

  lemma Shifted400(y: int, k: int)
    ensures (y + 400 * k) % 400 == y % 400
  {
  }

  lemma LeapPeriodic(y: int, era: int)
    ensures Leap(y + 400 * era) == Leap(y)
  {
    Shifted4(y, 100 * era);
    Shifted100(y, 4 * era);
    Shifted400(y, era);
  }

  /** The truncating divisions with their sign corrections are floor divisions. */
  lemma FloorByTruncation(a: int, n: int)
    requires n == 400 || n == 146097
    ensures TruncDiv(if a >= 0 then a else a - (n - 1), n) == a / n
  {
  }

  // ---- months -------------------------------------------------------------------------------

  /** Days from 1 March to the first of the month numbered `mp` (March is 0, February 11). */
  function MonthStart(mp: int): int {
    (153 * mp + 2) / 5
  }

  /** The civil month a March-based month number stands for. */
  function CivilMonth(mp: int): int {
    if mp < 10 then mp + 3 else mp - 9
  }

  function MarchMonth(m: int): int {
    if m > 2 then m - 3 else m + 9
  }

  lemma MonthOfDay(doy: int)
    requires 0 <= doy <= 365
    ensures var mp := (5 * doy + 2) / 153;
            && 0 <= mp <= 11 && MonthStart(mp) <= doy
            && (mp < 11 ==> doy < MonthStart(mp + 1))
  {
  }

  lemma MonthLength(y: int, mp: int)
    requires 0 <= mp < 11
    ensures MonthStart(mp + 1) - MonthStart(mp) == DaysInMonth(y, CivilMonth(mp))
  {
  }

  lemma MonthIsUnique(mp: int, doy: int)
    requires 0 <= mp <= 11 && MonthStart(mp) <= doy <= 365
    requires mp < 11 ==> doy < MonthStart(mp + 1)
    ensures (5 * doy + 2) / 153 == mp
  {
  }

  // ---- both algorithms through the same coordinates --------------------------------------------

  /** A day named by its 400-year era, its March-based year of the era and its day of that year. */
  predicate Coordinates(yoe: int, doy: int) {
    0 <= yoe < 400 && 0 <= doy < YearStart(yoe + 1) - YearStart(yoe)
  }

  function DayNumber(era: int, yoe: int, doy: int): int {
    era * 146097 + YearStart(yoe) + doy - 719468
  }

  function DateAt(era: int, yoe: int, doy: int): Date {
    var mp := (5 * doy + 2) / 153;
    var y := yoe + era * 400;
    Date(if mp < 10 then y else y + 1, CivilMonth(mp), doy - MonthStart(mp) + 1)
  }

  lemma DayNumberInEra(yoe: int, doy: int)
    requires Coordinates(yoe, doy)
    ensures 0 <= YearStart(yoe) + doy < 146097
  {
  }

  lemma CivilFromDaysMeets(days: int)
    returns (era: int, yoe: int, doy: int)
    ensures Coordinates(yoe, doy) && DayNumber(era, yoe, doy) == days
    ensures CivilFromDays(days) == DateAt(era, yoe, doy)
  {
    var doe;
    era, doe := EraOfDay(days);
    yoe, doy := YearAndDay(doe);
    CivilInEraAt(era, doe, yoe, doy);
  }

  lemma EraOfDay(days: int) returns (era: int, doe: int)
    ensures 0 <= doe < 146097 && era * 146097 + doe == days + 719468
    ensures CivilFromDays(days) == CivilInEra(era, doe)
  {
    era := WholeEras(days + 719468);
    doe := days + 719468 - era * 146097;
  }

  lemma WholeEras(z: int) returns (era: int)
    ensures era == EraOf(z)
    ensures 0 <= z - era * 146097 < 146097
  {
    FloorByTruncation(z, 146097);
    era := z / 146097;
  }

  lemma CivilInEraAt(era: int, doe: int, yoe: int, doy: int)
    requires Coordinates(yoe, doy)
    requires yoe == (doe - doe / 1460 + doe / 36524 - doe / 146096) / 365
    requires doy == doe - (365 * yoe + yoe / 4 - yoe / 100)
    ensures CivilInEra(era, doe) == DateAt(era, yoe, doy)
  {
    YearLength(yoe);
    MonthOfDay(doy);
  }

  lemma YearAndDay(doe: int) returns (yoe: int, doy: int)
    requires 0 <= doe < 146097
    ensures Coordinates(yoe, doy) && YearStart(yoe) + doy == doe
    ensures yoe == (doe - doe / 1460 + doe / 36524 - doe / 146096) / 365
    ensures doy == doe - (365 * yoe + yoe / 4 - yoe / 100)
  {
    YearOfEra(doe);
    yoe := (doe - doe / 1460 + doe / 36524 - doe / 146096) / 365;
    doy := doe - YearStart(yoe);
    assert yoe / 400 == 0;
  }

  /** The converse: coordinates determine what `CivilFromDays` returns. */
  lemma CivilFromDaysAt(era: int, yoe: int, doy: int)
    requires Coordinates(yoe, doy)
    ensures CivilFromDays(DayNumber(era, yoe, doy)) == DateAt(era, yoe, doy)
  {
    var days := DayNumber(era, yoe, doy);
    var era', yoe', doy' := CivilFromDaysMeets(days);
    DayNumberInEra(yoe, doy);
    DayNumberInEra(yoe', doy');
    assert (era - era') * 146097 == YearStart(yoe') + doy' - YearStart(yoe) - doy;
    assert era == era';
    if yoe < yoe' {
      YearStartMonotone(yoe, yoe');
    } else if yoe' < yoe {
      YearStartMonotone(yoe', yoe);
    }
  }

  lemma DateAtIsValid(era: int, yoe: int, doy: int)
    requires Coordinates(yoe, doy)
    ensures ValidDate(DateAt(era, yoe, doy))
  {
    YearLength(yoe);
    MonthOfDay(doy);
    var mp := (5 * doy + 2) / 153;
    var y := yoe + era * 400;
    if mp < 11 {
      MonthLength(if mp < 10 then y else y + 1, mp);
    } else {
      LeapPeriodic(yoe + 1, era);
      assert y + 1 == yoe + 1 + 400 * era;
    }
  }

  /** Every era has the same number of days. */
  lemma ErasAreAlike(era: int, yoe: int)
    ensures YearStart(yoe + 400 * era) == YearStart(yoe) + 146097 * era
  {
    var y := yoe + 400 * era;
    assert y / 4 == yoe / 4 + 100 * era;
    assert y / 100 == yoe / 100 + 4 * era;
  }

  lemma DaysFromCivilAt(era: int, yoe: int, doy: int)
    requires Coordinates(yoe, doy)
    ensures var d := DateAt(era, yoe, doy);
            DaysFromCivil(d.year, d.month, d.day) == DayNumber(era, yoe, doy)
  {
    var d := DateAt(era, yoe, doy);
    DateAtIsValid(era, yoe, doy);
    DaysInClosedForm(d.year, d.month, d.day);
    ErasAreAlike(era, yoe);
  }

  /** Every valid date has coordinates. */
  lemma CoordinatesOf(d: Date) returns (era: int, yoe: int, doy: int)
    requires ValidDate(d)
    ensures Coordinates(yoe, doy) && DateAt(era, yoe, doy) == d
  {
    var y := if d.month <= 2 then d.year - 1 else d.year;
    era := y / 400;
    yoe := y % 400;
    var mp := MarchMonth(d.month);
    doy := MonthStart(mp) + d.day - 1;
    YearLength(yoe);
    if mp < 11 {
      MonthLength(d.year, mp);
      MonthStartBound(mp);
    } else {
      LeapPeriodic(yoe + 1, era);
      assert d.year == yoe + 1 + 400 * era;
    }
    MonthIsUnique(mp, doy);
  }

  lemma MonthStartBound(mp: int)
    requires 0 <= mp < 11
    ensures MonthStart(mp + 1) <= 337
  {
  }

  // ---- main results -------------------------------------------------------------------------

  /** Every day number is a valid date, and its seconds split into a time of day. */
  lemma CivilFromUnixIsExact(secs: int)
    ensures var c := CivilFromUnix(secs);
            && ValidDate(c.date)
            && 0 <= c.hour < 24 && 0 <= c.minute < 60 && 0 <= c.second < 60
            && DaysFromCivil(c.date.year, c.date.month, c.date.day) * 86400
               + c.hour * 3600 + c.minute * 60 + c.second == secs
  {
    DaysOfCivilFromDays(secs / 86400);
    TimeOfDay(secs % 86400);
  }

  lemma TimeOfDay(rem: int)
    requires 0 <= rem < 86400
    ensures 0 <= rem / 3600 < 24 && 0 <= rem % 3600 / 60 < 60
    ensures rem / 3600 * 3600 + rem % 3600 / 60 * 60 + rem % 60 == rem
  {
  }

  lemma DaysOfCivilFromDays(days: int)
    ensures var d := CivilFromDays(days); ValidDate(d) && DaysFromCivil(d.year, d.month, d.day) == days
  {
    var era, yoe, doy := CivilFromDaysMeets(days);
    DateAtIsValid(era, yoe, doy);
    DaysFromCivilAt(era, yoe, doy);
  }

  /** The other direction: no valid date is lost. */
  lemma CivilOfDaysFromCivil(d: Date)
    requires ValidDate(d)
    ensures CivilFromDays(DaysFromCivil(d.year, d.month, d.day)) == d
  {
    var era, yoe, doy := CoordinatesOf(d);
    DaysFromCivilAt(era, yoe, doy);
    CivilFromDaysAt(era, yoe, doy);
  }

  function ClosedForm(y: int, m: int, d: int): int {
    YearStart(if m <= 2 then y - 1 else y) + MonthStart(MarchMonth(m)) + d - 719469
  }

  /** Without eras: whole March-based years, whole months, days.  `YearStart` floors, so this reads the
      same before year 0. */
  lemma DaysInClosedForm(y0: int, m: int, d: int)
    requires 1 <= m <= 12
    ensures DaysFromCivil(y0, m, d) == ClosedForm(y0, m, d)
  {
    var y := if m <= 2 then y0 - 1 else y0;
    var era, yoe := y / 400, y % 400;
    FloorByTruncation(y, 400);
    ErasAreAlike(era, yoe);
  }

  /** The month after a month, and how far it starts after it. */
  lemma NextMonth(y: int, m: int)
    requires 1 <= m <= 12
    ensures ClosedForm(if m < 12 then y else y + 1, if m < 12 then m + 1 else 1, 1)
            == ClosedForm(y, m, 1) + DaysInMonth(y, m)
  {
    if m == 2 {
      YearLength(y - 1);
    } else {
      MonthLength(y, MarchMonth(m));
    }
  }

  /** Day zero is 1 January 1970 and each calendar day is numbered one after the day before it; with
      the two inverse laws this fixes both conversions on every integer and every valid date. */
  lemma DaysAreConsecutive(d: Date)
    requires ValidDate(d)
    ensures var n := NextDay(d);
            && ValidDate(n)
            && DaysFromCivil(n.year, n.month, n.day) == DaysFromCivil(d.year, d.month, d.day) + 1
    ensures DaysFromCivil(1970, 1, 1) == 0
  {
    var n := NextDay(d);
    ClosedFormOfNextDay(d);
    DaysInClosedForm(d.year, d.month, d.day);
    DaysInClosedForm(n.year, n.month, n.day);
  }

  lemma ClosedFormOfNextDay(d: Date)
    requires ValidDate(d)
    ensures var n := NextDay(d);
            ValidDate(n) && ClosedForm(n.year, n.month, n.day) == ClosedForm(d.year, d.month, d.day) + 1
  {
    NextMonth(d.year, d.month);
  }

  /** The consecutive-day law read the other way: successive day numbers are successive dates. */
  lemma NextDayOfCivil(days: int)
    ensures CivilFromDays(days + 1) == NextDay(CivilFromDays(days))
  {
    DaysOfCivilFromDays(days);
    NextNumberNextDay(days, CivilFromDays(days));
  }

  lemma NextNumberNextDay(days: int, d: Date)
    requires ValidDate(d) && DaysFromCivil(d.year, d.month, d.day) == days
    ensures CivilFromDays(days + 1) == NextDay(d)
  {
    DaysAreConsecutive(d);
    NumberOf(days + 1, NextDay(d));
  }

  lemma NumberOf(days: int, d: Date)
    requires ValidDate(d) && DaysFromCivil(d.year, d.month, d.day) == days
    ensures CivilFromDays(days) == d
  {
    CivilOfDaysFromCivil(d);
  }

  // ---- the timestamp of a calendar manifest ---------------------------------------------------

  function Max(a: int, b: int): int {
    if a < b then b else a
  }

  /** Decimal parsing of a signed integer: an optional sign, then at least one digit and nothing else. */
  function ParseInt(s: string): Option<int> {
    if s == [] then None
    else if s[0] == '-' then
      (match ParseDigits(s[1..]) case Some(n) => Some(-n) case None => None)
    else if s[0] == '+' then ParseDigits(s[1..])
    else ParseDigits(s)
  }

  function ParseDigits(s: string): (r: Option<int>)
    ensures r.Some? ==> r.value >= 0
  {
    if s == [] || !IsDigit(s[|s| - 1]) then None
    else
      var last := s[|s| - 1] as int - '0' as int;
      if |s| == 1 then Some(last)
      else match ParseDigits(s[..|s| - 1])
        case Some(n) => Some(10 * n + last)
        case None => None
  }

  /** The part of `s` before the first hyphen, and the part after it when there is one. */
  function SplitHyphen(s: string): (string, Option<string>) {
    match SplitOnce(s, '-')
    case Some((head, tail)) => (head, Some(tail))
    case None => (s, None)
  }

  /** Midnight UTC at the start of the period a label `YYYY` or `YYYY-MM` names. */
  function PeriodStartUnix(periodLabel: string): (r: int)
    ensures r >= 0
  {
    var (first, rest) := SplitHyphen(periodLabel);
    var year := OrElse(ParseInt(first), 1970);
    var month := match rest case Some(tail) => OrElse(ParseInt(SplitHyphen(tail).0), 1) case None => 1;
    Max(DaysFromCivil(year, month, 1), 0) * 86400
  }

  /** How a four-digit year, and a two-digit month, are written. */
  function YearLabel(y: int): string
    requires 0 <= y <= 9999
  {
    [Digit(y / 1000), Digit(y / 100 % 10), Digit(y / 10 % 10), Digit(y % 10)]
  }

  function MonthLabel(y: int, m: int): string
    requires 0 <= y <= 9999 && 0 <= m <= 99
  {
    YearLabel(y) + "-" + [Digit(m / 10), Digit(m % 10)]
  }

  lemma ParseYearLabel(y: int)
    requires 0 <= y <= 9999
    ensures ParseInt(YearLabel(y)) == Some(y)
  {
    var s := YearLabel(y);
    NextDigit([], y / 1000, 0);
    assert s[..1] == [] + [Digit(y / 1000 % 10)];
    NextDigit(s[..1], y / 100, y / 1000);
    assert s[..2] == s[..1] + [Digit(y / 100 % 10)];
    NextDigit(s[..2], y / 10, y / 100);
    assert s[..3] == s[..2] + [Digit(y / 10 % 10)];
    NextDigit(s[..3], y, y / 10);
    assert s == s[..3] + [Digit(y % 10)];
  }

  lemma NextDigit(head: string, n: int, tens: int)
    requires n >= 0 && n / 10 == tens && if head == [] then tens == 0 else ParseDigits(head) == Some(tens)
    ensures ParseDigits(head + [Digit(n % 10)]) == Some(n)
  {
    assert (head + [Digit(n % 10)])[..|head|] == head;
  }

  lemma SplitLabel(head: string, tail: string)
    requires '-' !in head
    ensures SplitHyphen(head) == (head, None)
    ensures SplitHyphen(head + "-" + tail) == (head, Some(tail))
  {
    SplitAtFirst(head, tail, '-');
  }

  /** The label of a period parses back to the period, for years and for months. */
  lemma PeriodOfLabel(y: int, m: int)
    requires 0 <= y <= 9999 && 1 <= m <= 12
    ensures PeriodStartUnix(YearLabel(y)) == Max(DaysFromCivil(y, 1, 1), 0) * 86400
    ensures PeriodStartUnix(MonthLabel(y, m)) == Max(DaysFromCivil(y, m, 1), 0) * 86400
  {
    ParseYearLabel(y);
    var month := [Digit(m / 10), Digit(m % 10)];
    assert '-' !in YearLabel(y);
    SplitLabel(YearLabel(y), month);
    assert '-' !in month;
    SplitLabel(month, []);
    assert month[..1] == [month[0]];
    assert ParseDigits(month[..1]) == Some(m / 10);
    assert ParseInt(month) == Some(m);
  }

  /** Later periods start strictly later, from January 1970 on; a year starts with its January. */
  lemma PeriodStartsIncrease(y1: int, m1: int, y2: int, m2: int)
    requires 1970 <= y1 <= 9999 && 1970 <= y2 <= 9999 && 1 <= m1 <= 12 && 1 <= m2 <= 12
    requires y1 < y2 || (y1 == y2 && m1 < m2)
    ensures PeriodStartUnix(MonthLabel(y1, m1)) < PeriodStartUnix(MonthLabel(y2, m2))
    ensures PeriodStartUnix(YearLabel(y1)) == PeriodStartUnix(MonthLabel(y1, 1))
  {
    PeriodOfLabel(y1, m1);
    PeriodOfLabel(y1, 1);
    PeriodOfLabel(y2, m2);
    FromTheEpoch(y1, m1);
    MonthStartsIncrease(y1, m1, y2, m2);
  }

  lemma FromTheEpoch(y: int, m: int)
    requires 1970 <= y && 1 <= m <= 12
    ensures DaysFromCivil(y, m, 1) >= 0
  {
    assert DaysFromCivil(1970, 1, 1) == 0;
    if (y, m) != (1970, 1) {
      MonthStartsIncrease(1970, 1, y, m);
    }
  }

  lemma MonthStartsIncrease(y1: int, m1: int, y2: int, m2: int)
    requires 1 <= m1 <= 12 && 1 <= m2 <= 12
    requires y1 < y2 || (y1 == y2 && m1 < m2)
    ensures DaysFromCivil(y1, m1, 1) < DaysFromCivil(y2, m2, 1)
  {
    DaysInClosedForm(y1, m1, 1);
    DaysInClosedForm(y2, m2, 1);
    ClosedFormsIncrease(y1, m1, y2, m2);
  }

  lemma ClosedFormsIncrease(y1: int, m1: int, y2: int, m2: int)
    requires 1 <= m1 <= 12 && 1 <= m2 <= 12
    requires y1 < y2 || (y1 == y2 && m1 < m2)
    ensures ClosedForm(y1, m1, 1) < ClosedForm(y2, m2, 1)
    decreases 12 * (y2 - y1) + m2 - m1
  {
  }
}
