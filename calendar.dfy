/** Dates as `chrono::NaiveDate` values: a day number counted from
    1970-01-01, with the proleptic Gregorian calendar to go between day
    numbers and (year, month, day). */
module Calendar {

  /** A calendar day: days since 1970-01-01 (negative before it). */
  type Date = int

  datatype Civil = Civil(year: int, month: int, day: int)

  predicate IsLeap(y: int) {
    (y % 4 == 0 && y % 100 != 0) || y % 400 == 0
  }

  function DaysInMonth(y: int, m: int): int {
    if m == 2 then (if IsLeap(y) then 29 else 28)
    else if m == 4 || m == 6 || m == 9 || m == 11 then 30
    else 31
  }

  predicate ValidCivil(c: Civil) {
    1 <= c.month <= 12 && 1 <= c.day <= DaysInMonth(c.year, c.month)
  }

  function DaysBeforeMonth(m: int, leap: bool): int {
    var base :=
      if m == 1 then 0 else if m == 2 then 31 else if m == 3 then 59
      else if m == 4 then 90 else if m == 5 then 120 else if m == 6 then 151
      else if m == 7 then 181 else if m == 8 then 212 else if m == 9 then 243
      else if m == 10 then 273 else if m == 11 then 304 else 334;
    if leap && m > 2 then base + 1 else base
  }

  /** The leap years among years 1 to `p` (counted backwards, and negative,
      for `p < 0`). */
  function LeapDays(p: int): int {
    p / 4 - p / 100 + p / 400
  }

  /** Days from 1970-01-01 to the first of January of year `y`. */
  function DaysBeforeYear(y: int): int {
    365 * (y - 1970) + LeapDays(y - 1) - LeapDays(1969)
  }

  function DaysFromCivil(c: Civil): Date {
    DaysBeforeYear(c.year) + DaysBeforeMonth(c.month, IsLeap(c.year)) + c.day - 1
  }

  /** The calendar day of a day number (H. Hinnant's `civil_from_days`):
      whole eras of 400 years (146097 days) from 0000-03-01, then the day of
      the era. */
  function CivilFromDays(n: Date): Civil {
    var z := n + 719468;
    var era := z / 146097;
    CivilOfEra(era, z - era * 146097)
  }

  /** Day `doe` of era `era`: its March-based year, then the day of that
      year. */
  function CivilOfEra(era: int, doe: int): Civil {
    var yoe := (doe - doe / 1460 + doe / 36524 - doe / 146096) / 365;
    CivilOfYear(yoe + era * 400, doe - DayOfEra(yoe, 0))
  }

  /** Day `doy` of the March-based year that starts on 1 March of year `y`:
      its month counted from March, then the day of that month. */
  function CivilOfYear(y: int, doy: int): Civil {
    var mp := (5 * doy + 2) / 153;
    var d := doy - (153 * mp + 2) / 5 + 1;
    var m := if mp < 10 then mp + 3 else mp - 9;
    Civil(if m <= 2 then y + 1 else y, m, d)
  }

  /** The day of an era (counted from the era's first of March) on day `doy`
      of its March-based year `yoe`, which runs from March of year `yoe` to
      February of year `yoe + 1`. */
  function DayOfEra(yoe: int, doy: int): int {
    365 * yoe + yoe / 4 - yoe / 100 + doy
  }

  /** `date.year()`. */
  function YearOf(d: Date): int { CivilFromDays(d).year }

  /** `date.month()`, 1 to 12. */
  function MonthOf(d: Date): int { CivilFromDays(d).month }

  /** The year and month of a date's day number are the date's own, and
      every day number has a month from 1 to 12. */
  lemma YearMonthOf(c: Civil, d: Date)
    requires ValidCivil(c)
    ensures YearOf(DaysFromCivil(c)) == c.year && MonthOf(DaysFromCivil(c)) == c.month
    ensures 1 <= MonthOf(d) <= 12
  {
    CivilRoundTrip(c);
    DaysRoundTrip(d);
  }

  /** `date.checked_sub_months(Months::new(k))`: the same day `k` months
      earlier, clamped to the last day of that month. */
  function SubMonths(d: Date, k: nat): Date {
    var c := CivilFromDays(d);
    var index := c.year * 12 + (c.month - 1) - k;
    var y := index / 12;
    var m := index % 12 + 1;
    var day := if c.day <= DaysInMonth(y, m) then c.day else DaysInMonth(y, m);
    DaysFromCivil(Civil(y, m, day))
  }

  /** `chrono::Month::name()`. */
  function MonthName(m: int): string {
    if m == 1 then "January" else if m == 2 then "February" else if m == 3 then "March"
    else if m == 4 then "April" else if m == 5 then "May" else if m == 6 then "June"
    else if m == 7 then "July" else if m == 8 then "August" else if m == 9 then "September"
    else if m == 10 then "October" else if m == 11 then "November" else "December"
  }

  // ------------------------------------------------------------ the round trip

  /** The year-of-era formula of `CivilFromDays` gives back the year. */
  lemma YearOfEraRecovered(yoe: int, doy: int)
    requires 0 <= yoe < 400 && 0 <= doy < (if IsLeap(yoe + 1) then 366 else 365)
    ensures var doe := DayOfEra(yoe, doy);
      0 <= doe < 146097 && (doe - doe / 1460 + doe / 36524 - doe / 146096) / 365 == yoe
  {
    var a, b, c := YearDigits(yoe);
    EraParts(a, b, c, doy);
  }

  /** A year of an era as centuries, four-year spans and years. */
  lemma YearDigits(yoe: int) returns (a: int, b: int, c: int)
    requires 0 <= yoe < 400
    ensures 0 <= a < 4 && 0 <= b < 25 && 0 <= c < 4 && yoe == 100 * a + 4 * b + c
    ensures DayOfEra(yoe, 0) == 36524 * a + 1461 * b + 365 * c
    ensures IsLeap(yoe + 1) <==> c == 3 && (b < 24 || a == 3)
  {
    a, b, c := yoe / 100, yoe % 100 / 4, yoe % 4;
    assert yoe / 4 == 25 * a + b && yoe / 100 == a;
  }

  /** `YearOfEraRecovered` on the digits of the year. */
  lemma EraParts(a: int, b: int, c: int, doy: int)
    requires 0 <= a < 4 && 0 <= b < 25 && 0 <= c < 4
    requires 0 <= doy < (if c == 3 && (b < 24 || a == 3) then 366 else 365)
    ensures var doe := 36524 * a + 1461 * b + 365 * c + doy;
      0 <= doe < 146097 && (doe - doe / 1460 + doe / 36524 - doe / 146096) / 365 == 100 * a + 4 * b + c
  {
    var doe := 36524 * a + 1461 * b + 365 * c + doy;
    CenturyOfEra(a, 1461 * b + 365 * c + doy);
    var r := 24 * a + b + 365 * c + doy;
    var q := if r >= 1460 then 1 else 0;
    QuadOfEra(25 * a + b, r);
    assert doe - doe / 1460 + doe / 36524 - doe / 146096 == 365 * (100 * a + 4 * b + c) + (doy - q);
    Div365(100 * a + 4 * b + c, doy - q);
  }

  /** The century correction: a whole century of the era, save the era's
      very last day (a 29th of February). */
  lemma CenturyOfEra(a: int, rest: int)
    requires 0 <= a <= 3 && 0 <= rest <= 36524 && (rest == 36524 ==> a == 3)
    ensures (36524 * a + rest) / 36524 - (36524 * a + rest) / 146096 == a
  {
    if rest != 36524 {
      assert (36524 * a + rest) / 146096 == 0;
    }
  }

  /** The four-year correction counts the spans begun, one more when the
      remainder passes a span. */
  lemma QuadOfEra(k: int, r: int)
    requires 0 <= r < 2920
    ensures (1460 * k + r) / 1460 == k + (if r >= 1460 then 1 else 0)
  {
  }

  lemma Div365(k: int, s: int)
    requires 0 <= s < 365
    ensures (365 * k + s) / 365 == k
  {
  }

  /** The month formula of `CivilFromDays` gives back the month and day. */
  lemma MonthRecovered(m: int, d: int, leap: bool)
    requires 1 <= m <= 12 && 1 <= d <= (if m == 2 then (if leap then 29 else 28) else DaysInMonth(1, m))
    ensures var mp := if m >= 3 then m - 3 else m + 9;
      var doy := (153 * mp + 2) / 5 + d - 1;
      && 0 <= doy < (if m <= 2 && leap then 366 else 365)
      && (5 * doy + 2) / 153 == mp
      && doy - (153 * mp + 2) / 5 + 1 == d
  {
  }

  /** Shifting by whole eras shifts the leap-year count by 97 a era, and
      keeps the residues that decide leap years. */
  lemma LeapDaysShift(e: int, k: int)
    ensures LeapDays(400 * e + k) == 97 * e + LeapDays(k)
    ensures (400 * e + k) % 4 == k % 4 && (400 * e + k) % 100 == k % 100 && (400 * e + k) % 400 == k % 400
  {
    assert (400 * e + k) / 4 == 100 * e + k / 4;
    assert (400 * e + k) / 100 == 4 * e + k / 100;
    assert (400 * e + k) / 400 == e + k / 400;
  }

  /** Going from year `k - 1` to year `k` of an era adds the leap day of
      year `k` to the leap-year count. */
  lemma LeapStep(k: int)
    requires 1 <= k < 400
    ensures LeapDays(k - 1) + (if IsLeap(k) then 1 else 0) == k / 4 - k / 100
  {
    assert (k - 1) / 4 + (if k % 4 == 0 then 1 else 0) == k / 4;
    assert (k - 1) / 100 + (if k % 100 == 0 then 1 else 0) == k / 100;
    assert k % 100 == 0 ==> k % 4 == 0;
  }

  /** The year a date's March-based year starts in: January and February
      belong to the year before. */
  function MarchYear(c: Civil): int {
    if c.month <= 2 then c.year - 1 else c.year
  }

  /** A date's day of its March-based year. */
  function MarchDay(c: Civil): int {
    var mp := if c.month >= 3 then c.month - 3 else c.month + 9;
    (153 * mp + 2) / 5 + c.day - 1
  }

  /** The days before the first of March of year `y` that `DaysFromCivil`
      counts, in the era form of `CivilFromDays`. */
  lemma DaysToMarch(y: int, era: int, yoe: int)
    requires y == era * 400 + yoe && 0 <= yoe < 400
    ensures DaysBeforeYear(y) + DaysBeforeMonth(3, IsLeap(y)) + 719468 == era * 146097 + DayOfEra(yoe, 0)
  {
    LeapDaysShift(era, yoe);
    if yoe == 0 {
      EraStartLeapDays(y, era);
    } else {
      LeapDaysInEra(y, era, yoe);
    }
  }

  /** The leap-year count before the first year of an era. */
  lemma EraStartLeapDays(y: int, era: int)
    requires y == era * 400
    ensures LeapDays(y - 1) == 97 * era - 1
  {
    LeapDaysShift(era - 1, 399);
    assert y - 1 == 400 * (era - 1) + 399;
    assert LeapDays(399) == 96;
  }

  /** The leap-year count before a later year of an era, and its leap day. */
  lemma LeapDaysInEra(y: int, era: int, yoe: int)
    requires y == era * 400 + yoe && 1 <= yoe < 400
    ensures LeapDays(y - 1) + (if IsLeap(y) then 1 else 0) == 97 * era + yoe / 4 - yoe / 100
  {
    LeapDaysShift(era, yoe);
    LeapDaysShift(era, yoe - 1);
    assert y - 1 == 400 * era + (yoe - 1);
    assert LeapDays(yoe - 1) == (yoe - 1) / 4 - (yoe - 1) / 100;
    LeapStep(yoe);
  }

  /** The days before the first of January of year `y + 1` likewise. */
  lemma DaysToJanuary(y: int, era: int, yoe: int)
    requires y == era * 400 + yoe && 0 <= yoe < 400
    ensures DaysBeforeYear(y + 1) + 719468 == era * 146097 + DayOfEra(yoe, 306)
  {
    LeapDaysShift(era, yoe);
    assert LeapDays(yoe) == yoe / 4 - yoe / 100;
  }

  /** `DaysFromCivil` in the era form: whole eras, then the day of the era
      of the date's March-based year and day. */
  lemma DaysInEra(c: Civil)
    requires ValidCivil(c)
    ensures var y := MarchYear(c);
      DaysFromCivil(c) + 719468 == y / 400 * 146097 + DayOfEra(y % 400, MarchDay(c))
  {
    var y := MarchYear(c);
    if c.month >= 3 {
      DaysToMarch(y, y / 400, y % 400);
    } else {
      DaysToJanuary(y, y / 400, y % 400);
    }
  }

  /** The first stage of `CivilFromDays` finds the era and the day of it. */
  lemma EraRecovered(n: Date, era: int, doe: int)
    requires 0 <= doe < 146097 && n + 719468 == era * 146097 + doe
    ensures CivilFromDays(n) == CivilOfEra(era, doe)
  {
    assert (n + 719468) / 146097 == era;
  }

  /** The second finds the March-based year and the day of it. */
  lemma YearRecovered(era: int, yoe: int, doy: int)
    requires 0 <= yoe < 400 && 0 <= doy < (if IsLeap(yoe + 1) then 366 else 365)
    ensures CivilOfEra(era, DayOfEra(yoe, doy)) == CivilOfYear(era * 400 + yoe, doy)
  {
    YearOfEraRecovered(yoe, doy);
  }

  /** The last finds the month and the day of it. */
  lemma DayRecovered(c: Civil)
    requires ValidCivil(c)
    ensures CivilOfYear(MarchYear(c), MarchDay(c)) == c
  {
    MonthRecovered(c.month, c.day, IsLeap(c.year));
  }

  /** A date's day of its March-based year lies in that year, which has a
      leap day when the year after `MarchYear` is a leap year. */
  lemma MarchDayBound(c: Civil)
    requires ValidCivil(c)
    ensures var yoe := MarchYear(c) % 400;
      0 <= MarchDay(c) < (if IsLeap(yoe + 1) then 366 else 365)
  {
    var y := MarchYear(c);
    MonthRecovered(c.month, c.day, IsLeap(c.year));
    LeapDaysShift(y / 400, y % 400 + 1);
  }

  /** The stages of `CivilFromDays` chained on a day number given in the era
      form. */
  lemma CivilOfEraForm(n: Date, era: int, yoe: int, doy: int)
    requires 0 <= yoe < 400 && 0 <= doy < (if IsLeap(yoe + 1) then 366 else 365)
    requires n + 719468 == era * 146097 + DayOfEra(yoe, doy)
    ensures CivilFromDays(n) == CivilOfYear(era * 400 + yoe, doy)
  {
    YearRecovered(era, yoe, doy);
    EraRecovered(n, era, DayOfEra(yoe, doy));
  }

  /** Day numbers and calendar days are one-to-one: the calendar day of a
      valid date's day number is that date. */
  lemma CivilRoundTrip(c: Civil)
    requires ValidCivil(c)
    ensures CivilFromDays(DaysFromCivil(c)) == c
  {
    var y := MarchYear(c);
    DaysInEra(c);
    MarchDayBound(c);
    CivilOfEraForm(DaysFromCivil(c), y / 400, y % 400, MarchDay(c));
    DayRecovered(c);
  }

  /** The length of year `k` of an era, March to February, is the gap to
      the next year's start. */
  lemma YearLength(k: int)
    requires 0 <= k < 399
    ensures DayOfEra(k + 1, 0) == DayOfEra(k, 0) + (if IsLeap(k + 1) then 366 else 365)
  {
    assert (k + 1) / 4 == k / 4 + (if (k + 1) % 4 == 0 then 1 else 0);
    assert (k + 1) / 100 == k / 100 + (if (k + 1) % 100 == 0 then 1 else 0);
    assert (k + 1) % 100 == 0 ==> (k + 1) % 4 == 0;
  }

  /** Every day of an era from the start of year `k` on lies in year `k` or
      a later one. */
  lemma {:induction false} FindYear(doe: int, k: int) returns (yoe: int)
    requires 0 <= k < 400 && DayOfEra(k, 0) <= doe < 146097
    ensures 0 <= yoe < 400 && 0 <= doe - DayOfEra(yoe, 0) < (if IsLeap(yoe + 1) then 366 else 365)
    decreases 400 - k
  {
    if k == 399 {
      assert IsLeap(400) && DayOfEra(399, 0) == 145731;
      yoe := k;
    } else {
      YearLength(k);
      if doe < DayOfEra(k + 1, 0) {
        yoe := k;
      } else {
        yoe := FindYear(doe, k + 1);
      }
    }
  }

  /** The year-of-era formula of `CivilFromDays` always lands within its
      era, on a day of the year it finds. */
  lemma YearOfEraFound(doe: int)
    requires 0 <= doe < 146097
    ensures var yoe := (doe - doe / 1460 + doe / 36524 - doe / 146096) / 365;
      0 <= yoe < 400 && 0 <= doe - DayOfEra(yoe, 0) < (if IsLeap(yoe + 1) then 366 else 365)
  {
    var k := FindYear(doe, 0);
    YearOfEraRecovered(k, doe - DayOfEra(k, 0));
  }

  /** The month formula of `CivilFromDays` always lands on a day of a month
      (a 29th of February only in a leap year). */
  lemma MonthFound(doy: int, leap: bool)
    requires 0 <= doy < (if leap then 366 else 365)
    ensures var mp := (5 * doy + 2) / 153;
      var m := if mp < 10 then mp + 3 else mp - 9;
      var d := doy - (153 * mp + 2) / 5 + 1;
      0 <= mp < 12 && 1 <= m <= 12 && 1 <= d <= (if m == 2 then (if leap then 29 else 28) else DaysInMonth(1, m))
  {
  }

  /** The date `CivilOfYear` finds is a valid one, whose March-based year and
      day are the ones it started from. */
  lemma CivilOfYearValid(era: int, yoe: int, doy: int)
    requires 0 <= yoe < 400 && 0 <= doy < (if IsLeap(yoe + 1) then 366 else 365)
    ensures var c := CivilOfYear(era * 400 + yoe, doy);
      ValidCivil(c) && MarchYear(c) == era * 400 + yoe && MarchDay(c) == doy
  {
    MonthFound(doy, IsLeap(yoe + 1));
    LeapDaysShift(era, yoe + 1);
  }

  /** The day number of the date `CivilOfYear` finds is the day of the era
      it started from. */
  lemma DaysOfEraForm(era: int, yoe: int, doy: int)
    requires 0 <= yoe < 400 && 0 <= doy < (if IsLeap(yoe + 1) then 366 else 365)
    ensures var c := CivilOfYear(era * 400 + yoe, doy);
      ValidCivil(c) && DaysFromCivil(c) + 719468 == era * 146097 + DayOfEra(yoe, doy)
  {
    var c := CivilOfYear(era * 400 + yoe, doy);
    CivilOfYearValid(era, yoe, doy);
    DaysInEra(c);
    assert (era * 400 + yoe) / 400 == era && (era * 400 + yoe) % 400 == yoe;
  }

  /** The first stage of `CivilFromDays`: the era and the day of it. */
  lemma EraStage(n: Date) returns (era: int, doe: int)
    ensures 0 <= doe < 146097 && n + 719468 == era * 146097 + doe
    ensures CivilFromDays(n) == CivilOfEra(era, doe)
  {
    era := (n + 719468) / 146097;
    doe := n + 719468 - era * 146097;
  }

  /** The second: the year of the era the formula finds, and the day of
      that year. */
  lemma YearStage(era: int, doe: int) returns (yoe: int, doy: int)
    requires 0 <= doe < 146097
    ensures 0 <= yoe < 400 && 0 <= doy < (if IsLeap(yoe + 1) then 366 else 365)
    ensures doe == DayOfEra(yoe, doy)
    ensures CivilOfEra(era, doe) == CivilOfYear(era * 400 + yoe, doy)
  {
    YearOfEraFound(doe);
    yoe := (doe - doe / 1460 + doe / 36524 - doe / 146096) / 365;
    doy := doe - DayOfEra(yoe, 0);
  }

  /** The other half of the correspondence: every day number is the day
      number of one valid date, its calendar day. */
  lemma DaysRoundTrip(n: Date)
    ensures ValidCivil(CivilFromDays(n)) && DaysFromCivil(CivilFromDays(n)) == n
  {
    var era, doe := EraStage(n);
    var yoe, doy := YearStage(era, doe);
    DaysOfEraForm(era, yoe, doy);
  }
}
