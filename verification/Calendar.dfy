/** Day counts to Gregorian dates (`civil_from_days`, src/http/response.rs),
    against the calendar's own rules. */
module Calendar {

  datatype Date = Date(year: int, month: int, day: int)

  // ----------------------------------------------------- the calendar's rules

  predicate Leap(year: int) {
    year % 4 == 0 && (year % 100 != 0 || year % 400 == 0)
  }

  function DaysInMonth(year: int, month: int): int {
    if month == 2 then (if Leap(year) then 29 else 28)
    else if month in {4, 6, 9, 11} then 30
    else 31
  }

  predicate IsDate(d: Date) {
    1 <= d.month <= 12 && 1 <= d.day <= DaysInMonth(d.year, d.month)
  }

  function NextDay(d: Date): Date {
    if d.day < DaysInMonth(d.year, d.month) then d.(day := d.day + 1)
    else if d.month < 12 then Date(d.year, d.month + 1, 1)
    else Date(d.year + 1, 1, 1)
  }

  const EPOCH := Date(1970, 1, 1)

  // ------------------------------------------------------------- the algorithm

  /** Integer division as the program's language has it: towards zero. */
  function TruncDiv(a: int, b: int): int
    requires b > 0
  {
    if a >= 0 then a / b else -(-a / b)
  }

  function Era(z: int): (era: int)
    ensures 0 <= z - era * 146_097 < 146_097
  {
    TruncDiv(if z >= 0 then z else z - 146_096, 146_097)
  }

  function YearOfEra(doe: nat): nat
    requires doe < 146_097
  {
    var years: nat := doe - doe / 1460;
    var centuries: nat := years + doe / 36_524 - doe / 146_096;
    centuries / 365
  }

  /** Days of the era before its year `yoe`; these years start on 1 March. */
  function DaysBeforeYear(yoe: nat): nat {
    365 * yoe + yoe / 4 - yoe / 100
  }

  /** The same value types as the program: every `nat` below is a `u64` there,
      so this function is well formed only because no subtraction underflows. */
  function CivilFromDays(days: int): Date {
    var z := days + 719_468;
    var era := Era(z);
    var doe: nat := z - era * 146_097;
    var yoe := YearOfEra(doe);
    var y := yoe + era * 400;
    var doy: nat := (YearFound(doe); doe - DaysBeforeYear(yoe));
    MarchDate(y, doy)
  }

  /** Day `doy` of the year that starts on 1 March of year `y`. */
  function MarchDate(y: int, doy: nat): Date
    requires doy < 366
  {
    var mp := (5 * doy + 2) / 153;
    var start: nat := (153 * mp + 2) / 5;
    var d: nat := doy - start;
    var m: nat := if mp < 10 then mp + 3 else mp - 9;
    Date(if m <= 2 then y + 1 else y, m, d + 1)
  }

  // ------------------------------------------------------------ years of an era

  /** Whether the year of the era that starts in March ends with a 29 February. */
  predicate EndsLeap(yoe: nat) { (yoe + 1) % 4 == 0 && ((yoe + 1) % 100 != 0 || yoe == 399) }

  function YearLength(yoe: nat): nat { if EndsLeap(yoe) then 366 else 365 }

  lemma DivIs(x: int, n: int, q: int)
    requires n > 0 && n * q <= x < n * q + n
    ensures x / n == q
  {
    var k := x / n - q;
    assert n * (x / n) == n * q + n * k;
    assert k >= 1 ==> n * k >= n;
    assert k <= -1 ==> n * k <= -n;
  }

  /** A day of the era, counted by centuries, four-year cycles and years. */
  lemma YearFormula(a: nat, e: nat, g: nat, d: nat)
    requires a <= 3 && e <= 24 && g <= 3 && d <= 365
    requires d == 365 ==> g == 3 && (e < 24 || a == 3)
    ensures var doe := 36_524 * a + 1461 * e + 365 * g + d;
            doe < 146_097 && YearOfEra(doe) == 100 * a + 4 * e + g
  {
    var doe := 36_524 * a + 1461 * e + 365 * g + d;
    var y := 100 * a + 4 * e + g;
    var late := if 24 * a + e + 365 * g + d >= 1460 then 1 else 0;
    DivIs(doe, 1460, 25 * a + e + late);
    var last := if doe == 146_096 then 1 else 0;
    DivIs(doe, 36_524, a + last);
    DivIs(doe, 146_096, last);
    DivIs(365 * y + d - late, 365, y);
  }

  /** Every day of the era belongs to exactly the year the formula gives. */
  lemma YearFound(doe: nat)
    requires doe < 146_097
    ensures var yoe := YearOfEra(doe);
            yoe < 400 && DaysBeforeYear(yoe) <= doe < DaysBeforeYear(yoe) + YearLength(yoe)
  {
    var a := if doe == 146_096 then 3 else doe / 36_524;
    var inCentury := doe - 36_524 * a;
    var e := inCentury / 1461;
    var inCycle := inCentury - 1461 * e;
    var g := if inCycle == 1460 then 3 else inCycle / 365;
    var d := inCycle - 365 * g;
    YearFormula(a, e, g, d);
    YearDays(a, e, g);
  }

  lemma YearDays(a: nat, e: nat, g: nat)
    requires a <= 3 && e <= 24 && g <= 3
    ensures var y := 100 * a + 4 * e + g;
            && DaysBeforeYear(y) == 36_524 * a + 1461 * e + 365 * g
            && EndsLeap(y) == (g == 3 && (e < 24 || a == 3))
  {
    var y := 100 * a + 4 * e + g;
    DivIs(y, 4, 25 * a + e);
    DivIs(y, 100, a);
    if g == 3 && e == 24 {
      assert y + 1 == 100 * (a + 1);
    } else {
      DivIs(y + 1, 100, a);
    }
  }

  lemma DivStep(p: int, n: int)
    requires n in {4, 100, 400}
    ensures (p + 1) / n == p / n + if (p + 1) % n == 0 then 1 else 0
  {
    if n == 4 {} else if n == 100 {} else {}
  }

  lemma LeapCycles(year: int)
    ensures year % 400 == 0 ==> year % 100 == 0
    ensures year % 100 == 0 ==> year % 4 == 0
  {
    if year % 400 == 0 { DivIs(year, 100, 4 * (year / 400)); }
    if year % 100 == 0 { DivIs(year, 4, 25 * (year / 100)); }
  }

  lemma YearsFollow(yoe: nat)
    requires yoe < 400
    ensures DaysBeforeYear(yoe) + YearLength(yoe) ==
            if yoe == 399 then 146_097 else DaysBeforeYear(yoe + 1)
  {
    DivStep(yoe, 4);
    DivStep(yoe, 100);
    LeapCycles(yoe + 1);
  }

  // ----------------------------------------------------------------- successor

  lemma LeapOfEra(yoe: nat, era: int)
    requires yoe < 400
    ensures Leap(yoe + 400 * era + 1) == EndsLeap(yoe)
  {
    var y := yoe + 400 * era + 1;
    assert y % 4 == (yoe + 1) % 4 by { assert y == (yoe + 1) + 4 * (100 * era); }
    assert y % 100 == (yoe + 1) % 100 by { assert y == (yoe + 1) + 100 * (4 * era); }
    assert y % 400 == (yoe + 1) % 400;
  }

  lemma MarchDateNext(y: int, doy: nat)
    requires doy < (if Leap(y + 1) then 366 else 365)
    ensures IsDate(MarchDate(y, doy))
    ensures NextDay(MarchDate(y, doy)) ==
            if doy + 1 < (if Leap(y + 1) then 366 else 365) then MarchDate(y, doy + 1) else MarchDate(y + 1, 0)
  {}

  /** Where a day count falls: era, year of the era, day of the year. */
  lemma Placed(days: int) returns (era: int, yoe: nat, doy: nat)
    ensures days + 719_468 == era * 146_097 + DaysBeforeYear(yoe) + doy
    ensures yoe < 400 && doy < YearLength(yoe)
    ensures CivilFromDays(days) == MarchDate(yoe + 400 * era, doy)
  {
    hide YearOfEra, MarchDate, Era, DaysBeforeYear, YearLength;
    var z := days + 719_468;
    era := Era(z);
    YearFound(z - era * 146_097);
    yoe := YearOfEra(z - era * 146_097);
    doy := z - era * 146_097 - DaysBeforeYear(yoe);
  }

  lemma PlaceUnique(days: int, era: int, yoe: nat, doy: nat)
    requires days + 719_468 == era * 146_097 + DaysBeforeYear(yoe) + doy
    requires yoe < 400 && doy < YearLength(yoe)
    ensures CivilFromDays(days) == MarchDate(yoe + 400 * era, doy)
  {
    var era', yoe', doy' := Placed(days);
    assert 0 <= DaysBeforeYear(yoe) + doy < 146_097 by { YearsFollow(yoe); YearsGrow(yoe + 1, 400); }
    assert 0 <= DaysBeforeYear(yoe') + doy' < 146_097 by { YearsFollow(yoe'); YearsGrow(yoe' + 1, 400); }
    assert era == era';
    if yoe < yoe' { YearsFollow(yoe); YearsGrow(yoe + 1, yoe'); }
    if yoe' < yoe { YearsFollow(yoe'); YearsGrow(yoe' + 1, yoe); }
  }

  lemma YearsGrow(a: nat, b: nat)
    requires a <= b <= 400
    ensures DaysBeforeYear(a) <= DaysBeforeYear(b) <= 146_096
  {}

  lemma EpochPlaced()
    ensures CivilFromDays(0) == EPOCH
  {
    hide CivilFromDays;
    assert DaysBeforeYear(369) == 134_774;
    PlaceUnique(0, 4, 369, 306);
    assert MarchDate(1969, 306) == EPOCH;
  }

  /** Day 0 is 1 January 1970 and every next day count is the next calendar day;
      so every date is valid and no day is skipped or repeated. */
  lemma CivilSuccessor(days: int)
    ensures CivilFromDays(0) == EPOCH
    ensures IsDate(CivilFromDays(days))
    ensures CivilFromDays(days + 1) == NextDay(CivilFromDays(days))
  {
    hide CivilFromDays, MarchDate, DaysBeforeYear, NextDay, IsDate, Leap, EndsLeap;
    EpochPlaced();
    var era, yoe, doy := Placed(days);
    var y := yoe + 400 * era;
    LeapOfEra(yoe, era);
    MarchDateNext(y, doy);
    YearsFollow(yoe);
    if doy + 1 < YearLength(yoe) {
      PlaceUnique(days + 1, era, yoe, doy + 1);
    } else if yoe < 399 {
      PlaceUnique(days + 1, era, yoe + 1, 0);
    } else {
      assert DaysBeforeYear(0) == 0 by { NoYears(); }
      PlaceUnique(days + 1, era + 1, 0, 0);
    }
  }

  lemma NoYears()
    ensures DaysBeforeYear(0) == 0
  {}

  // ------------------------------------------------------------------- inverse

  function DaysBeforeMonth(year: int, month: int): int
    requires 1 <= month <= 12
    decreases month
  {
    if month == 1 then 0 else DaysBeforeMonth(year, month - 1) + DaysInMonth(year, month - 1)
  }

  /** Days from the epoch to 1 January of `year`. */
  function NewYear(year: int): int {
    365 * (year - 1) + (year - 1) / 4 - (year - 1) / 100 + (year - 1) / 400 - 719_162
  }

  function DayNumber(d: Date): int
    requires IsDate(d)
  {
    NewYear(d.year) + DaysBeforeMonth(d.year, d.month) + d.day - 1
  }

  lemma NewYearNext(year: int)
    ensures NewYear(year + 1) == NewYear(year) + if Leap(year) then 366 else 365
  {
    DivStep(year - 1, 4);
    DivStep(year - 1, 100);
    DivStep(year - 1, 400);
    LeapCycles(year);
  }

  lemma YearTotal(year: int)
    ensures DaysBeforeMonth(year, 12) + 31 == if Leap(year) then 366 else 365
  {
    assert DaysBeforeMonth(year, 4) == 31 + DaysInMonth(year, 2) + 31;
    assert DaysBeforeMonth(year, 8) == DaysBeforeMonth(year, 4) + 122;
    assert DaysBeforeMonth(year, 12) == DaysBeforeMonth(year, 8) + 122;
  }

  lemma DayNumberNext(d: Date)
    requires IsDate(d)
    ensures IsDate(NextDay(d)) && DayNumber(NextDay(d)) == DayNumber(d) + 1
  {
    if d.day == DaysInMonth(d.year, d.month) && d.month == 12 {
      NewYearNext(d.year);
      YearTotal(d.year);
    }
  }

  /** The date of a day count has that day count... */
  lemma {:induction false} DayNumberOfCivil(days: int)
    ensures IsDate(CivilFromDays(days)) && DayNumber(CivilFromDays(days)) == days
    decreases if days < 0 then -days else days
  {
    hide CivilFromDays, DayNumber, NextDay, IsDate;
    CivilSuccessor(days);
    if days == 0 {
      EpochNumber();
    } else if days > 0 {
      DayNumberOfCivil(days - 1);
      CivilSuccessor(days - 1);
      DayNumberNext(CivilFromDays(days - 1));
    } else {
      DayNumberOfCivil(days + 1);
      DayNumberNext(CivilFromDays(days));
    }
  }

  lemma EpochNumber()
    ensures IsDate(EPOCH) && DayNumber(EPOCH) == 0
  {
    assert 1969 / 4 == 492 && 1969 / 100 == 19 && 1969 / 400 == 4;
  }

  lemma {:induction false} NewYearGrows(a: int, b: int)
    requires a <= b
    ensures NewYear(a) <= NewYear(b)
    decreases b - a
  {
    if a < b {
      NewYearNext(a);
      NewYearGrows(a + 1, b);
    }
  }

  lemma {:induction false} MonthsGrow(year: int, a: int, b: int)
    requires 1 <= a < b <= 12
    ensures DaysBeforeMonth(year, a) + DaysInMonth(year, a) <= DaysBeforeMonth(year, b)
    decreases b
  {
    if a < b - 1 { MonthsGrow(year, a, b - 1); }
  }

  lemma WithinYear(d: Date)
    requires IsDate(d)
    ensures NewYear(d.year) <= DayNumber(d) < NewYear(d.year + 1)
  {
    NewYearNext(d.year);
    YearTotal(d.year);
    if d.month < 12 { MonthsGrow(d.year, d.month, 12); }
    if 1 < d.month { MonthsGrow(d.year, 1, d.month); }
  }

  lemma DayNumberInjective(d: Date, e: Date)
    requires IsDate(d) && IsDate(e) && DayNumber(d) == DayNumber(e)
    ensures d == e
  {
    hide NewYear, DaysInMonth;
    WithinYear(d);
    WithinYear(e);
    if d.year < e.year { NewYearGrows(d.year + 1, e.year); }
    if e.year < d.year { NewYearGrows(e.year + 1, d.year); }
    if d.month < e.month { MonthsGrow(d.year, d.month, e.month); }
    if e.month < d.month { MonthsGrow(d.year, e.month, d.month); }
  }

  /** ... and every valid date comes back from its day count. */
  lemma CivilOfDayNumber(d: Date)
    requires IsDate(d)
    ensures CivilFromDays(DayNumber(d)) == d
  {
    hide CivilFromDays, DayNumber, IsDate;
    DayNumberOfCivil(DayNumber(d));
    DayNumberInjective(CivilFromDays(DayNumber(d)), d);
  }

  lemma YearRange(days: int)
    requires 0 <= days < NewYear(10_000)
    ensures 1970 <= CivilFromDays(days).year <= 9999
  {
    var d := CivilFromDays(days);
    DayNumberOfCivil(days);
    WithinYear(d);
    if d.year < 1970 { NewYearGrows(d.year + 1, 1970); }
    if d.year > 9999 { NewYearGrows(10_000, d.year); }
  }
}
