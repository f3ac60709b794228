/**
 * The date shortcuts of xds/utils/dates.py: a pattern such as `-2B`, `3ME` or `1QE` moves a
 * base date by a count of days, weeks, months, quarters or years, then optionally to the
 * start or end of its month and to a business day. Dates are proleptic Gregorian
 * (year, month, day) triples; `date.toordinal` and `date.weekday` are computed outright.
 */
module Dates {
  import opened Wrappers
  import opened Text

  datatype Date = Date(year: int, month: int, day: int)

  predicate IsLeap(y: int) {
    y % 4 == 0 && (y % 100 != 0 || y % 400 == 0)
  }

  /** `calendar.monthrange(y, m)[1]`. */
  function DaysIn(y: int, m: int): (n: int)
    ensures 28 <= n <= 31
    ensures n == 29 <==> m == 2 && IsLeap(y)
  {
    if m == 2 then (if IsLeap(y) then 29 else 28)
    else if m == 4 || m == 6 || m == 9 || m == 11 then 30
    else 31
  }

  /** A date that `datetime.date` accepts, leaving aside its year range. */
  predicate Valid(d: Date) {
    1 <= d.month <= 12 && 1 <= d.day <= DaysIn(d.year, d.month)
  }

  /** The days of the year `y` before the first of month `m`. */
  function DaysBeforeMonth(y: int, m: int): int
    requires 1 <= m <= 12
  {
    var leap := if m > 2 && IsLeap(y) then 1 else 0;
    leap + (
      if m == 1 then 0 else if m == 2 then 31 else if m == 3 then 59
      else if m == 4 then 90 else if m == 5 then 120 else if m == 6 then 151
      else if m == 7 then 181 else if m == 8 then 212 else if m == 9 then 243
      else if m == 10 then 273 else if m == 11 then 304 else 334)
  }

  /** The days before January 1 of `y`, counted from January 1 of year 1. */
  function DaysBeforeYear(y: int): int {
    var p := y - 1;
    p * 365 + p / 4 - p / 100 + p / 400
  }

  /** `date.toordinal()`: 0001-01-01 is day 1. */
  function Ordinal(d: Date): int
    requires Valid(d)
  {
    DaysBeforeYear(d.year) + DaysBeforeMonth(d.year, d.month) + d.day
  }

  /** `date.weekday()`: Monday is 0 and Sunday is 6. */
  function Weekday(d: Date): (w: int)
    requires Valid(d)
    ensures 0 <= w < 7
  {
    (Ordinal(d) + 6) % 7
  }

  // ---------------------------------------------------------------------------------
  // The calendar

  /** A year has 366 days when it is a leap year and 365 otherwise. */
  lemma YearLength(y: int)
    ensures DaysBeforeYear(y + 1) == DaysBeforeYear(y) + (if IsLeap(y) then 366 else 365)
  {
    Step4(y);
    Step100(y);
    Step400(y);
  }

  lemma Step4(y: int)
    ensures y / 4 - (y - 1) / 4 == if y % 4 == 0 then 1 else 0
  {
    assert y - 1 == 4 * ((y - 1) / 4) + (y - 1) % 4 && y == 4 * (y / 4) + y % 4;
  }

  lemma Step100(y: int)
    ensures y / 100 - (y - 1) / 100 == if y % 100 == 0 then 1 else 0
  {
    assert y - 1 == 100 * ((y - 1) / 100) + (y - 1) % 100 && y == 100 * (y / 100) + y % 100;
  }

  lemma Step400(y: int)
    ensures y / 400 - (y - 1) / 400 == if y % 400 == 0 then 1 else 0
  {
    assert y - 1 == 400 * ((y - 1) / 400) + (y - 1) % 400 && y == 400 * (y / 400) + y % 400;
  }

  /** Each month starts where the previous one ends, and December ends the year. */
  lemma MonthLength(y: int, m: int)
    requires 1 <= m <= 12
    ensures m < 12 ==> DaysBeforeMonth(y, m + 1) == DaysBeforeMonth(y, m) + DaysIn(y, m)
    ensures m == 12 ==> DaysBeforeYear(y) + DaysBeforeMonth(y, m) + DaysIn(y, m) == DaysBeforeYear(y + 1)
  {
    YearLength(y);
  }

  /** The day after. */
  function NextDay(d: Date): Date {
    if d.day < DaysIn(d.year, d.month) then Date(d.year, d.month, d.day + 1)
    else if d.month < 12 then Date(d.year, d.month + 1, 1)
    else Date(d.year + 1, 1, 1)
  }

  /** The day before. */
  function PrevDay(d: Date): Date {
    if d.day > 1 then Date(d.year, d.month, d.day - 1)
    else if d.month > 1 then Date(d.year, d.month - 1, DaysIn(d.year, d.month - 1))
    else Date(d.year - 1, 12, 31)
  }

  lemma NextDayOrdinal(d: Date)
    requires Valid(d)
    ensures Valid(NextDay(d)) && Ordinal(NextDay(d)) == Ordinal(d) + 1
  {
    MonthLength(d.year, d.month);
  }

  lemma PrevDayOrdinal(d: Date)
    requires Valid(d)
    ensures Valid(PrevDay(d)) && Ordinal(PrevDay(d)) == Ordinal(d) - 1
  {
    if d.day == 1 {
      if d.month > 1 {
        MonthLength(d.year, d.month - 1);
      } else {
        MonthLength(d.year - 1, 12);
      }
    }
  }

  /** `date + relativedelta(days=n)`, one day at a time. */
  function AddDays(d: Date, n: int): Date
    decreases if n < 0 then -n else n
  {
    if n == 0 then d
    else if n > 0 then AddDays(NextDay(d), n - 1)
    else AddDays(PrevDay(d), n + 1)
  }

  /** Adding `n` days moves the ordinal by exactly `n`. */
  lemma {:induction false} AddDaysOrdinal(d: Date, n: int)
    requires Valid(d)
    ensures Valid(AddDays(d, n)) && Ordinal(AddDays(d, n)) == Ordinal(d) + n
    decreases if n < 0 then -n else n
  {
    if n > 0 {
      NextDayOrdinal(d);
      AddDaysOrdinal(NextDay(d), n - 1);
    } else if n < 0 {
      PrevDayOrdinal(d);
      AddDaysOrdinal(PrevDay(d), n + 1);
    }
  }

  /** Adding `n` days moves the weekday by `n` modulo 7. */
  lemma ModShift(o: int, n: int)
    ensures (o + n) % 7 == (o % 7 + n) % 7
  {
    assert o + n == 7 * (o / 7) + (o % 7 + n);
  }

  lemma WeekdayShift(d: Date, n: int)
    requires Valid(d)
    ensures Valid(AddDays(d, n)) && Weekday(AddDays(d, n)) == (Weekday(d) + n) % 7
  {
    AddDaysOrdinal(d, n);
    ModShift(Ordinal(d) + 6, n);
  }

  /** Years, and within a year months, occupy consecutive ranges of ordinals. */
  lemma OrdinalInYear(d: Date)
    requires Valid(d)
    ensures DaysBeforeYear(d.year) + DaysBeforeMonth(d.year, d.month) < Ordinal(d)
    ensures Ordinal(d) <= DaysBeforeYear(d.year) + DaysBeforeMonth(d.year, d.month) + DaysIn(d.year, d.month)
    ensures Ordinal(d) <= DaysBeforeYear(d.year + 1)
  {
    YearLength(d.year);
  }

  lemma {:induction false} YearsAscend(y1: int, y2: int)
    requires y1 < y2
    ensures DaysBeforeYear(y1 + 1) <= DaysBeforeYear(y2)
    decreases y2 - y1
  {
    if y1 + 1 < y2 {
      YearsAscend(y1 + 1, y2);
      YearLength(y1 + 1);
    }
  }

  lemma MonthsAscend(y: int, m1: int, m2: int)
    requires 1 <= m1 < m2 <= 12
    ensures DaysBeforeMonth(y, m1) + DaysIn(y, m1) <= DaysBeforeMonth(y, m2)
  {
  }

  /** Distinct valid dates have distinct ordinals. */
  lemma OrdinalInjective(d1: Date, d2: Date)
    requires Valid(d1) && Valid(d2) && Ordinal(d1) == Ordinal(d2)
    ensures d1 == d2
  {
    OrdinalInYear(d1);
    OrdinalInYear(d2);
    if d1.year < d2.year {
      YearsAscend(d1.year, d2.year);
    } else if d2.year < d1.year {
      YearsAscend(d2.year, d1.year);
    } else if d1.month < d2.month {
      MonthsAscend(d1.year, d1.month, d2.month);
    } else if d2.month < d1.month {
      MonthsAscend(d1.year, d2.month, d1.month);
    }
  }

  /** `AddDays(d, n)` is the one valid date `n` days after `d`. */
  lemma AddDaysExact(d: Date, n: int, e: Date)
    requires Valid(d) && Valid(e)
    ensures Ordinal(e) == Ordinal(d) + n <==> e == AddDays(d, n)
  {
    AddDaysOrdinal(d, n);
    if Ordinal(e) == Ordinal(d) + n {
      OrdinalInjective(e, AddDays(d, n));
    }
  }

  // ---------------------------------------------------------------------------------
  // Month arithmetic

  /** Months since January of year 0. */
  function MonthIndex(d: Date): int {
    d.year * 12 + d.month - 1
  }

  function Min(a: int, b: int): int {
    if a <= b then a else b
  }

  /**
   * `date + relativedelta(months=n)`: the year and month move together, and the day is
   * clamped to the length of the target month.
   */
  function AddMonths(d: Date, n: int): (r: Date)
    requires Valid(d)
    ensures Valid(r) && MonthIndex(r) == MonthIndex(d) + n
    ensures r.day <= d.day && (r.day == d.day || r.day == DaysIn(r.year, r.month))
    ensures d.day <= DaysIn(r.year, r.month) ==> r.day == d.day
  {
    var idx := MonthIndex(d) + n;
    var y := idx / 12;
    var m := idx % 12 + 1;
    Date(y, m, Min(d.day, DaysIn(y, m)))
  }

  /** The last day of the month of `d`. */
  function LastOfMonth(d: Date): Date {
    Date(d.year, d.month, DaysIn(d.year, d.month))
  }

  /**
   * `dated(base, 'Q', n)`: `3n` months on, then the last month of that quarter, on day 31
   * for March and December and day 30 otherwise.
   */
  function QuarterEnd(d: Date, n: int): (r: Date)
    requires Valid(d)
    ensures Valid(r)
  {
    var b := AddMonths(d, 3 * n);
    var mth := ((b.month - 1) / 3 + 1) * 3;
    Date(b.year, mth, if mth == 3 || mth == 12 then 31 else 30)
  }

  /** The quarter end lies in the quarter `3n` months on, on its last day. */
  lemma QuarterEndSpec(d: Date, n: int)
    requires Valid(d)
    ensures var r := QuarterEnd(d, n);
      var b := AddMonths(d, 3 * n);
      Valid(r) && r == LastOfMonth(r) && r.month % 3 == 0 &&
      r.year == b.year && b.month <= r.month < b.month + 3
  {
  }

  /** The units `dated` knows: today, days, weeks, months, quarters and years. */
  predicate KnownUnit(unit: char) {
    unit == 'T' || unit == 'D' || unit == 'W' || unit == 'M' || unit == 'Q' || unit == 'Y'
  }

  /** `dated(base, unit, n)`; any other unit falls through and gives `None`. */
  function Dated(d: Date, unit: char, n: int): (r: Option<Date>)
    requires Valid(d)
    ensures r.Some? <==> KnownUnit(unit)
    ensures r.Some? ==> Valid(r.value)
  {
    match unit
    case 'T' => Some(d)
    case 'D' => AddDaysOrdinal(d, n); Some(AddDays(d, n))
    case 'W' => AddDaysOrdinal(d, 7 * n); Some(AddDays(d, 7 * n))
    case 'M' => Some(AddMonths(d, n))
    case 'Q' => Some(QuarterEnd(d, n))
    case 'Y' => Some(Date(d.year, 12, 31))
    case _ => None
  }

  /**
   * What each unit does: `D` moves by days, `M` by clamped months, `Q` to a quarter's last
   * day, and `Y` to December 31 of the same year whatever the count.
   */
  lemma DatedSpec(d: Date, unit: char, n: int)
    requires Valid(d)
    ensures unit == 'T' ==> Dated(d, unit, n) == Some(d)
    ensures unit == 'D' ==> Ordinal(Dated(d, unit, n).value) == Ordinal(d) + n
    ensures unit == 'M' ==> MonthIndex(Dated(d, unit, n).value) == MonthIndex(d) + n
    ensures unit == 'Q' ==> Dated(d, unit, n).value.month % 3 == 0
    ensures unit == 'Y' ==> Dated(d, unit, n) == Some(LastOfMonth(Date(d.year, 12, 1)))
  {
    if unit == 'D' {
      AddDaysOrdinal(d, n);
    } else if unit == 'Q' {
      QuarterEndSpec(d, n);
    }
  }

  /** `W` moves by whole weeks, so the weekday is kept. */
  lemma DatedWeeks(d: Date, n: int)
    requires Valid(d)
    ensures Ordinal(Dated(d, 'W', n).value) == Ordinal(d) + 7 * n
    ensures Weekday(Dated(d, 'W', n).value) == Weekday(d)
  {
    AddDaysOrdinal(d, 7 * n);
    WeekdayShift(d, 7 * n);
    WholeWeeks(Weekday(d), n);
  }

  lemma WholeWeeks(w: int, n: int)
    requires 0 <= w < 7
    ensures (w + 7 * n) % 7 == w
  {
  }

  // ---------------------------------------------------------------------------------
  // Moving to the start or end of the month and to a business day

  /** How many more weekend days the business-day loop steps over. */
  function WeekendLeft(d: Date, mult: int): nat
    requires Valid(d)
  {
    if Weekday(d) < 5 then 0 else if mult == 1 then 7 - Weekday(d) else Weekday(d) - 4
  }

  /** One step of the business-day loop leaves fewer weekend days to step over. */
  lemma WeekendStep(d: Date, mult: int)
    requires Valid(d) && (mult == 1 || mult == -1) && Weekday(d) >= 5
    ensures Valid(AddDays(d, mult)) && WeekendLeft(AddDays(d, mult), mult) < WeekendLeft(d, mult)
  {
    WeekdayShift(d, mult);
  }

  /** The weekday reached by stepping `mult` days at a time from `d`. */
  function ToWeekday(d: Date, mult: int): (r: Date)
    requires Valid(d) && (mult == 1 || mult == -1)
    ensures Valid(r) && Weekday(r) < 5
    ensures Weekday(d) < 5 ==> r == d
    decreases WeekendLeft(d, mult)
  {
    if Weekday(d) < 5 then d
    else
      WeekendStep(d, mult);
      ToWeekday(AddDays(d, mult), mult)
  }

  /** One weekend step of the loop, as `ToWeekday` takes it. */
  lemma ToWeekdayStep(d: Date, mult: int)
    requires Valid(d) && (mult == 1 || mult == -1) && Weekday(d) >= 5
    ensures Valid(AddDays(d, mult)) && Weekday(AddDays(d, mult)) == (Weekday(d) + mult) % 7
    ensures ToWeekday(d, mult) == ToWeekday(AddDays(d, mult), mult)
  {
    WeekdayShift(d, mult);
  }

  lemma AddDaysTwice(d: Date, mult: int)
    requires mult == 1 || mult == -1
    ensures AddDays(AddDays(d, mult), mult) == AddDays(d, 2 * mult)
  {
    if mult == 1 {
      assert AddDays(d, 2) == AddDays(NextDay(d), 1);
    } else {
      assert AddDays(d, -2) == AddDays(PrevDay(d), -1);
    }
  }

  /** Forwards, Saturday gives the Monday two days on. */
  lemma SaturdayForward(d: Date)
    requires Valid(d) && Weekday(d) == 5
    ensures ToWeekday(d, 1) == AddDays(d, 2)
  {
    ToWeekdayStep(d, 1);
    var d1 := AddDays(d, 1);
    assert Weekday(d1) == (5 + 1) % 7 == 6;
    ToWeekdayStep(d1, 1);
    var d2 := AddDays(d1, 1);
    assert Weekday(d2) == (6 + 1) % 7 == 0;
    assert ToWeekday(d2, 1) == d2;
    AddDaysTwice(d, 1);
  }

  /** Forwards, Sunday gives the next day. */
  lemma SundayForward(d: Date)
    requires Valid(d) && Weekday(d) == 6
    ensures ToWeekday(d, 1) == AddDays(d, 1)
  {
    ToWeekdayStep(d, 1);
    assert Weekday(AddDays(d, 1)) == 0;
  }

  /** Backwards, Saturday gives the Friday before. */
  lemma SaturdayBackward(d: Date)
    requires Valid(d) && Weekday(d) == 5
    ensures ToWeekday(d, -1) == AddDays(d, -1)
  {
    ToWeekdayStep(d, -1);
    var d1 := AddDays(d, -1);
    assert Weekday(d1) == (5 - 1) % 7 == 4;
    assert ToWeekday(d1, -1) == d1;
  }

  /** Backwards, Sunday gives the Friday two days back. */
  lemma SundayBackward(d: Date)
    requires Valid(d) && Weekday(d) == 6
    ensures ToWeekday(d, -1) == AddDays(d, -2)
  {
    ToWeekdayStep(d, -1);
    var d1 := AddDays(d, -1);
    assert Weekday(d1) == (6 - 1) % 7 == 5;
    ToWeekdayStep(d1, -1);
    var d2 := AddDays(d1, -1);
    assert Weekday(d2) == (5 - 1) % 7 == 4;
    assert ToWeekday(d2, -1) == d2;
    AddDaysTwice(d, -1);
  }

  /**
   * `move_date(base, pattern, mult)`, with `base` possibly the `None` that `dated` returned.
   * `E` and `S` are looked for in the pattern as written. `None` comes back only when the
   * pattern asks for no move.
   */
  function Moved(base: Option<Date>, pattern: string, mult: int): (r: Result<Option<Date>>)
    requires mult == 1 || mult == -1
    requires base.Some? ==> Valid(base.value)
    ensures r.Ok? && r.value.Some? ==> Valid(r.value.value)
  {
    if 'E' in pattern && 'S' in pattern then Err(ValueError("Cannot specify both E and S"))
    else if base.None? && 'S' in pattern then Err(AttributeError("'NoneType' object has no attribute 'replace'"))
    else if base.None? && 'E' in pattern then
      Err(TypeError("unsupported operand type(s) for +: 'NoneType' and 'relativedelta'"))
    else if base.None? && 'B' in pattern then Err(AttributeError("'NoneType' object has no attribute 'weekday'"))
    else if base.None? then Ok(None)
    else
      var d := base.value;
      var d1 :=
        if 'S' in pattern then Date(d.year, d.month, 1)
        else if 'E' in pattern then MonthEnd(d)
        else d;
      Ok(Some(if 'B' in pattern then ToWeekday(d1, mult) else d1))
  }

  /** `(base + relativedelta(months=1)).replace(day=1) - relativedelta(days=1)`. */
  function MonthEnd(d: Date): (r: Date)
    requires Valid(d)
    ensures Valid(r)
  {
    var next := AddMonths(d, 1);
    AddDaysOrdinal(Date(next.year, next.month, 1), -1);
    AddDays(Date(next.year, next.month, 1), -1)
  }

  /** The day before the first of next month is the last day of this month. */
  lemma EndOfMonth(d: Date)
    requires Valid(d)
    ensures MonthEnd(d) == LastOfMonth(d)
  {
    var next := AddMonths(d, 1);
    var first := Date(next.year, next.month, 1);
    assert AddDays(first, -1) == PrevDay(first);
    if d.month == 12 {
      assert next.year == d.year + 1 && next.month == 1;
    } else {
      assert next.year == d.year && next.month == d.month + 1;
    }
  }

  /**
   * `E` with `S` fails; `S` gives the first and `E` the last day of the month; `B` then
   * steps to a weekday; without any of them the date is unchanged.
   */
  lemma MovedSpec(d: Date, pattern: string, mult: int)
    requires Valid(d) && (mult == 1 || mult == -1)
    ensures var r := Moved(Some(d), pattern, mult);
      (r.Err? <==> 'E' in pattern && 'S' in pattern) &&
      (r.Err? ==> r.error.ValueError?) &&
      (r.Ok? ==> r.value.Some? && Valid(r.value.value)) &&
      (r.Ok? && 'S' in pattern && 'B' !in pattern ==> r.value.value == Date(d.year, d.month, 1)) &&
      (r.Ok? && 'E' in pattern && 'B' !in pattern ==> r.value.value == LastOfMonth(d)) &&
      (r.Ok? && 'B' in pattern ==> Weekday(r.value.value) < 5) &&
      ('E' !in pattern && 'S' !in pattern && 'B' !in pattern ==> r == Ok(Some(d)))
  {
    EndOfMonth(d);
  }

  /** The business-day loop: step `mult` days at a time while on a Saturday or Sunday. */
  method SkipWeekend(d0: Date, mult: int) returns (d: Date)
    requires Valid(d0) && (mult == 1 || mult == -1)
    ensures d == ToWeekday(d0, mult)
  {
    d := d0;
    while Weekday(d) >= 5
      invariant Valid(d) && ToWeekday(d, mult) == ToWeekday(d0, mult)
      decreases WeekendLeft(d, mult)
    {
      WeekendStep(d, mult);
      d := AddDays(d, mult);
    }
  }

  /** `move_date`, step by step. */
  method MoveDate(base: Option<Date>, pattern: string, mult: int) returns (r: Result<Option<Date>>)
    requires mult == 1 || mult == -1
    requires base.Some? ==> Valid(base.value)
    ensures r == Moved(base, pattern, mult)
  {
    if 'E' in pattern && 'S' in pattern {
      return Err(ValueError("Cannot specify both E and S"));
    }
    var b := base;
    if 'S' in pattern {
      if b.None? {
        return Err(AttributeError("'NoneType' object has no attribute 'replace'"));
      }
      b := Some(Date(b.value.year, b.value.month, 1));
    } else if 'E' in pattern {
      if b.None? {
        return Err(TypeError("unsupported operand type(s) for +: 'NoneType' and 'relativedelta'"));
      }
      b := Some(MonthEnd(b.value));
    }
    if 'B' in pattern {
      if b.None? {
        return Err(AttributeError("'NoneType' object has no attribute 'weekday'"));
      }
      var d := SkipWeekend(b.value, mult);
      b := Some(d);
    }
    return Ok(b);
  }

  // ---------------------------------------------------------------------------------
  // The shortcut pattern

  /**
   * The groups of `([TBDWMQY])*([+-])*(\d+)*([DWMQY])*([SE])*` matched at the start of the
   * upper-cased pattern. A repeated group keeps its last repetition; the `[SE]` group is
   * only logged and is not kept.
   */
  datatype Groups = Groups(dt: Option<char>, sign: Option<char>, terms: Option<string>, units: Option<char>)

  /** The character classes of the pattern's groups. */
  datatype CharClass = LeadLetter | Sign | Digit | UnitLetter

  predicate In(c: char, cls: CharClass) {
    match cls
    case LeadLetter => c == 'T' || c == 'B' || c == 'D' || c == 'W' || c == 'M' || c == 'Q' || c == 'Y'
    case Sign => c == '+' || c == '-'
    case Digit => '0' <= c <= '9'
    case UnitLetter => c == 'D' || c == 'W' || c == 'M' || c == 'Q' || c == 'Y'
  }

  /** The end of the longest run of characters from `cs` starting at `k`. */
  function Run(s: string, k: nat, cs: CharClass): (e: nat)
    requires k <= |s|
    ensures k <= e <= |s|
    decreases |s| - k
  {
    if k < |s| && In(s[k], cs) then Run(s, k + 1, cs) else k
  }

  /** The run covers only characters of `cs` and stops at the first other one. */
  lemma {:induction false} RunSpan(s: string, k: nat, cs: CharClass)
    requires k <= |s|
    ensures forall i :: k <= i < Run(s, k, cs) ==> In(s[i], cs)
    ensures Run(s, k, cs) < |s| ==> !In(s[Run(s, k, cs)], cs)
    decreases |s| - k
  {
    if k < |s| && In(s[k], cs) {
      RunSpan(s, k + 1, cs);
    }
  }

  /** A run ends at the first character outside `cs`. */
  lemma {:induction false} RunEnds(s: string, k: nat, e: nat, cs: CharClass)
    requires k <= e <= |s|
    requires forall i :: k <= i < e ==> In(s[i], cs)
    requires e < |s| ==> !In(s[e], cs)
    ensures Run(s, k, cs) == e
    decreases e - k
  {
    if k < e {
      RunEnds(s, k + 1, e, cs);
    }
  }

  /** What a starred one-character group captures: its last repetition. */
  function Last(s: string, k: nat, e: nat): Option<char>
    requires k <= e <= |s|
  {
    if e > k then Some(s[e - 1]) else None
  }

  function Parse(pattern: string): Groups {
    ParseUpper(Upper(pattern))
  }

  function ParseUpper(u: string): Groups {
    var e1 := Run(u, 0, LeadLetter);
    var e2 := Run(u, e1, Sign);
    var e3 := Run(u, e2, Digit);
    var e4 := Run(u, e3, UnitLetter);
    Groups(Last(u, 0, e1), Last(u, e1, e2), if e3 > e2 then Some(u[e2..e3]) else None, Last(u, e3, e4))
  }

  /** `-1` for a `-` sign and `1` otherwise. */
  function Mult(g: Groups): int {
    if g.sign == Some('-') then -1 else 1
  }

  /** The unit letter, else the leading letter, else `D`. */
  function Unit(g: Groups): char {
    if g.units.Some? then g.units.value else if g.dt.Some? then g.dt.value else 'D'
  }

  /** The digits as a number, 0 without digits, times the sign. */
  function Count(g: Groups): int {
    if g.terms.Some? && forall i :: 0 <= i < |g.terms.value| ==> IsDigit(g.terms.value[i])
    then DigitsValue(g.terms.value) * Mult(g)
    else 0
  }

  /** A run over `piece` stops right after it when the next character is outside `cs`. */
  lemma RunPiece(s: string, k: nat, piece: string, rest: string, cs: CharClass)
    requires k <= |s| && s[k..] == piece + rest
    requires forall i :: 0 <= i < |piece| ==> In(piece[i], cs)
    requires rest == [] || !In(rest[0], cs)
    ensures Run(s, k, cs) == k + |piece| && s[k..k + |piece|] == piece
    ensures Last(s, k, k + |piece|) == (if piece == [] then None else Some(piece[|piece| - 1]))
  {
    assert forall i :: k <= i < k + |piece| ==> s[i] == s[k..][i - k];
    assert k + |piece| < |s| ==> s[k + |piece|] == s[k..][|piece|];
    RunEnds(s, k, k + |piece|, cs);
  }

  /** The piece that fills each group of a well-formed shortcut. */
  predicate ShapeParts(lead: string, sign: string, ds: string, unit: string, adjust: string) {
    (lead == [] || (|lead| == 1 && In(lead[0], LeadLetter))) &&
    (sign == [] || (|sign| == 1 && In(sign[0], Sign))) &&
    (forall i :: 0 <= i < |ds| ==> In(ds[i], Digit)) &&
    (unit == [] || (|unit| == 1 && In(unit[0], UnitLetter))) &&
    (adjust == [] || (!In(adjust[0], Sign) && !In(adjust[0], Digit) && !In(adjust[0], UnitLetter) &&
      (sign == [] && ds == [] ==> !In(adjust[0], LeadLetter))))
  }

  /** With neither sign nor digits, the leading run takes the unit letter too. */
  lemma ParseLettersOnly(lead: string, unit: string, adjust: string)
    requires ShapeParts(lead, [], [], unit, adjust)
    ensures var g := ParseUpper(lead + (unit + adjust));
      g.sign == None && g.terms == None && g.units == None &&
      g.dt == (if unit != [] then Some(unit[0]) else if lead != [] then Some(lead[0]) else None)
  {
    var u := lead + (unit + adjust);
    var e := |lead| + |unit|;
    assert adjust == [] || !In(adjust[0], Sign);
    assert u[0..] == (lead + unit) + adjust;
    RunPiece(u, 0, lead + unit, adjust, LeadLetter);
    assert u[e..] == adjust;
    RunPiece(u, e, [], adjust, Sign);
    RunPiece(u, e, [], adjust, Digit);
    RunPiece(u, e, [], adjust, UnitLetter);
  }

  /** The leading run of a shortcut with a sign or digits stops after the leading letter. */
  lemma ParseLead(lead: string, sign: string, ds: string, unit: string, adjust: string)
    requires ShapeParts(lead, sign, ds, unit, adjust)
    requires sign != [] || ds != []
    ensures var u := lead + (sign + (ds + (unit + adjust)));
      Run(u, 0, LeadLetter) == |lead| &&
      Last(u, 0, |lead|) == (if lead != [] then Some(lead[0]) else None)
  {
    var u := lead + (sign + (ds + (unit + adjust)));
    var rest := sign + (ds + (unit + adjust));
    if sign != [] {
      assert rest[0] == sign[0];
    } else {
      assert rest[0] == ds[0];
    }
    assert !In(rest[0], LeadLetter);
    assert u[0..] == lead + rest;
    RunPiece(u, 0, lead, rest, LeadLetter);
  }

  /** The sign run takes the sign. */
  lemma ParseSign(lead: string, sign: string, ds: string, unit: string, adjust: string)
    requires ShapeParts(lead, sign, ds, unit, adjust)
    ensures var u := lead + (sign + (ds + (unit + adjust)));
      Run(u, |lead|, Sign) == |lead| + |sign| &&
      Last(u, |lead|, |lead| + |sign|) == (if sign != [] then Some(sign[0]) else None)
  {
    var u := lead + (sign + (ds + (unit + adjust)));
    var rest := ds + (unit + adjust);
    assert rest == [] || !In(rest[0], Sign);
    assert u[|lead|..] == sign + rest;
    RunPiece(u, |lead|, sign, rest, Sign);
  }

  /** The digit run takes the digits. */
  lemma ParseDigits(lead: string, sign: string, ds: string, unit: string, adjust: string)
    requires ShapeParts(lead, sign, ds, unit, adjust)
    ensures var u := lead + (sign + (ds + (unit + adjust)));
      var b := |lead| + |sign|;
      Run(u, b, Digit) == b + |ds| && u[b..b + |ds|] == ds
  {
    var u := lead + (sign + (ds + (unit + adjust)));
    var b := |lead| + |sign|;
    var rest := unit + adjust;
    assert rest == [] || !In(rest[0], Digit);
    assert u[b..] == ds + rest;
    RunPiece(u, b, ds, rest, Digit);
  }

  /** The unit run takes the unit letter. */
  lemma ParseUnit(lead: string, sign: string, ds: string, unit: string, adjust: string)
    requires ShapeParts(lead, sign, ds, unit, adjust)
    ensures var u := lead + (sign + (ds + (unit + adjust)));
      var c := |lead| + |sign| + |ds|;
      Run(u, c, UnitLetter) == c + |unit| &&
      Last(u, c, c + |unit|) == (if unit != [] then Some(unit[0]) else None)
  {
    var u := lead + (sign + (ds + (unit + adjust)));
    var c := |lead| + |sign| + |ds|;
    assert adjust == [] || !In(adjust[0], UnitLetter);
    assert u[c..] == unit + adjust;
    RunPiece(u, c, unit, adjust, UnitLetter);
  }

  /** With a sign or digits, each group takes its own piece. */
  lemma ParseSignedOrCounted(lead: string, sign: string, ds: string, unit: string, adjust: string)
    requires ShapeParts(lead, sign, ds, unit, adjust)
    requires sign != [] || ds != []
    ensures var g := ParseUpper(lead + (sign + (ds + (unit + adjust))));
      g.dt == (if lead != [] then Some(lead[0]) else None) &&
      g.sign == (if sign != [] then Some(sign[0]) else None) &&
      g.terms == (if ds != [] then Some(ds) else None) &&
      g.units == (if unit != [] then Some(unit[0]) else None)
  {
    ParseLead(lead, sign, ds, unit, adjust);
    ParseSign(lead, sign, ds, unit, adjust);
    ParseDigits(lead, sign, ds, unit, adjust);
    ParseUnit(lead, sign, ds, unit, adjust);
  }

  /**
   * A pattern of the form `[lead][sign][digits][unit][S|E...]`, in any case, parses to
   * the trailing unit letter if there is one, else the leading letter, else `D`, with the
   * digits (0 when absent) negated by `-`.
   */
  lemma ParseShape(pattern: string, lead: string, sign: string, ds: string, unit: string, adjust: string)
    requires ShapeParts(lead, sign, ds, unit, adjust)
    requires Upper(pattern) == lead + (sign + (ds + (unit + adjust)))
    ensures var g := Parse(pattern);
      Unit(g) == (if unit != [] then unit[0] else if lead != [] then lead[0] else 'D') &&
      Mult(g) == (if sign == ['-'] then -1 else 1) &&
      Count(g) == (if ds == [] then 0 else DigitsValue(ds) * Mult(g))
  {
    if sign == [] && ds == [] {
      assert Upper(pattern) == lead + (unit + adjust);
      ParseLettersOnly(lead, unit, adjust);
    } else {
      ParseSignedOrCounted(lead, sign, ds, unit, adjust);
      assert forall i :: 0 <= i < |ds| ==> IsDigit(ds[i]);
    }
  }

  // ---------------------------------------------------------------------------------
  // date_modifier

  /** The date a shortcut gives from `base`, before formatting. */
  function Shifted(pattern: string, base: Date): (r: Result<Option<Date>>)
    requires Valid(base)
  {
    var g := Parse(pattern);
    Moved(Dated(base, Unit(g), Count(g)), pattern, Mult(g))
  }

  /** `date.strftime('%Y-%m-%d')`. */
  function Format(d: Date): (s: string)
    requires Valid(d)
  {
    (if d.year < 0 then "-" + NatToString(-d.year) else NatToString(d.year)) + "-" +
    PadNat(d.month, 2) + "-" + PadNat(d.day, 2)
  }

  /**
   * `date_modifier(pattern, base)`: the shifted date as text. When the leading letter group
   * ends in `B` and no unit letter follows, `dated` returns None; `move_date` then raises on
   * a raw `S`, `E` or `B` in the pattern, and otherwise `strftime` on None raises.
   */
  function DateModifier(pattern: string, base: Date): (r: Result<string>)
    requires Valid(base)
  {
    var moved :- Shifted(pattern, base);
    if moved.None? then Err(AttributeError("'NoneType' object has no attribute 'strftime'"))
    else Ok(Format(moved.value))
  }

  /**
   * A shortcut fails exactly when the pattern names both `E` and `S`, or its unit is one
   * `dated` does not know (a leading letter group ending in `B` with no unit letter after
   * it); otherwise it gives a valid date. With an unknown unit, the error comes from the
   * first step of `move_date` or `strftime` that touches the missing date.
   */
  lemma DateModifierOutcome(pattern: string, base: Date)
    requires Valid(base)
    ensures var g := Parse(pattern);
      DateModifier(pattern, base).Err? <==> ('E' in pattern && 'S' in pattern) || !KnownUnit(Unit(g))
    ensures var g := Parse(pattern);
      !KnownUnit(Unit(g)) && !('E' in pattern && 'S' in pattern) ==>
        DateModifier(pattern, base) == Err(
          if 'S' in pattern then AttributeError("'NoneType' object has no attribute 'replace'")
          else if 'E' in pattern then TypeError("unsupported operand type(s) for +: 'NoneType' and 'relativedelta'")
          else if 'B' in pattern then AttributeError("'NoneType' object has no attribute 'weekday'")
          else AttributeError("'NoneType' object has no attribute 'strftime'"))
    ensures Shifted(pattern, base).Ok? && Shifted(pattern, base).value.Some? ==> Valid(Shifted(pattern, base).value.value)
  {
    var g := Parse(pattern);
    var d := Dated(base, Unit(g), Count(g));
    if d.Some? {
      MovedSpec(d.value, pattern, Mult(g));
    }
  }

  // ---------------------------------------------------------------------------------
  // The formatted date reads back as the date

  lemma {:induction false} NatToStringLength(n: nat)
    ensures n < 10 ==> |NatToString(n)| == 1
    ensures 10 <= n < 100 ==> |NatToString(n)| == 2
    ensures 100 <= n < 1000 ==> |NatToString(n)| == 3
    ensures 1000 <= n < 10000 ==> |NatToString(n)| == 4
  {
    if n >= 10 {
      NatToStringLength(n / 10);
    }
  }

  lemma Pad2(n: nat)
    requires 1 <= n < 100
    ensures |PadNat(n, 2)| == 2 && DigitsValue(PadNat(n, 2)) == n
  {
    NatToStringLength(n);
    NatToStringValue(n);
    var d := NatToString(n);
    if n < 10 {
      var p := PadNat(n, 2);
      assert p == ['0'] + d;
      assert p[..1] == ['0'];
    }
  }

  /**
   * For the four-digit years the output covers, the text is `YYYY-MM-DD` and each field
   * reads back as the date's own.
   */
  lemma FormatReadsBack(d: Date)
    requires Valid(d) && 1000 <= d.year <= 9999
    ensures var s := Format(d);
      |s| == 10 && s[4] == '-' && s[7] == '-' &&
      DigitsValue(s[..4]) == d.year && DigitsValue(s[5..7]) == d.month && DigitsValue(s[8..]) == d.day
  {
    NatToStringLength(d.year);
    NatToStringValue(d.year);
    Pad2(d.month);
    Pad2(d.day);
    var s := Format(d);
    assert s == NatToString(d.year) + "-" + PadNat(d.month, 2) + "-" + PadNat(d.day, 2);
    assert s[..4] == NatToString(d.year);
    assert s[5..7] == PadNat(d.month, 2);
    assert s[8..] == PadNat(d.day, 2);
  }
}
