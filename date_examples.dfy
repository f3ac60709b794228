/**
 * The date shortcuts exercised by tests/test_utils.py, each stated for every base date,
 * and the expected results of those tests from 2024-11-10 (a Sunday) and 2024-02-29 (a
 * leap day), then shortcuts whose leading `B` leaves no date to move.
 */
module DateShortcuts {
  import opened Wrappers
  import opened Text
  import opened Dates


  lemma ParseToday()
    ensures Unit(Parse("T")) == 'T' && Count(Parse("T")) == 0 && Mult(Parse("T")) == 1
  {
    assert Upper("T") == "T" + ("" + ("" + ("" + "")));
    ParseShape("T", "T", "", "", "", "");
  }

  /** `move_date` on what `dated` gives for the groups of `T`. */
  lemma MovesToday(d: Date, g: Groups)
    requires Valid(d) && Unit(g) == 'T' && Count(g) == 0 && Mult(g) == 1
    ensures Moved(Dated(d, Unit(g), Count(g)), "T", Mult(g)) == Ok(Some(d))
  {
    var moved := Dated(d, 'T', 0);
    MovedSpec(moved.value, "T", 1);
  }

  /** `T` gives today. */
  lemma ShortcutToday(d: Date)
    requires Valid(d)
    ensures Shifted("T", d) == Ok(Some(d))
  {
    ParseToday();
    MovesToday(d, Parse("T"));
  }

  lemma ParseNextDay()
    ensures Unit(Parse("1")) == 'D' && Count(Parse("1")) == 1 && Mult(Parse("1")) == 1
  {
    assert Upper("1") == "" + ("" + ("1" + ("" + "")));
    ParseShape("1", "", "", "1", "", "");
  }

  /** `move_date` on what `dated` gives for the groups of `1`. */
  lemma MovesNextDay(d: Date, g: Groups)
    requires Valid(d) && Unit(g) == 'D' && Count(g) == 1 && Mult(g) == 1
    ensures Moved(Dated(d, Unit(g), Count(g)), "1", Mult(g)) == Ok(Some(NextDay(d)))
  {
    var moved := Dated(d, 'D', 1);
    MovedSpec(moved.value, "1", 1);
  }

  /** `1` gives the next day. */
  lemma ShortcutNextDay(d: Date)
    requires Valid(d)
    ensures Shifted("1", d) == Ok(Some(NextDay(d)))
  {
    ParseNextDay();
    MovesNextDay(d, Parse("1"));
  }

  lemma ParsePriorDay()
    ensures Unit(Parse("-1")) == 'D' && Count(Parse("-1")) == -1 && Mult(Parse("-1")) == -1
  {
    assert Upper("-1") == "" + ("-" + ("1" + ("" + "")));
    ParseShape("-1", "", "-", "1", "", "");
  }

  /** `move_date` on what `dated` gives for the groups of `-1`. */
  lemma MovesPriorDay(d: Date, g: Groups)
    requires Valid(d) && Unit(g) == 'D' && Count(g) == -1 && Mult(g) == -1
    ensures Moved(Dated(d, Unit(g), Count(g)), "-1", Mult(g)) == Ok(Some(PrevDay(d)))
  {
    var moved := Dated(d, 'D', -1);
    MovedSpec(moved.value, "-1", -1);
  }

  /** `-1` gives the day before. */
  lemma ShortcutPriorDay(d: Date)
    requires Valid(d)
    ensures Shifted("-1", d) == Ok(Some(PrevDay(d)))
  {
    ParsePriorDay();
    MovesPriorDay(d, Parse("-1"));
  }

  lemma ParsePriorTwoBusinessDays()
    ensures Unit(Parse("-2B")) == 'D' && Count(Parse("-2B")) == -2 && Mult(Parse("-2B")) == -1
  {
    assert Upper("-2B") == "" + ("-" + ("2" + ("" + "B")));
    ParseShape("-2B", "", "-", "2", "", "B");
  }

  /** `move_date` on what `dated` gives for the groups of `-2B`. */
  lemma MovesPriorTwoBusinessDays(d: Date, g: Groups)
    requires Valid(d) && Unit(g) == 'D' && Count(g) == -2 && Mult(g) == -1
    ensures Moved(Dated(d, Unit(g), Count(g)), "-2B", Mult(g)) == Ok(Some(ToWeekday(AddDays(d, -2), -1)))
  {
    var moved := Dated(d, 'D', -2);
    MovedSpec(moved.value, "-2B", -1);
  }

  /** `-2B` gives two days back, then back to a weekday. */
  lemma ShortcutPriorTwoBusinessDays(d: Date)
    requires Valid(d)
    ensures Shifted("-2B", d) == Ok(Some(ToWeekday(AddDays(d, -2), -1)))
  {
    ParsePriorTwoBusinessDays();
    MovesPriorTwoBusinessDays(d, Parse("-2B"));
  }

  lemma ParseMonthStart()
    ensures Unit(Parse("S")) == 'D' && Count(Parse("S")) == 0 && Mult(Parse("S")) == 1
  {
    assert Upper("S") == "" + ("" + ("" + ("" + "S")));
    ParseShape("S", "", "", "", "", "S");
  }

  /** `move_date` on what `dated` gives for the groups of `S`. */
  lemma MovesMonthStart(d: Date, g: Groups)
    requires Valid(d) && Unit(g) == 'D' && Count(g) == 0 && Mult(g) == 1
    ensures Moved(Dated(d, Unit(g), Count(g)), "S", Mult(g)) == Ok(Some(Date(d.year, d.month, 1)))
  {
    var moved := Dated(d, 'D', 0);
    MovedSpec(moved.value, "S", 1);
  }

  /** `S` gives the first of the month. */
  lemma ShortcutMonthStart(d: Date)
    requires Valid(d)
    ensures Shifted("S", d) == Ok(Some(Date(d.year, d.month, 1)))
  {
    ParseMonthStart();
    MovesMonthStart(d, Parse("S"));
  }

  lemma ParseMonthEnd()
    ensures Unit(Parse("ME")) == 'M' && Count(Parse("ME")) == 0 && Mult(Parse("ME")) == 1
  {
    assert Upper("ME") == "M" + ("" + ("" + ("" + "E")));
    ParseShape("ME", "M", "", "", "", "E");
  }

  /** `move_date` on what `dated` gives for the groups of `ME`. */
  lemma MovesMonthEnd(d: Date, g: Groups)
    requires Valid(d) && Unit(g) == 'M' && Count(g) == 0 && Mult(g) == 1
    ensures Moved(Dated(d, Unit(g), Count(g)), "ME", Mult(g)) == Ok(Some(LastOfMonth(d)))
  {
    assert AddMonths(d, 0) == d;
    MovedSpec(d, "ME", 1);
  }

  /** `ME` gives the last day of the month. */
  lemma ShortcutMonthEnd(d: Date)
    requires Valid(d)
    ensures Shifted("ME", d) == Ok(Some(LastOfMonth(d)))
  {
    ParseMonthEnd();
    MovesMonthEnd(d, Parse("ME"));
  }

  lemma ParseNextMonth()
    ensures Unit(Parse("1M")) == 'M' && Count(Parse("1M")) == 1 && Mult(Parse("1M")) == 1
  {
    assert Upper("1M") == "" + ("" + ("1" + ("M" + "")));
    ParseShape("1M", "", "", "1", "M", "");
  }

  /** `move_date` on what `dated` gives for the groups of `1M`. */
  lemma MovesNextMonth(d: Date, g: Groups)
    requires Valid(d) && Unit(g) == 'M' && Count(g) == 1 && Mult(g) == 1
    ensures Moved(Dated(d, Unit(g), Count(g)), "1M", Mult(g)) == Ok(Some(AddMonths(d, 1)))
  {
    MovedSpec(AddMonths(d, 1), "1M", 1);
  }

  /** `1M` gives the same day next month, clamped. */
  lemma ShortcutNextMonth(d: Date)
    requires Valid(d)
    ensures Shifted("1M", d) == Ok(Some(AddMonths(d, 1)))
  {
    ParseNextMonth();
    MovesNextMonth(d, Parse("1M"));
  }

  lemma ParseMonthEndThreeMonths()
    ensures Unit(Parse("3ME")) == 'M' && Count(Parse("3ME")) == 3 && Mult(Parse("3ME")) == 1
  {
    assert Upper("3ME") == "" + ("" + ("3" + ("M" + "E")));
    ParseShape("3ME", "", "", "3", "M", "E");
  }

  /** `move_date` on what `dated` gives for the groups of `3ME`. */
  lemma MovesMonthEndThreeMonths(d: Date, g: Groups)
    requires Valid(d) && Unit(g) == 'M' && Count(g) == 3 && Mult(g) == 1
    ensures Moved(Dated(d, Unit(g), Count(g)), "3ME", Mult(g)) == Ok(Some(LastOfMonth(AddMonths(d, 3))))
  {
    MovedSpec(AddMonths(d, 3), "3ME", 1);
  }

  /** `3ME` gives the last day of the month three months on. */
  lemma ShortcutMonthEndThreeMonths(d: Date)
    requires Valid(d)
    ensures Shifted("3ME", d) == Ok(Some(LastOfMonth(AddMonths(d, 3))))
  {
    ParseMonthEndThreeMonths();
    MovesMonthEndThreeMonths(d, Parse("3ME"));
  }

  lemma ParseQuarterEnd()
    ensures Unit(Parse("QE")) == 'Q' && Count(Parse("QE")) == 0 && Mult(Parse("QE")) == 1
  {
    assert Upper("QE") == "Q" + ("" + ("" + ("" + "E")));
    ParseShape("QE", "Q", "", "", "", "E");
  }

  /** `move_date` on what `dated` gives for the groups of `QE`. */
  lemma MovesQuarterEnd(d: Date, g: Groups)
    requires Valid(d) && Unit(g) == 'Q' && Count(g) == 0 && Mult(g) == 1
    ensures Moved(Dated(d, Unit(g), Count(g)), "QE", Mult(g)) == Ok(Some(QuarterEnd(d, 0)))
  {
    MovedSpec(QuarterEnd(d, 0), "QE", 1);
    QuarterEndSpec(d, 0);
  }

  /** `QE` gives the last day of the quarter. */
  lemma ShortcutQuarterEnd(d: Date)
    requires Valid(d)
    ensures Shifted("QE", d) == Ok(Some(QuarterEnd(d, 0)))
  {
    ParseQuarterEnd();
    MovesQuarterEnd(d, Parse("QE"));
  }

  lemma ParseFirstQuarterAfter()
    ensures Unit(Parse("1QE")) == 'Q' && Count(Parse("1QE")) == 1 && Mult(Parse("1QE")) == 1
  {
    assert Upper("1QE") == "" + ("" + ("1" + ("Q" + "E")));
    ParseShape("1QE", "", "", "1", "Q", "E");
  }

  /** `move_date` on what `dated` gives for the groups of `1QE`. */
  lemma MovesFirstQuarterAfter(d: Date, g: Groups)
    requires Valid(d) && Unit(g) == 'Q' && Count(g) == 1 && Mult(g) == 1
    ensures Moved(Dated(d, Unit(g), Count(g)), "1QE", Mult(g)) == Ok(Some(QuarterEnd(d, 1)))
  {
    MovedSpec(QuarterEnd(d, 1), "1QE", 1);
    QuarterEndSpec(d, 1);
  }

  /** `1QE` gives the last day of the next quarter. */
  lemma ShortcutFirstQuarterAfter(d: Date)
    requires Valid(d)
    ensures Shifted("1QE", d) == Ok(Some(QuarterEnd(d, 1)))
  {
    ParseFirstQuarterAfter();
    MovesFirstQuarterAfter(d, Parse("1QE"));
  }

  lemma ParseTwoQuartersAfter()
    ensures Unit(Parse("2QE")) == 'Q' && Count(Parse("2QE")) == 2 && Mult(Parse("2QE")) == 1
  {
    assert Upper("2QE") == "" + ("" + ("2" + ("Q" + "E")));
    ParseShape("2QE", "", "", "2", "Q", "E");
  }

  /** `move_date` on what `dated` gives for the groups of `2QE`. */
  lemma MovesTwoQuartersAfter(d: Date, g: Groups)
    requires Valid(d) && Unit(g) == 'Q' && Count(g) == 2 && Mult(g) == 1
    ensures Moved(Dated(d, Unit(g), Count(g)), "2QE", Mult(g)) == Ok(Some(QuarterEnd(d, 2)))
  {
    MovedSpec(QuarterEnd(d, 2), "2QE", 1);
    QuarterEndSpec(d, 2);
  }

  /** `2QE` gives the last day of the quarter after next. */
  lemma ShortcutTwoQuartersAfter(d: Date)
    requires Valid(d)
    ensures Shifted("2QE", d) == Ok(Some(QuarterEnd(d, 2)))
  {
    ParseTwoQuartersAfter();
    MovesTwoQuartersAfter(d, Parse("2QE"));
  }

  lemma ParseYearEnd()
    ensures Unit(Parse("YE")) == 'Y' && Count(Parse("YE")) == 0 && Mult(Parse("YE")) == 1
  {
    assert Upper("YE") == "Y" + ("" + ("" + ("" + "E")));
    ParseShape("YE", "Y", "", "", "", "E");
  }

  /** `move_date` on what `dated` gives for the groups of `YE`. */
  lemma MovesYearEnd(d: Date, g: Groups)
    requires Valid(d) && Unit(g) == 'Y' && Count(g) == 0 && Mult(g) == 1
    ensures Moved(Dated(d, Unit(g), Count(g)), "YE", Mult(g)) == Ok(Some(Date(d.year, 12, 31)))
  {
    var moved := Dated(d, 'Y', 0);
    MovedSpec(moved.value, "YE", 1);
  }

  /** `YE` gives December 31 of the same year. */
  lemma ShortcutYearEnd(d: Date)
    requires Valid(d)
    ensures Shifted("YE", d) == Ok(Some(Date(d.year, 12, 31)))
  {
    ParseYearEnd();
    MovesYearEnd(d, Parse("YE"));
  }

  /** The text `date_modifier` reports once the shifted date is known. */
  lemma Reported(pattern: string, base: Date, d: Date, s: string)
    requires Valid(base) && Valid(d)
    requires Shifted(pattern, base) == Ok(Some(d)) && Format(d) == s
    ensures DateModifier(pattern, base) == Ok(s)
  {
  }

  lemma Format2024_02_01()
    ensures Format(Date(2024, 2, 1)) == "2024-02-01"
  {
  }

  lemma Format2024_02_27()
    ensures Format(Date(2024, 2, 27)) == "2024-02-27"
  {
  }

  lemma Format2024_02_28()
    ensures Format(Date(2024, 2, 28)) == "2024-02-28"
  {
  }

  lemma Format2024_02_29()
    ensures Format(Date(2024, 2, 29)) == "2024-02-29"
  {
  }

  lemma Format2024_03_01()
    ensures Format(Date(2024, 3, 1)) == "2024-03-01"
  {
  }

  lemma Format2024_03_29()
    ensures Format(Date(2024, 3, 29)) == "2024-03-29"
  {
  }

  lemma Format2024_03_31()
    ensures Format(Date(2024, 3, 31)) == "2024-03-31"
  {
  }

  lemma Format2024_05_31()
    ensures Format(Date(2024, 5, 31)) == "2024-05-31"
  {
  }

  lemma Format2024_06_30()
    ensures Format(Date(2024, 6, 30)) == "2024-06-30"
  {
  }

  lemma Format2024_09_30()
    ensures Format(Date(2024, 9, 30)) == "2024-09-30"
  {
  }

  lemma Format2024_11_01()
    ensures Format(Date(2024, 11, 1)) == "2024-11-01"
  {
  }

  lemma Format2024_11_08()
    ensures Format(Date(2024, 11, 8)) == "2024-11-08"
  {
  }

  lemma Format2024_11_09()
    ensures Format(Date(2024, 11, 9)) == "2024-11-09"
  {
  }

  lemma Format2024_11_10()
    ensures Format(Date(2024, 11, 10)) == "2024-11-10"
  {
  }

  lemma Format2024_11_11()
    ensures Format(Date(2024, 11, 11)) == "2024-11-11"
  {
  }

  lemma Format2024_11_30()
    ensures Format(Date(2024, 11, 30)) == "2024-11-30"
  {
  }

  lemma Format2024_12_10()
    ensures Format(Date(2024, 12, 10)) == "2024-12-10"
  {
  }

  lemma Format2024_12_31()
    ensures Format(Date(2024, 12, 31)) == "2024-12-31"
  {
  }

  lemma Format2025_02_28()
    ensures Format(Date(2025, 2, 28)) == "2025-02-28"
  {
  }

  lemma Format2025_03_31()
    ensures Format(Date(2025, 3, 31)) == "2025-03-31"
  {
  }

  lemma Format2025_06_30()
    ensures Format(Date(2025, 6, 30)) == "2025-06-30"
  {
  }

  lemma TodayFromNov10()
    ensures DateModifier("T", Date(2024, 11, 10)) == Ok("2024-11-10")
  {
    ShortcutToday(Date(2024, 11, 10));
    Format2024_11_10();
    Reported("T", Date(2024, 11, 10), Date(2024, 11, 10), "2024-11-10");
  }

  lemma NextDayFromNov10()
    ensures DateModifier("1", Date(2024, 11, 10)) == Ok("2024-11-11")
  {
    ShortcutNextDay(Date(2024, 11, 10));
    NextDayFromNov10Value();
    Format2024_11_11();
    Reported("1", Date(2024, 11, 10), Date(2024, 11, 11), "2024-11-11");
  }

  lemma PriorDayFromNov10()
    ensures DateModifier("-1", Date(2024, 11, 10)) == Ok("2024-11-09")
  {
    ShortcutPriorDay(Date(2024, 11, 10));
    PriorDayFromNov10Value();
    Format2024_11_09();
    Reported("-1", Date(2024, 11, 10), Date(2024, 11, 9), "2024-11-09");
  }

  lemma PriorTwoBusinessDaysFromNov10()
    ensures DateModifier("-2B", Date(2024, 11, 10)) == Ok("2024-11-08")
  {
    ShortcutPriorTwoBusinessDays(Date(2024, 11, 10));
    PriorTwoBusinessDaysFromNov10Value();
    Format2024_11_08();
    Reported("-2B", Date(2024, 11, 10), Date(2024, 11, 8), "2024-11-08");
  }

  lemma MonthStartFromNov10()
    ensures DateModifier("S", Date(2024, 11, 10)) == Ok("2024-11-01")
  {
    ShortcutMonthStart(Date(2024, 11, 10));
    Format2024_11_01();
    Reported("S", Date(2024, 11, 10), Date(2024, 11, 1), "2024-11-01");
  }

  lemma MonthEndFromNov10()
    ensures DateModifier("ME", Date(2024, 11, 10)) == Ok("2024-11-30")
  {
    ShortcutMonthEnd(Date(2024, 11, 10));
    MonthEndFromNov10Value();
    Format2024_11_30();
    Reported("ME", Date(2024, 11, 10), Date(2024, 11, 30), "2024-11-30");
  }

  lemma NextMonthFromNov10()
    ensures DateModifier("1M", Date(2024, 11, 10)) == Ok("2024-12-10")
  {
    ShortcutNextMonth(Date(2024, 11, 10));
    NextMonthFromNov10Value();
    Format2024_12_10();
    Reported("1M", Date(2024, 11, 10), Date(2024, 12, 10), "2024-12-10");
  }

  lemma MonthEndThreeMonthsFromNov10()
    ensures DateModifier("3ME", Date(2024, 11, 10)) == Ok("2025-02-28")
  {
    ShortcutMonthEndThreeMonths(Date(2024, 11, 10));
    MonthEndThreeMonthsFromNov10Value();
    Format2025_02_28();
    Reported("3ME", Date(2024, 11, 10), Date(2025, 2, 28), "2025-02-28");
  }

  lemma QuarterEndFromNov10()
    ensures DateModifier("QE", Date(2024, 11, 10)) == Ok("2024-12-31")
  {
    ShortcutQuarterEnd(Date(2024, 11, 10));
    QuarterEndFromNov10Value();
    Format2024_12_31();
    Reported("QE", Date(2024, 11, 10), Date(2024, 12, 31), "2024-12-31");
  }

  lemma FirstQuarterAfterFromNov10()
    ensures DateModifier("1QE", Date(2024, 11, 10)) == Ok("2025-03-31")
  {
    ShortcutFirstQuarterAfter(Date(2024, 11, 10));
    FirstQuarterAfterFromNov10Value();
    Format2025_03_31();
    Reported("1QE", Date(2024, 11, 10), Date(2025, 3, 31), "2025-03-31");
  }

  lemma TwoQuartersAfterFromNov10()
    ensures DateModifier("2QE", Date(2024, 11, 10)) == Ok("2025-06-30")
  {
    ShortcutTwoQuartersAfter(Date(2024, 11, 10));
    TwoQuartersAfterFromNov10Value();
    Format2025_06_30();
    Reported("2QE", Date(2024, 11, 10), Date(2025, 6, 30), "2025-06-30");
  }

  lemma YearEndFromNov10()
    ensures DateModifier("YE", Date(2024, 11, 10)) == Ok("2024-12-31")
  {
    ShortcutYearEnd(Date(2024, 11, 10));
    Format2024_12_31();
    Reported("YE", Date(2024, 11, 10), Date(2024, 12, 31), "2024-12-31");
  }

  lemma TodayFromFeb29()
    ensures DateModifier("T", Date(2024, 2, 29)) == Ok("2024-02-29")
  {
    ShortcutToday(Date(2024, 2, 29));
    Format2024_02_29();
    Reported("T", Date(2024, 2, 29), Date(2024, 2, 29), "2024-02-29");
  }

  lemma NextDayFromFeb29()
    ensures DateModifier("1", Date(2024, 2, 29)) == Ok("2024-03-01")
  {
    ShortcutNextDay(Date(2024, 2, 29));
    NextDayFromFeb29Value();
    Format2024_03_01();
    Reported("1", Date(2024, 2, 29), Date(2024, 3, 1), "2024-03-01");
  }

  lemma PriorDayFromFeb29()
    ensures DateModifier("-1", Date(2024, 2, 29)) == Ok("2024-02-28")
  {
    ShortcutPriorDay(Date(2024, 2, 29));
    PriorDayFromFeb29Value();
    Format2024_02_28();
    Reported("-1", Date(2024, 2, 29), Date(2024, 2, 28), "2024-02-28");
  }

  lemma PriorTwoBusinessDaysFromFeb29()
    ensures DateModifier("-2B", Date(2024, 2, 29)) == Ok("2024-02-27")
  {
    ShortcutPriorTwoBusinessDays(Date(2024, 2, 29));
    PriorTwoBusinessDaysFromFeb29Value();
    Format2024_02_27();
    Reported("-2B", Date(2024, 2, 29), Date(2024, 2, 27), "2024-02-27");
  }

  lemma MonthStartFromFeb29()
    ensures DateModifier("S", Date(2024, 2, 29)) == Ok("2024-02-01")
  {
    ShortcutMonthStart(Date(2024, 2, 29));
    Format2024_02_01();
    Reported("S", Date(2024, 2, 29), Date(2024, 2, 1), "2024-02-01");
  }

  lemma MonthEndFromFeb29()
    ensures DateModifier("ME", Date(2024, 2, 29)) == Ok("2024-02-29")
  {
    ShortcutMonthEnd(Date(2024, 2, 29));
    MonthEndFromFeb29Value();
    Format2024_02_29();
    Reported("ME", Date(2024, 2, 29), Date(2024, 2, 29), "2024-02-29");
  }

  lemma NextMonthFromFeb29()
    ensures DateModifier("1M", Date(2024, 2, 29)) == Ok("2024-03-29")
  {
    ShortcutNextMonth(Date(2024, 2, 29));
    NextMonthFromFeb29Value();
    Format2024_03_29();
    Reported("1M", Date(2024, 2, 29), Date(2024, 3, 29), "2024-03-29");
  }

  lemma MonthEndThreeMonthsFromFeb29()
    ensures DateModifier("3ME", Date(2024, 2, 29)) == Ok("2024-05-31")
  {
    ShortcutMonthEndThreeMonths(Date(2024, 2, 29));
    MonthEndThreeMonthsFromFeb29Value();
    Format2024_05_31();
    Reported("3ME", Date(2024, 2, 29), Date(2024, 5, 31), "2024-05-31");
  }

  lemma QuarterEndFromFeb29()
    ensures DateModifier("QE", Date(2024, 2, 29)) == Ok("2024-03-31")
  {
    ShortcutQuarterEnd(Date(2024, 2, 29));
    QuarterEndFromFeb29Value();
    Format2024_03_31();
    Reported("QE", Date(2024, 2, 29), Date(2024, 3, 31), "2024-03-31");
  }

  lemma FirstQuarterAfterFromFeb29()
    ensures DateModifier("1QE", Date(2024, 2, 29)) == Ok("2024-06-30")
  {
    ShortcutFirstQuarterAfter(Date(2024, 2, 29));
    FirstQuarterAfterFromFeb29Value();
    Format2024_06_30();
    Reported("1QE", Date(2024, 2, 29), Date(2024, 6, 30), "2024-06-30");
  }

  lemma TwoQuartersAfterFromFeb29()
    ensures DateModifier("2QE", Date(2024, 2, 29)) == Ok("2024-09-30")
  {
    ShortcutTwoQuartersAfter(Date(2024, 2, 29));
    TwoQuartersAfterFromFeb29Value();
    Format2024_09_30();
    Reported("2QE", Date(2024, 2, 29), Date(2024, 9, 30), "2024-09-30");
  }

  lemma YearEndFromFeb29()
    ensures DateModifier("YE", Date(2024, 2, 29)) == Ok("2024-12-31")
  {
    ShortcutYearEnd(Date(2024, 2, 29));
    Format2024_12_31();
    Reported("YE", Date(2024, 2, 29), Date(2024, 12, 31), "2024-12-31");
  }

  lemma NextDayFromNov10Value()
    ensures NextDay(Date(2024, 11, 10)) == Date(2024, 11, 11)
  {
  }

  lemma PriorDayFromNov10Value()
    ensures PrevDay(Date(2024, 11, 10)) == Date(2024, 11, 9)
  {
  }

  lemma PriorTwoBusinessDaysFromNov10Value()
    ensures ToWeekday(AddDays(Date(2024, 11, 10), -2), -1) == Date(2024, 11, 8)
  {
    assert AddDays(Date(2024, 11, 10), -2) == Date(2024, 11, 8);
    assert Weekday(Date(2024, 11, 8)) == 4;
  }

  lemma MonthEndFromNov10Value()
    ensures LastOfMonth(Date(2024, 11, 10)) == Date(2024, 11, 30)
  {
  }

  lemma NextMonthFromNov10Value()
    ensures AddMonths(Date(2024, 11, 10), 1) == Date(2024, 12, 10)
  {
  }

  lemma MonthEndThreeMonthsFromNov10Value()
    ensures LastOfMonth(AddMonths(Date(2024, 11, 10), 3)) == Date(2025, 2, 28)
  {
  }

  lemma QuarterEndFromNov10Value()
    ensures QuarterEnd(Date(2024, 11, 10), 0) == Date(2024, 12, 31)
  {
  }

  lemma FirstQuarterAfterFromNov10Value()
    ensures QuarterEnd(Date(2024, 11, 10), 1) == Date(2025, 3, 31)
  {
  }

  lemma TwoQuartersAfterFromNov10Value()
    ensures QuarterEnd(Date(2024, 11, 10), 2) == Date(2025, 6, 30)
  {
  }

  lemma NextDayFromFeb29Value()
    ensures NextDay(Date(2024, 2, 29)) == Date(2024, 3, 1)
  {
  }

  lemma PriorDayFromFeb29Value()
    ensures PrevDay(Date(2024, 2, 29)) == Date(2024, 2, 28)
  {
  }

  lemma PriorTwoBusinessDaysFromFeb29Value()
    ensures ToWeekday(AddDays(Date(2024, 2, 29), -2), -1) == Date(2024, 2, 27)
  {
    assert AddDays(Date(2024, 2, 29), -2) == Date(2024, 2, 27);
    assert Weekday(Date(2024, 2, 27)) == 1;
  }

  lemma MonthEndFromFeb29Value()
    ensures LastOfMonth(Date(2024, 2, 29)) == Date(2024, 2, 29)
  {
  }

  lemma NextMonthFromFeb29Value()
    ensures AddMonths(Date(2024, 2, 29), 1) == Date(2024, 3, 29)
  {
  }

  lemma MonthEndThreeMonthsFromFeb29Value()
    ensures LastOfMonth(AddMonths(Date(2024, 2, 29), 3)) == Date(2024, 5, 31)
  {
  }

  lemma QuarterEndFromFeb29Value()
    ensures QuarterEnd(Date(2024, 2, 29), 0) == Date(2024, 3, 31)
  {
  }

  lemma FirstQuarterAfterFromFeb29Value()
    ensures QuarterEnd(Date(2024, 2, 29), 1) == Date(2024, 6, 30)
  {
  }

  lemma TwoQuartersAfterFromFeb29Value()
    ensures QuarterEnd(Date(2024, 2, 29), 2) == Date(2024, 9, 30)
  {
  }

  /**
   * A leading letter group ending in `B` with no unit letter after it leaves `dated` with
   * nothing, and an upper-case `B` in the raw pattern makes `move_date` call `weekday` on
   * None.
   */
  lemma BareBusinessDay(d: Date)
    requires Valid(d)
    ensures DateModifier("B", d) == Err(AttributeError("'NoneType' object has no attribute 'weekday'"))
  {
    var u := Upper("B");
    assert u == "B" + [];
    RunPiece(u, 0, "B", [], LeadLetter);
    RunPiece(u, 1, [], [], Sign);
    RunPiece(u, 1, [], [], Digit);
    RunPiece(u, 1, [], [], UnitLetter);
    assert Unit(Parse("B")) == 'B';
    DateModifierOutcome("B", d);
  }

  /** The group keeps its last letter, so `TB` has the unit `B` as well. */
  lemma TodayBusinessDay(d: Date)
    requires Valid(d)
    ensures DateModifier("TB", d) == Err(AttributeError("'NoneType' object has no attribute 'weekday'"))
  {
    var u := Upper("TB");
    assert u == "TB" + [];
    RunPiece(u, 0, "TB", [], LeadLetter);
    RunPiece(u, 2, [], [], Sign);
    RunPiece(u, 2, [], [], Digit);
    RunPiece(u, 2, [], [], UnitLetter);
    assert Unit(Parse("TB")) == 'B';
    DateModifierOutcome("TB", d);
  }

  /**
   * A lower-case `b` is upper-cased only for the match. The raw pattern holds no `B`, so
   * `move_date` passes None through and `strftime` on it raises.
   */
  lemma LowerBusinessDay(d: Date)
    requires Valid(d)
    ensures DateModifier("b", d) == Err(AttributeError("'NoneType' object has no attribute 'strftime'"))
  {
    var u := Upper("b");
    assert u == "B" + [];
    RunPiece(u, 0, "B", [], LeadLetter);
    RunPiece(u, 1, [], [], Sign);
    RunPiece(u, 1, [], [], Digit);
    RunPiece(u, 1, [], [], UnitLetter);
    assert Unit(Parse("b")) == 'B';
    DateModifierOutcome("b", d);
  }
}
