/**
 * Worked examples of `parse_date_range`, each proved by evaluating the
 * matchers on one concrete input.
 */
module DateRangeExamples {
  import opened Wrappers
  import opened Text
  import opened DateRangeParser
  import Dates

  // -------------------------------------------------------------------
  // January 15 - April 4, 2026
  // -------------------------------------------------------------------

  lemma JanuaryMonthFirstMatchRuns0()
    ensures RunEnd("january 15 - april 4, 2026", 21, Space) == 22
    ensures RunEnd("january 15 - april 4, 2026", 19, Digit) == 20
    ensures RunEnd("january 15 - april 4, 2026", 17, Word) == 18
  {
  }

  lemma JanuaryMonthFirstMatchRuns1()
    ensures RunEnd("january 15 - april 4, 2026", 13, Word) == 18
    ensures RunEnd("january 15 - april 4, 2026", 12, Space) == 13
    ensures RunEnd("january 15 - april 4, 2026", 10, Space) == 11
  {
  }

  lemma JanuaryMonthFirstMatchRuns2()
    ensures RunEnd("january 15 - april 4, 2026", 8, Digit) == 10
    ensures RunEnd("january 15 - april 4, 2026", 4, Word) == 7
    ensures RunEnd("january 15 - april 4, 2026", 0, Word) == 7
  {
  }

  lemma JanuaryMonthFirstMatchYear()
    ensures GroupThenYear("january 15 - april 4, 2026", 19, 20, true) == Some((20, 22))
  {
    assert RunEnd("january 15 - april 4, 2026", 21, Space) == 22;
  }

  lemma JanuaryMonthFirstMatchGroup0()
    ensures "january 15 - april 4, 2026"[0..10] == "january 15"
  {
    assert AgreeFrom("january 15 - april 4, 2026", "january 15", 0, 8);
    assert AgreeFrom("january 15 - april 4, 2026", "january 15", 0, 4);
    assert OccursAt("january 15 - april 4, 2026", "january 15", 0);
    OccursAtMeansSlice("january 15 - april 4, 2026", "january 15", 0);
  }

  lemma JanuaryMonthFirstMatchGroup1()
    ensures "january 15 - april 4, 2026"[13..20] == "april 4"
  {
    assert AgreeFrom("january 15 - april 4, 2026", "april 4", 13, 4);
    assert OccursAt("january 15 - april 4, 2026", "april 4", 13);
    OccursAtMeansSlice("january 15 - april 4, 2026", "april 4", 13);
  }

  lemma JanuaryMonthFirstMatchGroup2()
    ensures "january 15 - april 4, 2026"[22..26] == "2026"
  {
  }

  lemma JanuaryMonthFirstMatch()
    ensures MatchAt(MonthFirst, "january 15 - april 4, 2026", 0) == Some(["january 15", "april 4", "2026"])
  {
    JanuaryMonthFirstMatchRuns0();
    JanuaryMonthFirstMatchRuns1();
    JanuaryMonthFirstMatchRuns2();
    JanuaryMonthFirstMatchYear();
    JanuaryMonthFirstMatchGroup0();
    JanuaryMonthFirstMatchGroup1();
    JanuaryMonthFirstMatchGroup2();
  }

  lemma JanuarySearches()
    ensures Search(MonthFirst, "january 15 - april 4, 2026") == Some((0, ["january 15", "april 4", "2026"]))
  {
    JanuaryMonthFirstMatch();
    SearchFindsFirst(MonthFirst, "january 15 - april 4, 2026", 0);
  }

  lemma JanuarySide0Month()
    ensures MonthOf("january 15") == Some(1)
  {
    assert MonthTable[0].0 == "january";
    assert Contains("january 15", "january");
  }

  lemma JanuarySide0()
    ensures ParseSide("january 15", 2026) == Bound(Ymd(2026, 1, 15))
  {
    JanuarySide0Month();
    assert RunEnd("january 15", 8, Digit) == 10;
    assert "january 15"[8..10] == "15";
    assert Decimal(15) == "15";
    assert FirstDigitRun("january 15") == Some("15");
  }

  lemma JanuarySide1Month()
    ensures MonthOf("april 4") == Some(4)
  {
    assert MonthTable[3].0 == "april";
    assert !Contains("april 4", "january");
    assert !Contains("april 4", "february");
    assert !Contains("april 4", "march");
    assert Contains("april 4", "april");
  }

  lemma JanuarySide1()
    ensures ParseSide("april 4", 2026) == Bound(Ymd(2026, 4, 4))
  {
    JanuarySide1Month();
    assert RunEnd("april 4", 6, Digit) == 7;
    assert "april 4"[6..7] == "4";
    assert Decimal(4) == "4";
    assert FirstDigitRun("april 4") == Some("4");
  }

  lemma JanuaryAttempts()
    ensures AttemptGroups("january 15", "april 4", "2026", Unbound) == Returned(Ymd(2026, 1, 15), Ymd(2026, 4, 4))
  {
    assert Decimal(2026) == "2026";
    JanuarySide0();
    JanuarySide1();
  }

  lemma JanuaryPatterns()
    ensures TryPatterns("january 15 - april 4, 2026", Patterns, Unbound, true) == Some((Ymd(2026, 1, 15), Ymd(2026, 4, 4)))
  {
    JanuarySearches();
    JanuaryAttempts();
    assert Patterns[1..] == [DayFirst, FullDates];
    assert Patterns[1..][1..] == [FullDates];
  }

  lemma JanuaryLowered()
    ensures Lower("January 15 - April 4, 2026") == "january 15 - april 4, 2026"
  {
  }

  lemma JanuaryFields()
    ensures ParseDateFields("January 15 - April 4, 2026") == Some((Ymd(2026, 1, 15), Ymd(2026, 4, 4)))
  {
    JanuaryLowered();
    FieldsOfLowered("January 15 - April 4, 2026", "january 15 - april 4, 2026");
    JanuaryPatterns();
  }

  lemma JanuaryFormatted0()
    ensures FormatYmd(Ymd(2026, 1, 15)) == "2026-01-15"
  {
  }

  lemma JanuaryFormatted1()
    ensures FormatYmd(Ymd(2026, 4, 4)) == "2026-04-04"
  {
  }

  /** A month-first range with the year at the end: both dates take that year. */
  lemma ExampleMonthFirst()
    ensures ParseDateRange("January 15 - April 4, 2026") == Some(("2026-01-15", "2026-04-04"))
  {
    JanuaryFields();
    RangeOfFields("January 15 - April 4, 2026", Ymd(2026, 1, 15), Ymd(2026, 4, 4));
    JanuaryFormatted0();
    JanuaryFormatted1();
  }

  // -------------------------------------------------------------------
  // 15 Jan - 4 Apr 2026
  // -------------------------------------------------------------------

  lemma FifteenJanNoMonthFirstAt0()
    ensures MatchAt(MonthFirst, "15 jan - 4 apr 2026", 0).None?
  {
    assert RunEnd("15 jan - 4 apr 2026", 3, Digit) == 3;
    assert RunEnd("15 jan - 4 apr 2026", 0, Word) == 2;
  }

  lemma FifteenJanNoMonthFirstAt1()
    ensures MatchAt(MonthFirst, "15 jan - 4 apr 2026", 1).None?
  {
    assert RunEnd("15 jan - 4 apr 2026", 3, Digit) == 3;
    assert RunEnd("15 jan - 4 apr 2026", 1, Word) == 2;
  }

  lemma FifteenJanNoMonthFirstAt2()
    ensures MatchAt(MonthFirst, "15 jan - 4 apr 2026", 2).None?
  {
    assert RunEnd("15 jan - 4 apr 2026", 2, Word) == 2;
  }

  lemma FifteenJanNoMonthFirstAt3()
    ensures MatchAt(MonthFirst, "15 jan - 4 apr 2026", 3).None?
  {
    assert RunEnd("15 jan - 4 apr 2026", 7, Digit) == 7;
    assert RunEnd("15 jan - 4 apr 2026", 3, Word) == 6;
  }

  lemma FifteenJanNoMonthFirstAt4()
    ensures MatchAt(MonthFirst, "15 jan - 4 apr 2026", 4).None?
  {
    assert RunEnd("15 jan - 4 apr 2026", 7, Digit) == 7;
    assert RunEnd("15 jan - 4 apr 2026", 4, Word) == 6;
  }

  lemma FifteenJanNoMonthFirstAt5()
    ensures MatchAt(MonthFirst, "15 jan - 4 apr 2026", 5).None?
  {
    assert RunEnd("15 jan - 4 apr 2026", 7, Digit) == 7;
    assert RunEnd("15 jan - 4 apr 2026", 5, Word) == 6;
  }

  lemma FifteenJanNoMonthFirstAt6()
    ensures MatchAt(MonthFirst, "15 jan - 4 apr 2026", 6).None?
  {
    assert RunEnd("15 jan - 4 apr 2026", 6, Word) == 6;
  }

  lemma FifteenJanNoMonthFirstAt7()
    ensures MatchAt(MonthFirst, "15 jan - 4 apr 2026", 7).None?
  {
    assert RunEnd("15 jan - 4 apr 2026", 7, Word) == 7;
  }

  lemma FifteenJanNoMonthFirstAt8()
    ensures MatchAt(MonthFirst, "15 jan - 4 apr 2026", 8).None?
  {
    assert RunEnd("15 jan - 4 apr 2026", 8, Word) == 8;
  }

  lemma FifteenJanNoMonthFirstAt9()
    ensures MatchAt(MonthFirst, "15 jan - 4 apr 2026", 9).None?
  {
    assert RunEnd("15 jan - 4 apr 2026", 11, Digit) == 11;
    assert RunEnd("15 jan - 4 apr 2026", 9, Word) == 10;
  }

  lemma FifteenJanNoMonthFirstAt10()
    ensures MatchAt(MonthFirst, "15 jan - 4 apr 2026", 10).None?
  {
    assert RunEnd("15 jan - 4 apr 2026", 10, Word) == 10;
  }

  lemma FifteenJanNoMonthFirstAt11()
    ensures MatchAt(MonthFirst, "15 jan - 4 apr 2026", 11).None?
  {
    assert RunEnd("15 jan - 4 apr 2026", 19, Space) == 19;
    assert RunEnd("15 jan - 4 apr 2026", 15, Digit) == 19;
    assert RunEnd("15 jan - 4 apr 2026", 11, Word) == 14;
  }

  lemma FifteenJanNoMonthFirstAt12()
    ensures MatchAt(MonthFirst, "15 jan - 4 apr 2026", 12).None?
  {
    assert RunEnd("15 jan - 4 apr 2026", 19, Space) == 19;
    assert RunEnd("15 jan - 4 apr 2026", 15, Digit) == 19;
    assert RunEnd("15 jan - 4 apr 2026", 12, Word) == 14;
  }

  lemma FifteenJanNoMonthFirstAt13()
    ensures MatchAt(MonthFirst, "15 jan - 4 apr 2026", 13).None?
  {
    assert RunEnd("15 jan - 4 apr 2026", 19, Space) == 19;
    assert RunEnd("15 jan - 4 apr 2026", 15, Digit) == 19;
    assert RunEnd("15 jan - 4 apr 2026", 13, Word) == 14;
  }

  lemma FifteenJanNoMonthFirstAt14()
    ensures MatchAt(MonthFirst, "15 jan - 4 apr 2026", 14).None?
  {
    assert RunEnd("15 jan - 4 apr 2026", 14, Word) == 14;
  }

  lemma FifteenJanNoMonthFirstAt15()
    ensures MatchAt(MonthFirst, "15 jan - 4 apr 2026", 15).None?
  {
    assert RunEnd("15 jan - 4 apr 2026", 15, Word) == 19;
  }

  lemma FifteenJanNoMonthFirstAt16()
    ensures MatchAt(MonthFirst, "15 jan - 4 apr 2026", 16).None?
  {
    assert RunEnd("15 jan - 4 apr 2026", 16, Word) == 19;
  }

  lemma FifteenJanNoMonthFirstAt17()
    ensures MatchAt(MonthFirst, "15 jan - 4 apr 2026", 17).None?
  {
    assert RunEnd("15 jan - 4 apr 2026", 17, Word) == 19;
  }

  lemma FifteenJanNoMonthFirstAt18()
    ensures MatchAt(MonthFirst, "15 jan - 4 apr 2026", 18).None?
  {
    assert RunEnd("15 jan - 4 apr 2026", 18, Word) == 19;
  }

  lemma FifteenJanNoMonthFirstAt19()
    ensures MatchAt(MonthFirst, "15 jan - 4 apr 2026", 19).None?
  {
    assert RunEnd("15 jan - 4 apr 2026", 19, Word) == 19;
  }

  lemma FifteenJanNoMonthFirst(k: nat)
    requires k < 20
    ensures MatchAt(MonthFirst, "15 jan - 4 apr 2026", k).None?
  {
    if k == 0 {
      FifteenJanNoMonthFirstAt0();
    } else if k == 1 {
      FifteenJanNoMonthFirstAt1();
    } else if k == 2 {
      FifteenJanNoMonthFirstAt2();
    } else if k == 3 {
      FifteenJanNoMonthFirstAt3();
    } else if k == 4 {
      FifteenJanNoMonthFirstAt4();
    } else if k == 5 {
      FifteenJanNoMonthFirstAt5();
    } else if k == 6 {
      FifteenJanNoMonthFirstAt6();
    } else if k == 7 {
      FifteenJanNoMonthFirstAt7();
    } else if k == 8 {
      FifteenJanNoMonthFirstAt8();
    } else if k == 9 {
      FifteenJanNoMonthFirstAt9();
    } else if k == 10 {
      FifteenJanNoMonthFirstAt10();
    } else if k == 11 {
      FifteenJanNoMonthFirstAt11();
    } else if k == 12 {
      FifteenJanNoMonthFirstAt12();
    } else if k == 13 {
      FifteenJanNoMonthFirstAt13();
    } else if k == 14 {
      FifteenJanNoMonthFirstAt14();
    } else if k == 15 {
      FifteenJanNoMonthFirstAt15();
    } else if k == 16 {
      FifteenJanNoMonthFirstAt16();
    } else if k == 17 {
      FifteenJanNoMonthFirstAt17();
    } else if k == 18 {
      FifteenJanNoMonthFirstAt18();
    } else {
      FifteenJanNoMonthFirstAt19();
    }
  }

  lemma FifteenJanDayFirstMatchRuns0()
    ensures RunEnd("15 jan - 4 apr 2026", 14, Space) == 15
    ensures RunEnd("15 jan - 4 apr 2026", 11, Word) == 14
    ensures RunEnd("15 jan - 4 apr 2026", 9, Digit) == 10
  {
  }

  lemma FifteenJanDayFirstMatchRuns1()
    ensures RunEnd("15 jan - 4 apr 2026", 8, Space) == 9
    ensures RunEnd("15 jan - 4 apr 2026", 6, Space) == 7
    ensures RunEnd("15 jan - 4 apr 2026", 3, Word) == 6
  {
  }

  lemma FifteenJanDayFirstMatchRuns2()
    ensures RunEnd("15 jan - 4 apr 2026", 0, Digit) == 2
  {
  }

  lemma FifteenJanDayFirstMatchYear()
    ensures GroupThenYear("15 jan - 4 apr 2026", 11, 14, false) == Some((14, 15))
  {
    assert RunEnd("15 jan - 4 apr 2026", 14, Space) == 15;
  }

  lemma FifteenJanDayFirstMatchGroup0()
    ensures "15 jan - 4 apr 2026"[0..6] == "15 jan"
  {
    assert AgreeFrom("15 jan - 4 apr 2026", "15 jan", 0, 4);
    assert OccursAt("15 jan - 4 apr 2026", "15 jan", 0);
    OccursAtMeansSlice("15 jan - 4 apr 2026", "15 jan", 0);
  }

  lemma FifteenJanDayFirstMatchGroup1()
    ensures "15 jan - 4 apr 2026"[9..14] == "4 apr"
  {
    assert AgreeFrom("15 jan - 4 apr 2026", "4 apr", 9, 4);
    assert OccursAt("15 jan - 4 apr 2026", "4 apr", 9);
    OccursAtMeansSlice("15 jan - 4 apr 2026", "4 apr", 9);
  }

  lemma FifteenJanDayFirstMatchGroup2()
    ensures "15 jan - 4 apr 2026"[15..19] == "2026"
  {
  }

  lemma FifteenJanDayFirstMatch()
    ensures MatchAt(DayFirst, "15 jan - 4 apr 2026", 0) == Some(["15 jan", "4 apr", "2026"])
  {
    FifteenJanDayFirstMatchRuns0();
    FifteenJanDayFirstMatchRuns1();
    FifteenJanDayFirstMatchRuns2();
    FifteenJanDayFirstMatchYear();
    FifteenJanDayFirstMatchGroup0();
    FifteenJanDayFirstMatchGroup1();
    FifteenJanDayFirstMatchGroup2();
  }

  lemma FifteenJanSearches()
    ensures Search(MonthFirst, "15 jan - 4 apr 2026") == None
    ensures Search(DayFirst, "15 jan - 4 apr 2026") == Some((0, ["15 jan", "4 apr", "2026"]))
  {
    forall k | 0 <= k <= 19
      ensures MatchAt(MonthFirst, "15 jan - 4 apr 2026", k).None?
    {
      FifteenJanNoMonthFirst(k);
    }
    FifteenJanDayFirstMatch();
    SearchFindsFirst(DayFirst, "15 jan - 4 apr 2026", 0);
  }

  lemma FifteenJanSide0Names0()
    ensures !Contains("15 jan", "january")
    ensures !Contains("15 jan", "february")
    ensures !Contains("15 jan", "march")
    ensures !Contains("15 jan", "april")
    ensures !Contains("15 jan", "may")
    ensures !Contains("15 jan", "june")
  {
  }

  lemma FifteenJanSide0Names1()
    ensures !Contains("15 jan", "july")
    ensures !Contains("15 jan", "august")
    ensures !Contains("15 jan", "september")
    ensures !Contains("15 jan", "october")
    ensures !Contains("15 jan", "november")
    ensures !Contains("15 jan", "december")
    ensures Contains("15 jan", "jan")
  {
  }

  lemma FifteenJanSide0Month()
    ensures MonthOf("15 jan") == Some(1)
  {
    FifteenJanSide0Names0();
    FifteenJanSide0Names1();
    assert MonthTable[12].0 == "jan";
    assert FirstMonthEntry("15 jan", 12) == Some(12);
  }

  lemma FifteenJanSide0()
    ensures ParseSide("15 jan", 2026) == Bound(Ymd(2026, 1, 15))
  {
    FifteenJanSide0Month();
    assert RunEnd("15 jan", 0, Digit) == 2;
    assert "15 jan"[0..2] == "15";
    assert Decimal(15) == "15";
    assert FirstDigitRun("15 jan") == Some("15");
  }

  lemma FifteenJanSide1Names0()
    ensures !Contains("4 apr", "january")
    ensures !Contains("4 apr", "february")
    ensures !Contains("4 apr", "march")
    ensures !Contains("4 apr", "april")
    ensures !Contains("4 apr", "may")
    ensures !Contains("4 apr", "june")
    ensures !Contains("4 apr", "july")
    ensures !Contains("4 apr", "august")
  {
  }

  lemma FifteenJanSide1Names1()
    ensures !Contains("4 apr", "september")
    ensures !Contains("4 apr", "october")
    ensures !Contains("4 apr", "november")
    ensures !Contains("4 apr", "december")
    ensures !Contains("4 apr", "jan")
    ensures !Contains("4 apr", "feb")
    ensures !Contains("4 apr", "mar")
    ensures Contains("4 apr", "apr")
  {
  }

  lemma FifteenJanSide1Month()
    ensures MonthOf("4 apr") == Some(4)
  {
    FifteenJanSide1Names0();
    FifteenJanSide1Names1();
    assert MonthTable[15].0 == "apr";
    assert FirstMonthEntry("4 apr", 15) == Some(15);
  }

  lemma FifteenJanSide1()
    ensures ParseSide("4 apr", 2026) == Bound(Ymd(2026, 4, 4))
  {
    FifteenJanSide1Month();
    assert RunEnd("4 apr", 0, Digit) == 1;
    assert "4 apr"[0..1] == "4";
    assert Decimal(4) == "4";
    assert FirstDigitRun("4 apr") == Some("4");
  }

  lemma FifteenJanAttempts()
    ensures AttemptGroups("15 jan", "4 apr", "2026", Unbound) == Returned(Ymd(2026, 1, 15), Ymd(2026, 4, 4))
  {
    assert Decimal(2026) == "2026";
    FifteenJanSide0();
    FifteenJanSide1();
  }

  lemma FifteenJanPatterns()
    ensures TryPatterns("15 jan - 4 apr 2026", Patterns, Unbound, true) == Some((Ymd(2026, 1, 15), Ymd(2026, 4, 4)))
  {
    FifteenJanSearches();
    FifteenJanAttempts();
    assert Patterns[1..] == [DayFirst, FullDates];
    assert Patterns[1..][1..] == [FullDates];
  }

  lemma FifteenJanLowered()
    ensures Lower("15 Jan - 4 Apr 2026") == "15 jan - 4 apr 2026"
  {
  }

  lemma FifteenJanFields()
    ensures ParseDateFields("15 Jan - 4 Apr 2026") == Some((Ymd(2026, 1, 15), Ymd(2026, 4, 4)))
  {
    FifteenJanLowered();
    FieldsOfLowered("15 Jan - 4 Apr 2026", "15 jan - 4 apr 2026");
    FifteenJanPatterns();
  }

  lemma FifteenJanFormatted0()
    ensures FormatYmd(Ymd(2026, 1, 15)) == "2026-01-15"
  {
  }

  lemma FifteenJanFormatted1()
    ensures FormatYmd(Ymd(2026, 4, 4)) == "2026-04-04"
  {
  }

  /** A day-first range: the month-first pattern matches nowhere and the second pattern supplies the dates. */
  lemma ExampleDayFirst()
    ensures ParseDateRange("15 Jan - 4 Apr 2026") == Some(("2026-01-15", "2026-04-04"))
  {
    FifteenJanFields();
    RangeOfFields("15 Jan - 4 Apr 2026", Ymd(2026, 1, 15), Ymd(2026, 4, 4));
    FifteenJanFormatted0();
    FifteenJanFormatted1();
  }

  // -------------------------------------------------------------------
  // February 31 - March 2, 2026
  // -------------------------------------------------------------------

  lemma FebruaryMonthFirstMatchRuns0()
    ensures RunEnd("february 31 - march 2, 2026", 22, Space) == 23
    ensures RunEnd("february 31 - march 2, 2026", 20, Digit) == 21
    ensures RunEnd("february 31 - march 2, 2026", 18, Word) == 19
  {
  }

  lemma FebruaryMonthFirstMatchRuns1()
    ensures RunEnd("february 31 - march 2, 2026", 14, Word) == 19
    ensures RunEnd("february 31 - march 2, 2026", 13, Space) == 14
    ensures RunEnd("february 31 - march 2, 2026", 11, Space) == 12
  {
  }

  lemma FebruaryMonthFirstMatchRuns2()
    ensures RunEnd("february 31 - march 2, 2026", 9, Digit) == 11
    ensures RunEnd("february 31 - march 2, 2026", 4, Word) == 8
    ensures RunEnd("february 31 - march 2, 2026", 0, Word) == 8
  {
  }

  lemma FebruaryMonthFirstMatchYear()
    ensures GroupThenYear("february 31 - march 2, 2026", 20, 21, true) == Some((21, 23))
  {
    assert RunEnd("february 31 - march 2, 2026", 22, Space) == 23;
  }

  lemma FebruaryMonthFirstMatchGroup0()
    ensures "february 31 - march 2, 2026"[0..11] == "february 31"
  {
    assert AgreeFrom("february 31 - march 2, 2026", "february 31", 0, 8);
    assert AgreeFrom("february 31 - march 2, 2026", "february 31", 0, 4);
    assert OccursAt("february 31 - march 2, 2026", "february 31", 0);
    OccursAtMeansSlice("february 31 - march 2, 2026", "february 31", 0);
  }

  lemma FebruaryMonthFirstMatchGroup1()
    ensures "february 31 - march 2, 2026"[14..21] == "march 2"
  {
    assert AgreeFrom("february 31 - march 2, 2026", "march 2", 14, 4);
    assert OccursAt("february 31 - march 2, 2026", "march 2", 14);
    OccursAtMeansSlice("february 31 - march 2, 2026", "march 2", 14);
  }

  lemma FebruaryMonthFirstMatchGroup2()
    ensures "february 31 - march 2, 2026"[23..27] == "2026"
  {
  }

  lemma FebruaryMonthFirstMatch()
    ensures MatchAt(MonthFirst, "february 31 - march 2, 2026", 0) == Some(["february 31", "march 2", "2026"])
  {
    FebruaryMonthFirstMatchRuns0();
    FebruaryMonthFirstMatchRuns1();
    FebruaryMonthFirstMatchRuns2();
    FebruaryMonthFirstMatchYear();
    FebruaryMonthFirstMatchGroup0();
    FebruaryMonthFirstMatchGroup1();
    FebruaryMonthFirstMatchGroup2();
  }

  lemma FebruarySearches()
    ensures Search(MonthFirst, "february 31 - march 2, 2026") == Some((0, ["february 31", "march 2", "2026"]))
  {
    FebruaryMonthFirstMatch();
    SearchFindsFirst(MonthFirst, "february 31 - march 2, 2026", 0);
  }

  lemma FebruarySide0Month()
    ensures MonthOf("february 31") == Some(2)
  {
    assert MonthTable[1].0 == "february";
    assert !Contains("february 31", "january");
    assert Contains("february 31", "february");
  }

  lemma FebruarySide0()
    ensures ParseSide("february 31", 2026) == Bound(Ymd(2026, 2, 31))
  {
    FebruarySide0Month();
    assert RunEnd("february 31", 9, Digit) == 11;
    assert "february 31"[9..11] == "31";
    assert Decimal(31) == "31";
    assert FirstDigitRun("february 31") == Some("31");
  }

  lemma FebruarySide1Month()
    ensures MonthOf("march 2") == Some(3)
  {
    assert MonthTable[2].0 == "march";
    assert !Contains("march 2", "january");
    assert !Contains("march 2", "february");
    assert Contains("march 2", "march");
  }

  lemma FebruarySide1()
    ensures ParseSide("march 2", 2026) == Bound(Ymd(2026, 3, 2))
  {
    FebruarySide1Month();
    assert RunEnd("march 2", 6, Digit) == 7;
    assert "march 2"[6..7] == "2";
    assert Decimal(2) == "2";
    assert FirstDigitRun("march 2") == Some("2");
  }

  lemma FebruaryAttempts()
    ensures AttemptGroups("february 31", "march 2", "2026", Unbound) == Returned(Ymd(2026, 2, 31), Ymd(2026, 3, 2))
  {
    assert Decimal(2026) == "2026";
    FebruarySide0();
    FebruarySide1();
  }

  lemma FebruaryPatterns()
    ensures TryPatterns("february 31 - march 2, 2026", Patterns, Unbound, true) == Some((Ymd(2026, 2, 31), Ymd(2026, 3, 2)))
  {
    FebruarySearches();
    FebruaryAttempts();
    assert Patterns[1..] == [DayFirst, FullDates];
    assert Patterns[1..][1..] == [FullDates];
  }

  lemma FebruaryLowered()
    ensures Lower("February 31 - March 2, 2026") == "february 31 - march 2, 2026"
  {
  }

  lemma FebruaryFields()
    ensures ParseDateFields("February 31 - March 2, 2026") == Some((Ymd(2026, 2, 31), Ymd(2026, 3, 2)))
  {
    FebruaryLowered();
    FieldsOfLowered("February 31 - March 2, 2026", "february 31 - march 2, 2026");
    FebruaryPatterns();
  }

  lemma FebruaryFormatted0()
    ensures FormatYmd(Ymd(2026, 2, 31)) == "2026-02-31"
  {
  }

  lemma FebruaryFormatted1()
    ensures FormatYmd(Ymd(2026, 3, 2)) == "2026-03-02"
  {
  }

  /** The day is not checked against the month: February 31 is returned as written. */
  lemma ExampleDayNotValidated()
    ensures ParseDateRange("February 31 - March 2, 2026") == Some(("2026-02-31", "2026-03-02"))
  {
    FebruaryFields();
    RangeOfFields("February 31 - March 2, 2026", Ymd(2026, 2, 31), Ymd(2026, 3, 2));
    FebruaryFormatted0();
    FebruaryFormatted1();
  }

  // -------------------------------------------------------------------
  // x 1-apr 2 2026 3 may-4 x 2027
  // -------------------------------------------------------------------

  lemma StaleMonthFirstMatchRuns0()
    ensures RunEnd("x 1-apr 2 2026 3 may-4 x 2027", 9, Space) == 10
    ensures RunEnd("x 1-apr 2 2026 3 may-4 x 2027", 8, Digit) == 9
    ensures RunEnd("x 1-apr 2 2026 3 may-4 x 2027", 4, Word) == 7
  {
  }

  lemma StaleMonthFirstMatchRuns1()
    ensures RunEnd("x 1-apr 2 2026 3 may-4 x 2027", 4, Space) == 4
    ensures RunEnd("x 1-apr 2 2026 3 may-4 x 2027", 3, Space) == 3
    ensures RunEnd("x 1-apr 2 2026 3 may-4 x 2027", 2, Digit) == 3
  {
  }

  lemma StaleMonthFirstMatchRuns2()
    ensures RunEnd("x 1-apr 2 2026 3 may-4 x 2027", 0, Word) == 1
  {
  }

  lemma StaleMonthFirstMatchYear()
    ensures GroupThenYear("x 1-apr 2 2026 3 may-4 x 2027", 8, 9, true) == Some((9, 10))
  {
    assert RunEnd("x 1-apr 2 2026 3 may-4 x 2027", 9, Space) == 10;
  }

  lemma StaleMonthFirstMatchGroup0()
    ensures "x 1-apr 2 2026 3 may-4 x 2027"[0..3] == "x 1"
  {
  }

  lemma StaleMonthFirstMatchGroup1()
    ensures "x 1-apr 2 2026 3 may-4 x 2027"[4..9] == "apr 2"
  {
    assert AgreeFrom("x 1-apr 2 2026 3 may-4 x 2027", "apr 2", 4, 4);
    assert OccursAt("x 1-apr 2 2026 3 may-4 x 2027", "apr 2", 4);
    OccursAtMeansSlice("x 1-apr 2 2026 3 may-4 x 2027", "apr 2", 4);
  }

  lemma StaleMonthFirstMatchGroup2()
    ensures "x 1-apr 2 2026 3 may-4 x 2027"[10..14] == "2026"
  {
  }

  lemma StaleMonthFirstMatch()
    ensures MatchAt(MonthFirst, "x 1-apr 2 2026 3 may-4 x 2027", 0) == Some(["x 1", "apr 2", "2026"])
  {
    StaleMonthFirstMatchRuns0();
    StaleMonthFirstMatchRuns1();
    StaleMonthFirstMatchRuns2();
    StaleMonthFirstMatchYear();
    StaleMonthFirstMatchGroup0();
    StaleMonthFirstMatchGroup1();
    StaleMonthFirstMatchGroup2();
  }

  lemma StaleNoDayFirstBeforeAt0()
    ensures MatchAt(DayFirst, "x 1-apr 2 2026 3 may-4 x 2027", 0).None?
  {
    assert RunEnd("x 1-apr 2 2026 3 may-4 x 2027", 0, Digit) == 0;
  }

  lemma StaleNoDayFirstBeforeAt1()
    ensures MatchAt(DayFirst, "x 1-apr 2 2026 3 may-4 x 2027", 1).None?
  {
    assert RunEnd("x 1-apr 2 2026 3 may-4 x 2027", 1, Digit) == 1;
  }

  lemma StaleNoDayFirstBeforeAt2()
    ensures MatchAt(DayFirst, "x 1-apr 2 2026 3 may-4 x 2027", 2).None?
  {
    assert RunEnd("x 1-apr 2 2026 3 may-4 x 2027", 2, Digit) == 3;
  }

  lemma StaleNoDayFirstBeforeAt3()
    ensures MatchAt(DayFirst, "x 1-apr 2 2026 3 may-4 x 2027", 3).None?
  {
    assert RunEnd("x 1-apr 2 2026 3 may-4 x 2027", 3, Digit) == 3;
  }

  lemma StaleNoDayFirstBeforeAt4()
    ensures MatchAt(DayFirst, "x 1-apr 2 2026 3 may-4 x 2027", 4).None?
  {
    assert RunEnd("x 1-apr 2 2026 3 may-4 x 2027", 4, Digit) == 4;
  }

  lemma StaleNoDayFirstBeforeAt5()
    ensures MatchAt(DayFirst, "x 1-apr 2 2026 3 may-4 x 2027", 5).None?
  {
    assert RunEnd("x 1-apr 2 2026 3 may-4 x 2027", 5, Digit) == 5;
  }

  lemma StaleNoDayFirstBeforeAt6()
    ensures MatchAt(DayFirst, "x 1-apr 2 2026 3 may-4 x 2027", 6).None?
  {
    assert RunEnd("x 1-apr 2 2026 3 may-4 x 2027", 6, Digit) == 6;
  }

  lemma StaleNoDayFirstBeforeAt7()
    ensures MatchAt(DayFirst, "x 1-apr 2 2026 3 may-4 x 2027", 7).None?
  {
    assert RunEnd("x 1-apr 2 2026 3 may-4 x 2027", 7, Digit) == 7;
  }

  lemma StaleNoDayFirstBeforeAt8()
    ensures MatchAt(DayFirst, "x 1-apr 2 2026 3 may-4 x 2027", 8).None?
  {
    assert RunEnd("x 1-apr 2 2026 3 may-4 x 2027", 14, Space) == 15;
    assert RunEnd("x 1-apr 2 2026 3 may-4 x 2027", 10, Word) == 14;
    assert RunEnd("x 1-apr 2 2026 3 may-4 x 2027", 8, Digit) == 9;
  }

  lemma StaleNoDayFirstBeforeAt9()
    ensures MatchAt(DayFirst, "x 1-apr 2 2026 3 may-4 x 2027", 9).None?
  {
    assert RunEnd("x 1-apr 2 2026 3 may-4 x 2027", 9, Digit) == 9;
  }

  lemma StaleNoDayFirstBeforeAt10()
    ensures MatchAt(DayFirst, "x 1-apr 2 2026 3 may-4 x 2027", 10).None?
  {
    assert RunEnd("x 1-apr 2 2026 3 may-4 x 2027", 16, Space) == 17;
    assert RunEnd("x 1-apr 2 2026 3 may-4 x 2027", 15, Word) == 16;
    assert RunEnd("x 1-apr 2 2026 3 may-4 x 2027", 10, Digit) == 14;
  }

  lemma StaleNoDayFirstBeforeAt11()
    ensures MatchAt(DayFirst, "x 1-apr 2 2026 3 may-4 x 2027", 11).None?
  {
    assert RunEnd("x 1-apr 2 2026 3 may-4 x 2027", 16, Space) == 17;
    assert RunEnd("x 1-apr 2 2026 3 may-4 x 2027", 15, Word) == 16;
    assert RunEnd("x 1-apr 2 2026 3 may-4 x 2027", 11, Digit) == 14;
  }

  lemma StaleNoDayFirstBeforeAt12()
    ensures MatchAt(DayFirst, "x 1-apr 2 2026 3 may-4 x 2027", 12).None?
  {
    assert RunEnd("x 1-apr 2 2026 3 may-4 x 2027", 16, Space) == 17;
    assert RunEnd("x 1-apr 2 2026 3 may-4 x 2027", 15, Word) == 16;
    assert RunEnd("x 1-apr 2 2026 3 may-4 x 2027", 12, Digit) == 14;
  }

  lemma StaleNoDayFirstBeforeAt13()
    ensures MatchAt(DayFirst, "x 1-apr 2 2026 3 may-4 x 2027", 13).None?
  {
    assert RunEnd("x 1-apr 2 2026 3 may-4 x 2027", 16, Space) == 17;
    assert RunEnd("x 1-apr 2 2026 3 may-4 x 2027", 15, Word) == 16;
    assert RunEnd("x 1-apr 2 2026 3 may-4 x 2027", 13, Digit) == 14;
  }

  lemma StaleNoDayFirstBeforeAt14()
    ensures MatchAt(DayFirst, "x 1-apr 2 2026 3 may-4 x 2027", 14).None?
  {
    assert RunEnd("x 1-apr 2 2026 3 may-4 x 2027", 14, Digit) == 14;
  }

  lemma StaleNoDayFirstBefore(k: nat)
    requires k < 15
    ensures MatchAt(DayFirst, "x 1-apr 2 2026 3 may-4 x 2027", k).None?
  {
    if k == 0 {
      StaleNoDayFirstBeforeAt0();
    } else if k == 1 {
      StaleNoDayFirstBeforeAt1();
    } else if k == 2 {
      StaleNoDayFirstBeforeAt2();
    } else if k == 3 {
      StaleNoDayFirstBeforeAt3();
    } else if k == 4 {
      StaleNoDayFirstBeforeAt4();
    } else if k == 5 {
      StaleNoDayFirstBeforeAt5();
    } else if k == 6 {
      StaleNoDayFirstBeforeAt6();
    } else if k == 7 {
      StaleNoDayFirstBeforeAt7();
    } else if k == 8 {
      StaleNoDayFirstBeforeAt8();
    } else if k == 9 {
      StaleNoDayFirstBeforeAt9();
    } else if k == 10 {
      StaleNoDayFirstBeforeAt10();
    } else if k == 11 {
      StaleNoDayFirstBeforeAt11();
    } else if k == 12 {
      StaleNoDayFirstBeforeAt12();
    } else if k == 13 {
      StaleNoDayFirstBeforeAt13();
    } else {
      StaleNoDayFirstBeforeAt14();
    }
  }

  lemma StaleDayFirstMatchRuns0()
    ensures RunEnd("x 1-apr 2 2026 3 may-4 x 2027", 24, Space) == 25
    ensures RunEnd("x 1-apr 2 2026 3 may-4 x 2027", 23, Word) == 24
    ensures RunEnd("x 1-apr 2 2026 3 may-4 x 2027", 21, Digit) == 22
  {
  }

  lemma StaleDayFirstMatchRuns1()
    ensures RunEnd("x 1-apr 2 2026 3 may-4 x 2027", 21, Space) == 21
    ensures RunEnd("x 1-apr 2 2026 3 may-4 x 2027", 20, Space) == 20
    ensures RunEnd("x 1-apr 2 2026 3 may-4 x 2027", 17, Word) == 20
  {
  }

  lemma StaleDayFirstMatchRuns2()
    ensures RunEnd("x 1-apr 2 2026 3 may-4 x 2027", 15, Digit) == 16
  {
  }

  lemma StaleDayFirstMatchYear()
    ensures GroupThenYear("x 1-apr 2 2026 3 may-4 x 2027", 23, 24, false) == Some((24, 25))
  {
    assert RunEnd("x 1-apr 2 2026 3 may-4 x 2027", 24, Space) == 25;
  }

  lemma StaleDayFirstMatchGroup0()
    ensures "x 1-apr 2 2026 3 may-4 x 2027"[15..20] == "3 may"
  {
    assert AgreeFrom("x 1-apr 2 2026 3 may-4 x 2027", "3 may", 15, 4);
    assert OccursAt("x 1-apr 2 2026 3 may-4 x 2027", "3 may", 15);
    OccursAtMeansSlice("x 1-apr 2 2026 3 may-4 x 2027", "3 may", 15);
  }

  lemma StaleDayFirstMatchGroup1()
    ensures "x 1-apr 2 2026 3 may-4 x 2027"[21..24] == "4 x"
  {
  }

  lemma StaleDayFirstMatchGroup2()
    ensures "x 1-apr 2 2026 3 may-4 x 2027"[25..29] == "2027"
  {
  }

  lemma StaleDayFirstMatch()
    ensures MatchAt(DayFirst, "x 1-apr 2 2026 3 may-4 x 2027", 15) == Some(["3 may", "4 x", "2027"])
  {
    StaleDayFirstMatchRuns0();
    StaleDayFirstMatchRuns1();
    StaleDayFirstMatchRuns2();
    StaleDayFirstMatchYear();
    StaleDayFirstMatchGroup0();
    StaleDayFirstMatchGroup1();
    StaleDayFirstMatchGroup2();
  }

  lemma StaleSearches()
    ensures Search(MonthFirst, "x 1-apr 2 2026 3 may-4 x 2027") == Some((0, ["x 1", "apr 2", "2026"]))
    ensures Search(DayFirst, "x 1-apr 2 2026 3 may-4 x 2027") == Some((15, ["3 may", "4 x", "2027"]))
  {
    StaleMonthFirstMatch();
    SearchFindsFirst(MonthFirst, "x 1-apr 2 2026 3 may-4 x 2027", 0);
    forall k | 0 <= k < 15
      ensures MatchAt(DayFirst, "x 1-apr 2 2026 3 may-4 x 2027", k).None?
    {
      StaleNoDayFirstBefore(k);
    }
    StaleDayFirstMatch();
    SearchFindsFirst(DayFirst, "x 1-apr 2 2026 3 may-4 x 2027", 15);
  }

  lemma StaleSide0Names0()
    ensures !Contains("x 1", "january")
    ensures !Contains("x 1", "february")
    ensures !Contains("x 1", "march")
    ensures !Contains("x 1", "april")
    ensures !Contains("x 1", "may")
    ensures !Contains("x 1", "june")
    ensures !Contains("x 1", "july")
    ensures !Contains("x 1", "august")
    ensures !Contains("x 1", "september")
    ensures !Contains("x 1", "october")
    ensures !Contains("x 1", "november")
  {
  }

  lemma StaleSide0Names1()
    ensures !Contains("x 1", "december")
    ensures !Contains("x 1", "jan")
    ensures !Contains("x 1", "feb")
    ensures !Contains("x 1", "mar")
    ensures !Contains("x 1", "apr")
    ensures !Contains("x 1", "jun")
    ensures !Contains("x 1", "jul")
    ensures !Contains("x 1", "aug")
    ensures !Contains("x 1", "sep")
    ensures !Contains("x 1", "oct")
    ensures !Contains("x 1", "nov")
    ensures !Contains("x 1", "dec")
  {
  }

  lemma StaleSide0Month()
    ensures MonthOf("x 1") == None
  {
    StaleSide0Names0();
    StaleSide0Names1();
  }

  lemma StaleSide0()
    ensures ParseSide("x 1", 2026) == NoMonth
  {
    StaleSide0Month();

  }

  lemma StaleSide1FullNames()
    ensures !Contains("apr 2", "january")
    ensures !Contains("apr 2", "february")
    ensures !Contains("apr 2", "march")
    ensures !Contains("apr 2", "april")
    ensures !Contains("apr 2", "may")
    ensures !Contains("apr 2", "june")
    ensures !Contains("apr 2", "july")
    ensures !Contains("apr 2", "august")
    ensures !Contains("apr 2", "september")
    ensures !Contains("apr 2", "october")
    ensures !Contains("apr 2", "november")
    ensures !Contains("apr 2", "december")
  {
  }

  lemma StaleSide1Abbreviations()
    ensures !Contains("apr 2", "jan") && !Contains("apr 2", "feb") && !Contains("apr 2", "mar")
    ensures Contains("apr 2", "apr")
  {
  }

  lemma StaleSide1Month()
    ensures MonthOf("apr 2") == Some(4)
  {
    StaleSide1FullNames();
    StaleSide1Abbreviations();
    assert MonthTable[15].0 == "apr";
    assert FirstMonthEntry("apr 2", 15) == Some(15);
  }

  lemma StaleSide1()
    ensures ParseSide("apr 2", 2026) == Bound(Ymd(2026, 4, 2))
  {
    StaleSide1Month();
    assert RunEnd("apr 2", 4, Digit) == 5;
    assert "apr 2"[4..5] == "2";
    assert Decimal(2) == "2";
    assert FirstDigitRun("apr 2") == Some("2");
  }

  lemma StaleSide2Month()
    ensures MonthOf("3 may") == Some(5)
  {
    assert MonthTable[4].0 == "may";
    assert !Contains("3 may", "january");
    assert !Contains("3 may", "february");
    assert !Contains("3 may", "march");
    assert !Contains("3 may", "april");
    assert Contains("3 may", "may");
  }

  lemma StaleSide2()
    ensures ParseSide("3 may", 2027) == Bound(Ymd(2027, 5, 3))
  {
    StaleSide2Month();
    assert RunEnd("3 may", 0, Digit) == 1;
    assert "3 may"[0..1] == "3";
    assert Decimal(3) == "3";
    assert FirstDigitRun("3 may") == Some("3");
  }

  lemma StaleSide3Names0()
    ensures !Contains("4 x", "january")
    ensures !Contains("4 x", "february")
    ensures !Contains("4 x", "march")
    ensures !Contains("4 x", "april")
    ensures !Contains("4 x", "may")
    ensures !Contains("4 x", "june")
    ensures !Contains("4 x", "july")
    ensures !Contains("4 x", "august")
    ensures !Contains("4 x", "september")
    ensures !Contains("4 x", "october")
    ensures !Contains("4 x", "november")
  {
  }

  lemma StaleSide3Names1()
    ensures !Contains("4 x", "december")
    ensures !Contains("4 x", "jan")
    ensures !Contains("4 x", "feb")
    ensures !Contains("4 x", "mar")
    ensures !Contains("4 x", "apr")
    ensures !Contains("4 x", "jun")
    ensures !Contains("4 x", "jul")
    ensures !Contains("4 x", "aug")
    ensures !Contains("4 x", "sep")
    ensures !Contains("4 x", "oct")
    ensures !Contains("4 x", "nov")
    ensures !Contains("4 x", "dec")
  {
  }

  lemma StaleSide3Month()
    ensures MonthOf("4 x") == None
  {
    StaleSide3Names0();
    StaleSide3Names1();
  }

  lemma StaleSide3()
    ensures ParseSide("4 x", 2027) == NoMonth
  {
    StaleSide3Month();

  }

  lemma StaleAttempts()
    ensures AttemptGroups("x 1", "apr 2", "2026", Unbound) == Raised(Bindings(None, Some(Ymd(2026, 4, 2))))
    ensures AttemptGroups("3 may", "4 x", "2027", Bindings(None, Some(Ymd(2026, 4, 2)))) == Returned(Ymd(2027, 5, 3), Ymd(2026, 4, 2))
    ensures AttemptGroups("3 may", "4 x", "2027", Unbound) == Raised(Bindings(Some(Ymd(2027, 5, 3)), None))
  {
    assert Decimal(2026) == "2026";
    assert Decimal(2027) == "2027";
    StaleSide0();
    StaleSide1();
    StaleSide2();
    StaleSide3();
  }

  lemma StalePatterns()
    ensures TryPatterns("x 1-apr 2 2026 3 may-4 x 2027", Patterns, Unbound, true) == Some((Ymd(2027, 5, 3), Ymd(2026, 4, 2)))
    ensures TryPatterns("x 1-apr 2 2026 3 may-4 x 2027", Patterns, Unbound, false) == None
  {
    StaleSearches();
    StaleAttempts();
    assert Patterns[1..] == [DayFirst, FullDates];
    assert Patterns[1..][1..] == [FullDates];
    FullDatesNeverReturns("x 1-apr 2 2026 3 may-4 x 2027", Unbound, false);
  }

  lemma StaleLowered()
    ensures Lower("x 1-apr 2 2026 3 may-4 x 2027") == "x 1-apr 2 2026 3 may-4 x 2027"
  {
  }

  lemma StaleFields()
    ensures ParseDateFields("x 1-apr 2 2026 3 may-4 x 2027") == Some((Ymd(2027, 5, 3), Ymd(2026, 4, 2)))
    ensures ParseDateFieldsFresh("x 1-apr 2 2026 3 may-4 x 2027") == None
  {
    StaleLowered();
    FieldsOfLowered("x 1-apr 2 2026 3 may-4 x 2027", "x 1-apr 2 2026 3 may-4 x 2027");
    StalePatterns();
  }

  lemma StaleFormatted0()
    ensures FormatYmd(Ymd(2027, 5, 3)) == "2027-05-03"
  {
  }

  lemma StaleFormatted1()
    ensures FormatYmd(Ymd(2026, 4, 2)) == "2026-04-02"
  {
  }

  /** Bindings left by the failed month-first attempt leak into the day-first attempt: the range returned ends a year before it starts, while fresh bindings return nothing. */
  lemma StaleBindingCounterexample()
    ensures ParseDateRange("x 1-apr 2 2026 3 may-4 x 2027") == Some(("2027-05-03", "2026-04-02"))
    ensures ParseDateFieldsFresh("x 1-apr 2 2026 3 may-4 x 2027") == None
  {
    StaleFields();
    RangeOfFields("x 1-apr 2 2026 3 may-4 x 2027", Ymd(2027, 5, 3), Ymd(2026, 4, 2));
    StaleFormatted0();
    StaleFormatted1();
  }

  // -------------------------------------------------------------------
  // Jan 15, 2026 - Apr 4, 2026
  // -------------------------------------------------------------------

  lemma FullDatesNoMonthFirstAt0()
    ensures MatchAt(MonthFirst, "jan 15, 2026 - apr 4, 2026", 0).None?
  {
    assert RunEnd("jan 15, 2026 - apr 4, 2026", 6, Space) == 6;
    assert RunEnd("jan 15, 2026 - apr 4, 2026", 4, Digit) == 6;
    assert RunEnd("jan 15, 2026 - apr 4, 2026", 0, Word) == 3;
  }

  lemma FullDatesNoMonthFirstAt1()
    ensures MatchAt(MonthFirst, "jan 15, 2026 - apr 4, 2026", 1).None?
  {
    assert RunEnd("jan 15, 2026 - apr 4, 2026", 6, Space) == 6;
    assert RunEnd("jan 15, 2026 - apr 4, 2026", 4, Digit) == 6;
    assert RunEnd("jan 15, 2026 - apr 4, 2026", 1, Word) == 3;
  }

  lemma FullDatesNoMonthFirstAt2()
    ensures MatchAt(MonthFirst, "jan 15, 2026 - apr 4, 2026", 2).None?
  {
    assert RunEnd("jan 15, 2026 - apr 4, 2026", 6, Space) == 6;
    assert RunEnd("jan 15, 2026 - apr 4, 2026", 4, Digit) == 6;
    assert RunEnd("jan 15, 2026 - apr 4, 2026", 2, Word) == 3;
  }

  lemma FullDatesNoMonthFirstAt3()
    ensures MatchAt(MonthFirst, "jan 15, 2026 - apr 4, 2026", 3).None?
  {
    assert RunEnd("jan 15, 2026 - apr 4, 2026", 3, Word) == 3;
  }

  lemma FullDatesNoMonthFirstAt4()
    ensures MatchAt(MonthFirst, "jan 15, 2026 - apr 4, 2026", 4).None?
  {
    assert RunEnd("jan 15, 2026 - apr 4, 2026", 4, Word) == 6;
  }

  lemma FullDatesNoMonthFirstAt5()
    ensures MatchAt(MonthFirst, "jan 15, 2026 - apr 4, 2026", 5).None?
  {
    assert RunEnd("jan 15, 2026 - apr 4, 2026", 5, Word) == 6;
  }

  lemma FullDatesNoMonthFirstAt6()
    ensures MatchAt(MonthFirst, "jan 15, 2026 - apr 4, 2026", 6).None?
  {
    assert RunEnd("jan 15, 2026 - apr 4, 2026", 6, Word) == 6;
  }

  lemma FullDatesNoMonthFirstAt7()
    ensures MatchAt(MonthFirst, "jan 15, 2026 - apr 4, 2026", 7).None?
  {
    assert RunEnd("jan 15, 2026 - apr 4, 2026", 7, Word) == 7;
  }

  lemma FullDatesNoMonthFirstAt8()
    ensures MatchAt(MonthFirst, "jan 15, 2026 - apr 4, 2026", 8).None?
  {
    assert RunEnd("jan 15, 2026 - apr 4, 2026", 13, Digit) == 13;
    assert RunEnd("jan 15, 2026 - apr 4, 2026", 8, Word) == 12;
  }

  lemma FullDatesNoMonthFirstAt9()
    ensures MatchAt(MonthFirst, "jan 15, 2026 - apr 4, 2026", 9).None?
  {
    assert RunEnd("jan 15, 2026 - apr 4, 2026", 13, Digit) == 13;
    assert RunEnd("jan 15, 2026 - apr 4, 2026", 9, Word) == 12;
  }

  lemma FullDatesNoMonthFirstAt10()
    ensures MatchAt(MonthFirst, "jan 15, 2026 - apr 4, 2026", 10).None?
  {
    assert RunEnd("jan 15, 2026 - apr 4, 2026", 13, Digit) == 13;
    assert RunEnd("jan 15, 2026 - apr 4, 2026", 10, Word) == 12;
  }

  lemma FullDatesNoMonthFirstAt11()
    ensures MatchAt(MonthFirst, "jan 15, 2026 - apr 4, 2026", 11).None?
  {
    assert RunEnd("jan 15, 2026 - apr 4, 2026", 13, Digit) == 13;
    assert RunEnd("jan 15, 2026 - apr 4, 2026", 11, Word) == 12;
  }

  lemma FullDatesNoMonthFirstAt12()
    ensures MatchAt(MonthFirst, "jan 15, 2026 - apr 4, 2026", 12).None?
  {
    assert RunEnd("jan 15, 2026 - apr 4, 2026", 12, Word) == 12;
  }

  lemma FullDatesNoMonthFirstAt13()
    ensures MatchAt(MonthFirst, "jan 15, 2026 - apr 4, 2026", 13).None?
  {
    assert RunEnd("jan 15, 2026 - apr 4, 2026", 13, Word) == 13;
  }

  lemma FullDatesNoMonthFirstAt14()
    ensures MatchAt(MonthFirst, "jan 15, 2026 - apr 4, 2026", 14).None?
  {
    assert RunEnd("jan 15, 2026 - apr 4, 2026", 14, Word) == 14;
  }

  lemma FullDatesNoMonthFirstAt15()
    ensures MatchAt(MonthFirst, "jan 15, 2026 - apr 4, 2026", 15).None?
  {
    assert RunEnd("jan 15, 2026 - apr 4, 2026", 20, Space) == 20;
    assert RunEnd("jan 15, 2026 - apr 4, 2026", 19, Digit) == 20;
    assert RunEnd("jan 15, 2026 - apr 4, 2026", 15, Word) == 18;
  }

  lemma FullDatesNoMonthFirstAt16()
    ensures MatchAt(MonthFirst, "jan 15, 2026 - apr 4, 2026", 16).None?
  {
    assert RunEnd("jan 15, 2026 - apr 4, 2026", 20, Space) == 20;
    assert RunEnd("jan 15, 2026 - apr 4, 2026", 19, Digit) == 20;
    assert RunEnd("jan 15, 2026 - apr 4, 2026", 16, Word) == 18;
  }

  lemma FullDatesNoMonthFirstAt17()
    ensures MatchAt(MonthFirst, "jan 15, 2026 - apr 4, 2026", 17).None?
  {
    assert RunEnd("jan 15, 2026 - apr 4, 2026", 20, Space) == 20;
    assert RunEnd("jan 15, 2026 - apr 4, 2026", 19, Digit) == 20;
    assert RunEnd("jan 15, 2026 - apr 4, 2026", 17, Word) == 18;
  }

  lemma FullDatesNoMonthFirstAt18()
    ensures MatchAt(MonthFirst, "jan 15, 2026 - apr 4, 2026", 18).None?
  {
    assert RunEnd("jan 15, 2026 - apr 4, 2026", 18, Word) == 18;
  }

  lemma FullDatesNoMonthFirstAt19()
    ensures MatchAt(MonthFirst, "jan 15, 2026 - apr 4, 2026", 19).None?
  {
    assert RunEnd("jan 15, 2026 - apr 4, 2026", 19, Word) == 20;
  }

  lemma FullDatesNoMonthFirstAt20()
    ensures MatchAt(MonthFirst, "jan 15, 2026 - apr 4, 2026", 20).None?
  {
    assert RunEnd("jan 15, 2026 - apr 4, 2026", 20, Word) == 20;
  }

  lemma FullDatesNoMonthFirstAt21()
    ensures MatchAt(MonthFirst, "jan 15, 2026 - apr 4, 2026", 21).None?
  {
    assert RunEnd("jan 15, 2026 - apr 4, 2026", 21, Word) == 21;
  }

  lemma FullDatesNoMonthFirstAt22()
    ensures MatchAt(MonthFirst, "jan 15, 2026 - apr 4, 2026", 22).None?
  {
    assert RunEnd("jan 15, 2026 - apr 4, 2026", 22, Word) == 26;
  }

  lemma FullDatesNoMonthFirstAt23()
    ensures MatchAt(MonthFirst, "jan 15, 2026 - apr 4, 2026", 23).None?
  {
    assert RunEnd("jan 15, 2026 - apr 4, 2026", 23, Word) == 26;
  }

  lemma FullDatesNoMonthFirstAt24()
    ensures MatchAt(MonthFirst, "jan 15, 2026 - apr 4, 2026", 24).None?
  {
    assert RunEnd("jan 15, 2026 - apr 4, 2026", 24, Word) == 26;
  }

  lemma FullDatesNoMonthFirstAt25()
    ensures MatchAt(MonthFirst, "jan 15, 2026 - apr 4, 2026", 25).None?
  {
    assert RunEnd("jan 15, 2026 - apr 4, 2026", 25, Word) == 26;
  }

  lemma FullDatesNoMonthFirstAt26()
    ensures MatchAt(MonthFirst, "jan 15, 2026 - apr 4, 2026", 26).None?
  {
    assert RunEnd("jan 15, 2026 - apr 4, 2026", 26, Word) == 26;
  }

  lemma FullDatesNoMonthFirst(k: nat)
    requires k <= 26
    ensures MatchAt(MonthFirst, "jan 15, 2026 - apr 4, 2026", k).None?
  {
    if k == 0 {
      FullDatesNoMonthFirstAt0();
    } else if k == 1 {
      FullDatesNoMonthFirstAt1();
    } else if k == 2 {
      FullDatesNoMonthFirstAt2();
    } else if k == 3 {
      FullDatesNoMonthFirstAt3();
    } else if k == 4 {
      FullDatesNoMonthFirstAt4();
    } else if k == 5 {
      FullDatesNoMonthFirstAt5();
    } else if k == 6 {
      FullDatesNoMonthFirstAt6();
    } else if k == 7 {
      FullDatesNoMonthFirstAt7();
    } else if k == 8 {
      FullDatesNoMonthFirstAt8();
    } else if k == 9 {
      FullDatesNoMonthFirstAt9();
    } else if k == 10 {
      FullDatesNoMonthFirstAt10();
    } else if k == 11 {
      FullDatesNoMonthFirstAt11();
    } else if k == 12 {
      FullDatesNoMonthFirstAt12();
    } else if k == 13 {
      FullDatesNoMonthFirstAt13();
    } else if k == 14 {
      FullDatesNoMonthFirstAt14();
    } else if k == 15 {
      FullDatesNoMonthFirstAt15();
    } else if k == 16 {
      FullDatesNoMonthFirstAt16();
    } else if k == 17 {
      FullDatesNoMonthFirstAt17();
    } else if k == 18 {
      FullDatesNoMonthFirstAt18();
    } else if k == 19 {
      FullDatesNoMonthFirstAt19();
    } else if k == 20 {
      FullDatesNoMonthFirstAt20();
    } else if k == 21 {
      FullDatesNoMonthFirstAt21();
    } else if k == 22 {
      FullDatesNoMonthFirstAt22();
    } else if k == 23 {
      FullDatesNoMonthFirstAt23();
    } else if k == 24 {
      FullDatesNoMonthFirstAt24();
    } else if k == 25 {
      FullDatesNoMonthFirstAt25();
    } else {
      FullDatesNoMonthFirstAt26();
    }
  }

  lemma FullDatesNoDayFirstAt0()
    ensures MatchAt(DayFirst, "jan 15, 2026 - apr 4, 2026", 0).None?
  {
    assert RunEnd("jan 15, 2026 - apr 4, 2026", 0, Digit) == 0;
  }

  lemma FullDatesNoDayFirstAt1()
    ensures MatchAt(DayFirst, "jan 15, 2026 - apr 4, 2026", 1).None?
  {
    assert RunEnd("jan 15, 2026 - apr 4, 2026", 1, Digit) == 1;
  }

  lemma FullDatesNoDayFirstAt2()
    ensures MatchAt(DayFirst, "jan 15, 2026 - apr 4, 2026", 2).None?
  {
    assert RunEnd("jan 15, 2026 - apr 4, 2026", 2, Digit) == 2;
  }

  lemma FullDatesNoDayFirstAt3()
    ensures MatchAt(DayFirst, "jan 15, 2026 - apr 4, 2026", 3).None?
  {
    assert RunEnd("jan 15, 2026 - apr 4, 2026", 3, Digit) == 3;
  }

  lemma FullDatesNoDayFirstAt4()
    ensures MatchAt(DayFirst, "jan 15, 2026 - apr 4, 2026", 4).None?
  {
    assert RunEnd("jan 15, 2026 - apr 4, 2026", 4, Digit) == 6;
  }

  lemma FullDatesNoDayFirstAt5()
    ensures MatchAt(DayFirst, "jan 15, 2026 - apr 4, 2026", 5).None?
  {
    assert RunEnd("jan 15, 2026 - apr 4, 2026", 5, Digit) == 6;
  }

  lemma FullDatesNoDayFirstAt6()
    ensures MatchAt(DayFirst, "jan 15, 2026 - apr 4, 2026", 6).None?
  {
    assert RunEnd("jan 15, 2026 - apr 4, 2026", 6, Digit) == 6;
  }

  lemma FullDatesNoDayFirstAt7()
    ensures MatchAt(DayFirst, "jan 15, 2026 - apr 4, 2026", 7).None?
  {
    assert RunEnd("jan 15, 2026 - apr 4, 2026", 7, Digit) == 7;
  }

  lemma FullDatesNoDayFirstAt8()
    ensures MatchAt(DayFirst, "jan 15, 2026 - apr 4, 2026", 8).None?
  {
    assert RunEnd("jan 15, 2026 - apr 4, 2026", 13, Word) == 13;
    assert RunEnd("jan 15, 2026 - apr 4, 2026", 8, Digit) == 12;
  }

  lemma FullDatesNoDayFirstAt9()
    ensures MatchAt(DayFirst, "jan 15, 2026 - apr 4, 2026", 9).None?
  {
    assert RunEnd("jan 15, 2026 - apr 4, 2026", 13, Word) == 13;
    assert RunEnd("jan 15, 2026 - apr 4, 2026", 9, Digit) == 12;
  }

  lemma FullDatesNoDayFirstAt10()
    ensures MatchAt(DayFirst, "jan 15, 2026 - apr 4, 2026", 10).None?
  {
    assert RunEnd("jan 15, 2026 - apr 4, 2026", 13, Word) == 13;
    assert RunEnd("jan 15, 2026 - apr 4, 2026", 10, Digit) == 12;
  }

  lemma FullDatesNoDayFirstAt11()
    ensures MatchAt(DayFirst, "jan 15, 2026 - apr 4, 2026", 11).None?
  {
    assert RunEnd("jan 15, 2026 - apr 4, 2026", 13, Word) == 13;
    assert RunEnd("jan 15, 2026 - apr 4, 2026", 11, Digit) == 12;
  }

  lemma FullDatesNoDayFirstAt12()
    ensures MatchAt(DayFirst, "jan 15, 2026 - apr 4, 2026", 12).None?
  {
    assert RunEnd("jan 15, 2026 - apr 4, 2026", 12, Digit) == 12;
  }

  lemma FullDatesNoDayFirstAt13()
    ensures MatchAt(DayFirst, "jan 15, 2026 - apr 4, 2026", 13).None?
  {
    assert RunEnd("jan 15, 2026 - apr 4, 2026", 13, Digit) == 13;
  }

  lemma FullDatesNoDayFirstAt14()
    ensures MatchAt(DayFirst, "jan 15, 2026 - apr 4, 2026", 14).None?
  {
    assert RunEnd("jan 15, 2026 - apr 4, 2026", 14, Digit) == 14;
  }

  lemma FullDatesNoDayFirstAt15()
    ensures MatchAt(DayFirst, "jan 15, 2026 - apr 4, 2026", 15).None?
  {
    assert RunEnd("jan 15, 2026 - apr 4, 2026", 15, Digit) == 15;
  }

  lemma FullDatesNoDayFirstAt16()
    ensures MatchAt(DayFirst, "jan 15, 2026 - apr 4, 2026", 16).None?
  {
    assert RunEnd("jan 15, 2026 - apr 4, 2026", 16, Digit) == 16;
  }

  lemma FullDatesNoDayFirstAt17()
    ensures MatchAt(DayFirst, "jan 15, 2026 - apr 4, 2026", 17).None?
  {
    assert RunEnd("jan 15, 2026 - apr 4, 2026", 17, Digit) == 17;
  }

  lemma FullDatesNoDayFirstAt18()
    ensures MatchAt(DayFirst, "jan 15, 2026 - apr 4, 2026", 18).None?
  {
    assert RunEnd("jan 15, 2026 - apr 4, 2026", 18, Digit) == 18;
  }

  lemma FullDatesNoDayFirstAt19()
    ensures MatchAt(DayFirst, "jan 15, 2026 - apr 4, 2026", 19).None?
  {
    assert RunEnd("jan 15, 2026 - apr 4, 2026", 19, Digit) == 20;
  }

  lemma FullDatesNoDayFirstAt20()
    ensures MatchAt(DayFirst, "jan 15, 2026 - apr 4, 2026", 20).None?
  {
    assert RunEnd("jan 15, 2026 - apr 4, 2026", 20, Digit) == 20;
  }

  lemma FullDatesNoDayFirstAt21()
    ensures MatchAt(DayFirst, "jan 15, 2026 - apr 4, 2026", 21).None?
  {
    assert RunEnd("jan 15, 2026 - apr 4, 2026", 21, Digit) == 21;
  }

  lemma FullDatesNoDayFirstAt22()
    ensures MatchAt(DayFirst, "jan 15, 2026 - apr 4, 2026", 22).None?
  {
    assert RunEnd("jan 15, 2026 - apr 4, 2026", 22, Digit) == 26;
  }

  lemma FullDatesNoDayFirstAt23()
    ensures MatchAt(DayFirst, "jan 15, 2026 - apr 4, 2026", 23).None?
  {
    assert RunEnd("jan 15, 2026 - apr 4, 2026", 23, Digit) == 26;
  }

  lemma FullDatesNoDayFirstAt24()
    ensures MatchAt(DayFirst, "jan 15, 2026 - apr 4, 2026", 24).None?
  {
    assert RunEnd("jan 15, 2026 - apr 4, 2026", 24, Digit) == 26;
  }

  lemma FullDatesNoDayFirstAt25()
    ensures MatchAt(DayFirst, "jan 15, 2026 - apr 4, 2026", 25).None?
  {
    assert RunEnd("jan 15, 2026 - apr 4, 2026", 25, Digit) == 26;
  }

  lemma FullDatesNoDayFirstAt26()
    ensures MatchAt(DayFirst, "jan 15, 2026 - apr 4, 2026", 26).None?
  {
    assert RunEnd("jan 15, 2026 - apr 4, 2026", 26, Digit) == 26;
  }

  lemma FullDatesNoDayFirst(k: nat)
    requires k <= 26
    ensures MatchAt(DayFirst, "jan 15, 2026 - apr 4, 2026", k).None?
  {
    if k == 0 {
      FullDatesNoDayFirstAt0();
    } else if k == 1 {
      FullDatesNoDayFirstAt1();
    } else if k == 2 {
      FullDatesNoDayFirstAt2();
    } else if k == 3 {
      FullDatesNoDayFirstAt3();
    } else if k == 4 {
      FullDatesNoDayFirstAt4();
    } else if k == 5 {
      FullDatesNoDayFirstAt5();
    } else if k == 6 {
      FullDatesNoDayFirstAt6();
    } else if k == 7 {
      FullDatesNoDayFirstAt7();
    } else if k == 8 {
      FullDatesNoDayFirstAt8();
    } else if k == 9 {
      FullDatesNoDayFirstAt9();
    } else if k == 10 {
      FullDatesNoDayFirstAt10();
    } else if k == 11 {
      FullDatesNoDayFirstAt11();
    } else if k == 12 {
      FullDatesNoDayFirstAt12();
    } else if k == 13 {
      FullDatesNoDayFirstAt13();
    } else if k == 14 {
      FullDatesNoDayFirstAt14();
    } else if k == 15 {
      FullDatesNoDayFirstAt15();
    } else if k == 16 {
      FullDatesNoDayFirstAt16();
    } else if k == 17 {
      FullDatesNoDayFirstAt17();
    } else if k == 18 {
      FullDatesNoDayFirstAt18();
    } else if k == 19 {
      FullDatesNoDayFirstAt19();
    } else if k == 20 {
      FullDatesNoDayFirstAt20();
    } else if k == 21 {
      FullDatesNoDayFirstAt21();
    } else if k == 22 {
      FullDatesNoDayFirstAt22();
    } else if k == 23 {
      FullDatesNoDayFirstAt23();
    } else if k == 24 {
      FullDatesNoDayFirstAt24();
    } else if k == 25 {
      FullDatesNoDayFirstAt25();
    } else {
      FullDatesNoDayFirstAt26();
    }
  }

  lemma FullDatesSearches()
    ensures Search(MonthFirst, "jan 15, 2026 - apr 4, 2026") == None
    ensures Search(DayFirst, "jan 15, 2026 - apr 4, 2026") == None
  {
    forall k | 0 <= k <= 26
      ensures MatchAt(MonthFirst, "jan 15, 2026 - apr 4, 2026", k).None?
    {
      FullDatesNoMonthFirst(k);
    }
    forall k | 0 <= k <= 26
      ensures MatchAt(DayFirst, "jan 15, 2026 - apr 4, 2026", k).None?
    {
      FullDatesNoDayFirst(k);
    }
  }

  lemma FullDatesLowered()
    ensures Lower("Jan 15, 2026 - Apr 4, 2026") == "jan 15, 2026 - apr 4, 2026"
  {
  }

  /** Two full dates with their own years are not understood: neither three-group pattern matches anywhere. */
  lemma ExampleFullDatesUnparsed()
    ensures ParseDateRange("Jan 15, 2026 - Apr 4, 2026") == None
  {
    FullDatesLowered();
    FullDatesSearches();
    NoThreeGroupMatchNoRange("Jan 15, 2026 - Apr 4, 2026");
  }

  // -------------------------------------------------------------------
  // Text that is not a range, and dates that are not ISO dates
  // -------------------------------------------------------------------

  /** Text without a dash gives no range. */
  lemma ExampleNotADate()
    ensures ParseDateRange("not a date") == None
  {
    NoDashNoRange("not a date");
  }

  /** A year group such as "0999" gives a three-digit year, which `date.fromisoformat` refuses. */
  lemma ExampleShortYear()
    ensures FormatYmd(Ymd(999, 1, 5)) == "999-01-05"
    ensures Dates.ParseIso(FormatYmd(Ymd(999, 1, 5))).None?
  {
    assert |"999-01-05"| == 9;
  }

  /** A day run of three digits stays three digits long, which `date.fromisoformat` refuses. */
  lemma ExampleLongDay()
    ensures FormatYmd(Ymd(2026, 1, 123)) == "2026-01-123"
    ensures Dates.ParseIso(FormatYmd(Ymd(2026, 1, 123))).None?
  {
    assert |"2026-01-123"| == 11;
  }
}
