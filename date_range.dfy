/**
 * `parse_date_range`: the free-text date-range parser.  Three fixed regular
 * expressions are tried in order with `re.search` on the lower-cased input;
 * each is matched here by hand, reproducing the leftmost-match position and
 * the groups that Python's backtracking matcher reports.
 */
module DateRangeParser {
  import opened Wrappers
  import opened Text
  import Dates

  /** The three patterns, in the order they are tried. */
  datatype Pattern =
    | MonthFirst   // (\w+ \d+)\s*[-–]\s*(\w+ \d+),?\s*(\d{4})
    | DayFirst     // (\d+ \w+)\s*[-–]\s*(\d+ \w+)\s*(\d{4})
    | FullDates    // (\w+ \d+),?\s*(\d{4})\s*[-–]\s*(\w+ \d+),?\s*(\d{4})

  const Patterns: seq<Pattern> := [MonthFirst, DayFirst, FullDates]

  const EnDash: char := '\U{2013}'

  /** The character class `[-–]`. */
  predicate IsDash(c: char) { c == '-' || c == EnDash }

  datatype CharClass = Word | Digit | Space

  predicate InClass(c: char, k: CharClass)
  {
    match k
    case Word => IsWordChar(c)
    case Digit => IsDigit(c)
    case Space => IsSpace(c)
  }

  /** The end of the longest run of class `k` starting at `i`: where a greedy `\w+`, `\d+` or `\s*` stops. */
  function RunEnd(s: string, i: nat, k: CharClass): (j: nat)
    requires i <= |s|
    ensures i <= j <= |s|
    decreases |s| - i
  {
    if i < |s| && InClass(s[i], k) then RunEnd(s, i + 1, k) else i
  }

  /** `RunEnd` stops exactly at the first character outside the class. */
  lemma {:induction false} RunEndIsMaximal(s: string, i: nat, k: CharClass)
    requires i <= |s|
    ensures forall m :: i <= m < RunEnd(s, i, k) ==> InClass(s[m], k)
    ensures RunEnd(s, i, k) == |s| || !InClass(s[RunEnd(s, i, k)], k)
    decreases |s| - i
  {
    if i < |s| && InClass(s[i], k) {
      RunEndIsMaximal(s, i + 1, k);
    }
  }

  /** `\d{4}` matches at `i`. */
  predicate FourDigitsAt(s: string, i: nat)
  {
    i + 4 <= |s| && IsDigit(s[i]) && IsDigit(s[i + 1]) && IsDigit(s[i + 2]) && IsDigit(s[i + 3])
  }

  /** The largest `t` with `lo <= t < hi` at which `\d{4}` matches: where backtracking a greedy run stops. */
  function LastFourDigitsBelow(s: string, lo: nat, hi: nat): (r: Option<nat>)
    ensures r.Some? ==> lo <= r.value < hi && FourDigitsAt(s, r.value)
    ensures r.Some? ==> forall t :: r.value < t < hi ==> !FourDigitsAt(s, t)
    ensures r.None? ==> forall t :: lo <= t < hi ==> !FourDigitsAt(s, t)
    decreases hi
  {
    if hi <= lo then None
    else if FourDigitsAt(s, hi - 1) then Some(hi - 1)
    else LastFourDigitsBelow(s, lo, hi - 1)
  }

  /**
   * The end of a group whose last element is a greedy run `s[gs..ge]` (maximal,
   * non-empty), followed by `,?\s*(\d{4})` (`comma`) or `\s*(\d{4})`.  Returns
   * the group's end and where the year starts.  The run first keeps all its
   * characters; when no year follows, it gives characters back until four
   * digits of its own can serve as the year.
   */
  function GroupThenYear(s: string, gs: nat, ge: nat, comma: bool): (r: Option<(nat, nat)>)
    requires gs < ge <= |s|
    ensures r.Some? ==> gs < r.value.0 <= ge && r.value.0 <= r.value.1 && FourDigitsAt(s, r.value.1)
    ensures r.Some? ==> AllDigits(s[r.value.1..r.value.1 + 4])
  {
    var c := if comma && ge < |s| && s[ge] == ',' then ge + 1 else ge;
    var y := RunEnd(s, c, Space);
    if FourDigitsAt(s, y) then Some((ge, y))
    else match LastFourDigitsBelow(s, gs + 1, ge)
      case None => None
      case Some(t) => Some((t, t))
  }

  /** Pattern 1 at position `i`: "January 15 - April 4, 2026". */
  function MatchMonthFirst(s: string, i: nat): (r: Option<seq<string>>)
    requires i <= |s|
    ensures r.Some? ==> |r.value| == 3 && |r.value[2]| == 4 && AllDigits(r.value[2])
  {
    var w1 := RunEnd(s, i, Word);
    if w1 == i || w1 == |s| || s[w1] != ' ' then None else
    var d1 := RunEnd(s, w1 + 1, Digit);
    if d1 == w1 + 1 then None else
    var h := RunEnd(s, d1, Space);
    if h == |s| || !IsDash(s[h]) then None else
    var g2 := RunEnd(s, h + 1, Space);
    var w2 := RunEnd(s, g2, Word);
    if w2 == g2 || w2 == |s| || s[w2] != ' ' then None else
    var d2 := RunEnd(s, w2 + 1, Digit);
    if d2 == w2 + 1 then None else
    match GroupThenYear(s, w2 + 1, d2, true)
    case None => None
    case Some((e2, y)) => Some([s[i..d1], s[g2..e2], s[y..y + 4]])
  }

  /** Pattern 2 at position `i`: "15 Jan - 4 Apr 2026". */
  function MatchDayFirst(s: string, i: nat): (r: Option<seq<string>>)
    requires i <= |s|
    ensures r.Some? ==> |r.value| == 3 && |r.value[2]| == 4 && AllDigits(r.value[2])
  {
    var d1 := RunEnd(s, i, Digit);
    if d1 == i || d1 == |s| || s[d1] != ' ' then None else
    var w1 := RunEnd(s, d1 + 1, Word);
    if w1 == d1 + 1 then None else
    var h := RunEnd(s, w1, Space);
    if h == |s| || !IsDash(s[h]) then None else
    var g2 := RunEnd(s, h + 1, Space);
    var d2 := RunEnd(s, g2, Digit);
    if d2 == g2 || d2 == |s| || s[d2] != ' ' then None else
    var w2 := RunEnd(s, d2 + 1, Word);
    if w2 == d2 + 1 then None else
    match GroupThenYear(s, d2 + 1, w2, false)
    case None => None
    case Some((e2, y)) => Some([s[i..w1], s[g2..e2], s[y..y + 4]])
  }

  /** The shared tail `\s*[-–]\s*(\w+ \d+),?\s*(\d{4})` of pattern 3, from position `p`: its two groups. */
  function MatchSecondFullDate(s: string, p: nat): (r: Option<seq<string>>)
    requires p <= |s|
    ensures r.Some? ==> |r.value| == 2
  {
    var h := RunEnd(s, p, Space);
    if h == |s| || !IsDash(s[h]) then None else
    var g3 := RunEnd(s, h + 1, Space);
    var w3 := RunEnd(s, g3, Word);
    if w3 == g3 || w3 == |s| || s[w3] != ' ' then None else
    var d3 := RunEnd(s, w3 + 1, Digit);
    if d3 == w3 + 1 then None else
    match GroupThenYear(s, w3 + 1, d3, true)
    case None => None
    case Some((e3, y)) => Some([s[g3..e3], s[y..y + 4]])
  }

  /**
   * Pattern 3 at position `i`: "Jan 15, 2026 - Apr 4, 2026".  The first day's
   * digits either keep the whole run (then `,?\s*(\d{4})` must follow) or give
   * back exactly four digits as the first year; only those two alternatives can
   * be followed by `\s*[-–]`.
   */
  function MatchFullDates(s: string, i: nat): (r: Option<seq<string>>)
    requires i <= |s|
    ensures r.Some? ==> |r.value| == 4
  {
    var w1 := RunEnd(s, i, Word);
    if w1 == i || w1 == |s| || s[w1] != ' ' then None else
    var d1 := RunEnd(s, w1 + 1, Digit);
    if d1 == w1 + 1 then None else
    var c := if d1 < |s| && s[d1] == ',' then d1 + 1 else d1;
    var y := RunEnd(s, c, Space);
    var whole := if FourDigitsAt(s, y) then MatchSecondFullDate(s, y + 4) else None;
    if whole.Some? then Some([s[i..d1], s[y..y + 4]] + whole.value)
    else if d1 - 4 > w1 + 1 then
      match MatchSecondFullDate(s, d1)
      case None => None
      case Some(rest) => Some([s[i..d1 - 4], s[d1 - 4..d1]] + rest)
    else None
  }

  /** The groups of pattern `p` anchored at position `i`. */
  function MatchAt(p: Pattern, s: string, i: nat): (r: Option<seq<string>>)
    requires i <= |s|
    ensures r.Some? ==> |r.value| == (if p == FullDates then 4 else 3)
    ensures r.Some? && p != FullDates ==> |r.value[2]| == 4 && AllDigits(r.value[2])
  {
    match p
    case MonthFirst => MatchMonthFirst(s, i)
    case DayFirst => MatchDayFirst(s, i)
    case FullDates => MatchFullDates(s, i)
  }

  /** The first `true` at or after `i`. */
  function FirstTrueFrom(found: seq<bool>, i: nat): (r: Option<nat>)
    requires i <= |found|
    ensures r.Some? ==> i <= r.value < |found| && found[r.value]
    ensures r.Some? ==> forall k :: i <= k < r.value ==> !found[k]
    ensures r.None? ==> forall k :: i <= k < |found| ==> !found[k]
    decreases |found| - i
  {
    if i == |found| then None
    else if found[i] then Some(i)
    else FirstTrueFrom(found, i + 1)
  }

  /**
   * `re.search(p, s)`: the leftmost position at which `p` matches, with the
   * groups of that match, or `None` when it matches nowhere.
   */
  function Search(p: Pattern, s: string): (r: Option<(nat, seq<string>)>)
    ensures r.Some? ==> |r.value.1| == (if p == FullDates then 4 else 3)
    ensures r.Some? && p != FullDates ==> |r.value.1[2]| == 4 && AllDigits(r.value.1[2])
    ensures r.Some? ==> r.value.0 <= |s| && MatchAt(p, s, r.value.0) == Some(r.value.1)
    ensures r.Some? ==> forall k :: 0 <= k < r.value.0 ==> MatchAt(p, s, k).None?
    ensures r.None? ==> forall k :: 0 <= k <= |s| ==> MatchAt(p, s, k).None?
  {
    var found := seq(|s| + 1, k requires 0 <= k <= |s| => MatchAt(p, s, k).Some?);
    assert forall k :: 0 <= k <= |s| ==> found[k] == MatchAt(p, s, k).Some?;
    match FirstTrueFrom(found, 0)
    case None => None
    case Some(i) => Some((i, MatchAt(p, s, i).value))
  }

  // ---------------------------------------------------------------------
  // Month names, days and the pattern loop
  // ---------------------------------------------------------------------

  /** The `months` table in its iteration order: full names first, then the abbreviations ("may" has none). */
  const MonthTable: seq<(string, nat)> := [
    ("january", 1), ("february", 2), ("march", 3), ("april", 4),
    ("may", 5), ("june", 6), ("july", 7), ("august", 8),
    ("september", 9), ("october", 10), ("november", 11), ("december", 12),
    ("jan", 1), ("feb", 2), ("mar", 3), ("apr", 4),
    ("jun", 6), ("jul", 7), ("aug", 8), ("sep", 9), ("oct", 10), ("nov", 11), ("dec", 12)
  ]

  /** The first table entry at or after `k` whose name occurs in `side`: where the `for ... break` loop stops. */
  function FirstMonthEntry(side: string, k: nat): (r: Option<nat>)
    ensures r.Some? ==> k <= r.value < |MonthTable| && Contains(side, MonthTable[r.value].0)
    ensures r.Some? ==> forall j :: k <= j < r.value ==> !Contains(side, MonthTable[j].0)
    ensures r.None? ==> forall j :: k <= j < |MonthTable| ==> !Contains(side, MonthTable[j].0)
    decreases |MonthTable| - k
  {
    if k >= |MonthTable| then None
    else if Contains(side, MonthTable[k].0) then Some(k)
    else FirstMonthEntry(side, k + 1)
  }

  /** The month number the loop over `months.items()` settles on, if any name occurs. */
  function MonthOf(side: string): (r: Option<nat>)
    ensures r.Some? ==> 1 <= r.value <= 12
    ensures r.Some? <==> exists j :: 0 <= j < |MonthTable| && Contains(side, MonthTable[j].0)
  {
    match FirstMonthEntry(side, 0)
    case None => None
    case Some(j) => Some(MonthTable[j].1)
  }

  /** The index of the first digit of `s` at or after `i`. */
  function FirstDigitFrom(s: string, i: nat): (r: Option<nat>)
    requires i <= |s|
    ensures r.Some? ==> i <= r.value < |s| && IsDigit(s[r.value])
    ensures r.Some? ==> forall m :: i <= m < r.value ==> !IsDigit(s[m])
    ensures r.None? ==> forall m :: i <= m < |s| ==> !IsDigit(s[m])
    decreases |s| - i
  {
    if i == |s| then None
    else if IsDigit(s[i]) then Some(i)
    else FirstDigitFrom(s, i + 1)
  }

  /** `re.search(r'\d+', s).group()`: the first run of digits, or `None` when `s` has no digit. */
  function FirstDigitRun(s: string): (r: Option<string>)
    ensures r.Some? ==> |r.value| >= 1 && AllDigits(r.value)
  {
    match FirstDigitFrom(s, 0)
    case None => None
    case Some(i) =>
      var e := RunEnd(s, i, Digit);
      RunEndIsMaximal(s, i, Digit);
      Some(s[i..e])
  }

  /** A date as the parser assembles it, before formatting; the day is not checked against the month. */
  datatype Ymd = Ymd(year: nat, month: nat, day: nat)

  /** `f"{year}-{month:02d}-{day:02d}"`. */
  function FormatYmd(d: Ymd): string
  {
    Decimal(d.year) + "-" + ZeroPad(d.month, 2) + "-" + ZeroPad(d.day, 2)
  }

  /** What the month loop for one side does: no name found, a date bound, or the exception raised when the side has no digit. */
  datatype SideOutcome = NoMonth | Bound(date: Ymd) | NoDigits

  function ParseSide(side: string, year: nat): SideOutcome
  {
    match MonthOf(side)
    case None => NoMonth
    case Some(m) =>
      match FirstDigitRun(side)
      case None => NoDigits
      case Some(d) => Bound(Ymd(year, m, DigitsValue(d)))
  }

  /** The local variables `start_date` and `end_date`, each possibly unbound. */
  datatype Bindings = Bindings(start: Option<Ymd>, end: Option<Ymd>)

  const Unbound := Bindings(None, None)

  function Rebind(prior: Option<Ymd>, o: SideOutcome): Option<Ymd>
  {
    if o.Bound? then Some(o.date) else prior
  }

  /** The `try` block for a three-group match: it returns a pair, or it raises and leaves the bindings made so far. */
  datatype Attempt = Returned(start: Ymd, end: Ymd) | Raised(bindings: Bindings)

  function AttemptGroups(startStr: string, endStr: string, yearStr: string, carried: Bindings): Attempt
    requires AllDigits(yearStr)
  {
    var year := DigitsValue(yearStr);
    var o1 := ParseSide(startStr, year);
    if o1.NoDigits? then Raised(carried) else
    var b1 := carried.(start := Rebind(carried.start, o1));
    var o2 := ParseSide(endStr, year);
    if o2.NoDigits? then Raised(b1) else
    var b2 := b1.(end := Rebind(b1.end, o2));
    if b2.start.Some? && b2.end.Some? then Returned(b2.start.value, b2.end.value) else Raised(b2)
  }

  /**
   * The `for pattern in patterns` loop over the remaining patterns.  `keepStale`
   * says whether bindings left by a pattern that raised survive into the next
   * pattern, as the function's locals do in the source.
   */
  function TryPatterns(s: string, pats: seq<Pattern>, carried: Bindings, keepStale: bool): Option<(Ymd, Ymd)>
    decreases |pats|
  {
    if pats == [] then None
    else match Search(pats[0], s)
      case None => TryPatterns(s, pats[1..], carried, keepStale)
      case Some((_, groups)) =>
        if |groups| == 3 then
          match AttemptGroups(groups[0], groups[1], groups[2], carried)
          case Returned(a, b) => Some((a, b))
          case Raised(left) => TryPatterns(s, pats[1..], if keepStale then left else Unbound, keepStale)
        else TryPatterns(s, pats[1..], carried, keepStale)
  }

  /** `parse_date_range` before formatting, as written: bindings survive a failed pattern. */
  function ParseDateFields(dateStr: string): Option<(Ymd, Ymd)>
  {
    TryPatterns(Lower(dateStr), Patterns, Unbound, true)
  }

  /** `parse_date_range`: `None` stands for `(None, None)`. */
  function ParseDateRange(dateStr: string): Option<(string, string)>
  {
    match ParseDateFields(dateStr)
    case None => None
    case Some((a, b)) => Some((FormatYmd(a), FormatYmd(b)))
  }

  /** The evidently intended parser: every pattern starts with both dates unbound. */
  function ParseDateFieldsFresh(dateStr: string): Option<(Ymd, Ymd)>
  {
    TryPatterns(Lower(dateStr), Patterns, Unbound, false)
  }

  // ---------------------------------------------------------------------
  // Properties of the parser
  // ---------------------------------------------------------------------

  /** Parsing is case-insensitive: the input is lower-cased before any pattern is tried. */
  lemma ParseIsCaseInsensitive(dateStr: string)
    ensures ParseDateRange(dateStr) == ParseDateRange(Lower(dateStr))
  {
    LowerIdempotent(dateStr);
  }

  /** A date the parser can produce: a month from the table and a year of at most four digits; the day is unchecked. */
  predicate PlausibleYmd(d: Ymd) { 1 <= d.month <= 12 && d.year < 10000 }

  predicate PlausibleBindings(b: Bindings)
  {
    (b.start.Some? ==> PlausibleYmd(b.start.value)) && (b.end.Some? ==> PlausibleYmd(b.end.value))
  }

  lemma AttemptKeepsPlausible(startStr: string, endStr: string, yearStr: string, carried: Bindings)
    requires AllDigits(yearStr) && |yearStr| == 4 && PlausibleBindings(carried)
    ensures AttemptGroups(startStr, endStr, yearStr, carried).Returned? ==>
              PlausibleYmd(AttemptGroups(startStr, endStr, yearStr, carried).start) &&
              PlausibleYmd(AttemptGroups(startStr, endStr, yearStr, carried).end)
    ensures AttemptGroups(startStr, endStr, yearStr, carried).Raised? ==>
              PlausibleBindings(AttemptGroups(startStr, endStr, yearStr, carried).bindings)
  {
    DigitsValueBound(yearStr);
  }

  lemma {:induction false} TryPatternsPlausible(s: string, pats: seq<Pattern>, carried: Bindings, keepStale: bool)
    requires PlausibleBindings(carried)
    ensures TryPatterns(s, pats, carried, keepStale).Some? ==>
              PlausibleYmd(TryPatterns(s, pats, carried, keepStale).value.0) &&
              PlausibleYmd(TryPatterns(s, pats, carried, keepStale).value.1)
    decreases |pats|
  {
    if pats != [] {
      match Search(pats[0], s)
      case None => TryPatternsPlausible(s, pats[1..], carried, keepStale);
      case Some((_, groups)) =>
        if |groups| == 3 {
          assert pats[0] != FullDates;
          AttemptKeepsPlausible(groups[0], groups[1], groups[2], carried);
          match AttemptGroups(groups[0], groups[1], groups[2], carried)
          case Returned(a, b) =>
          case Raised(left) => TryPatternsPlausible(s, pats[1..], if keepStale then left else Unbound, keepStale);
        } else {
          TryPatternsPlausible(s, pats[1..], carried, keepStale);
        }
    }
  }

  /** Every returned month is in 1..12 and every year comes from four digits; days are not validated. */
  lemma ParsedDatesPlausible(dateStr: string)
    ensures ParseDateFields(dateStr).Some? ==>
              PlausibleYmd(ParseDateFields(dateStr).value.0) && PlausibleYmd(ParseDateFields(dateStr).value.1)
  {
    TryPatternsPlausible(Lower(dateStr), Patterns, Unbound, true);
  }

  lemma {:induction false} FreshPatternsSingleYear(s: string, pats: seq<Pattern>)
    ensures TryPatterns(s, pats, Unbound, false).Some? ==>
              TryPatterns(s, pats, Unbound, false).value.0.year == TryPatterns(s, pats, Unbound, false).value.1.year
    decreases |pats|
  {
    if pats != [] {
      match Search(pats[0], s)
      case None => FreshPatternsSingleYear(s, pats[1..]);
      case Some((_, groups)) =>
        if |groups| == 3 {
          assert pats[0] != FullDates;
          match AttemptGroups(groups[0], groups[1], groups[2], Unbound)
          case Returned(a, b) =>
          case Raised(left) => FreshPatternsSingleYear(s, pats[1..]);
        } else {
          FreshPatternsSingleYear(s, pats[1..]);
        }
    }
  }

  /** With fresh bindings per pattern, both dates carry the year captured at the end of the one match that produced them. */
  lemma FreshRangeSingleYear(dateStr: string)
    ensures ParseDateFieldsFresh(dateStr).Some? ==>
              ParseDateFieldsFresh(dateStr).value.0.year == ParseDateFieldsFresh(dateStr).value.1.year
  {
    FreshPatternsSingleYear(Lower(dateStr), Patterns);
  }

  lemma AttemptFromUnboundWins(startStr: string, endStr: string, yearStr: string, carried: Bindings)
    requires AllDigits(yearStr)
    requires AttemptGroups(startStr, endStr, yearStr, Unbound).Returned?
    ensures AttemptGroups(startStr, endStr, yearStr, carried) == AttemptGroups(startStr, endStr, yearStr, Unbound)
  {
  }

  /** The four-group pattern never reaches the `len(groups) == 3` branch, so on its own it never yields a range. */
  lemma FullDatesNeverReturns(s: string, carried: Bindings, keepStale: bool)
    ensures TryPatterns(s, [FullDates], carried, keepStale) == None
  {
    assert [FullDates][1..] == [];
  }

  /** Without a match of the two three-group patterns there is no range: the third pattern's four groups are never used. */
  lemma NoThreeGroupMatchNoRange(dateStr: string)
    requires Search(MonthFirst, Lower(dateStr)).None? && Search(DayFirst, Lower(dateStr)).None?
    ensures ParseDateRange(dateStr) == None && ParseDateFieldsFresh(dateStr) == None
  {
    assert Patterns[1..] == [DayFirst, FullDates];
    assert Patterns[1..][1..] == [FullDates];
    FullDatesNeverReturns(Lower(dateStr), Unbound, true);
    FullDatesNeverReturns(Lower(dateStr), Unbound, false);
  }

  /** Both three-group patterns need a hyphen or an en dash between the two dates. */
  lemma MatchNeedsDash(p: Pattern, s: string, i: nat)
    requires i <= |s| && p != FullDates && MatchAt(p, s, i).Some?
    ensures exists h :: 0 <= h < |s| && IsDash(s[h])
  {
    if p == MonthFirst {
      var w1 := RunEnd(s, i, Word);
      var d1 := RunEnd(s, w1 + 1, Digit);
      var h := RunEnd(s, d1, Space);
      assert IsDash(s[h]);
    } else {
      var d1 := RunEnd(s, i, Digit);
      var w1 := RunEnd(s, d1 + 1, Word);
      var h := RunEnd(s, w1, Space);
      assert IsDash(s[h]);
    }
  }

  /** Text without a hyphen or an en dash never yields a range. */
  lemma NoDashNoRange(dateStr: string)
    requires forall i :: 0 <= i < |dateStr| ==> !IsDash(dateStr[i])
    ensures ParseDateRange(dateStr) == None && ParseDateFieldsFresh(dateStr) == None
  {
    var s := Lower(dateStr);
    assert forall i :: 0 <= i < |s| ==> !IsDash(s[i]);
    forall p, i | p != FullDates && 0 <= i <= |s|
      ensures MatchAt(p, s, i).None?
    {
      if MatchAt(p, s, i).Some? {
        MatchNeedsDash(p, s, i);
      }
    }
    NoThreeGroupMatchNoRange(dateStr);
  }

  /**
   * A date with a year of at least four digits is written as
   * `date.isoformat()` writes it, so `date.fromisoformat` reads it back
   * whenever it is a real day.
   */
  lemma FormatYmdIsIso(d: Ymd)
    requires 1000 <= d.year
    ensures FormatYmd(d) == Dates.FormatIso(Dates.Date(d.year, d.month, d.day))
    ensures d.year <= Dates.MaxYear && d.month < 100 && d.day < 100 ==>
      |FormatYmd(d)| == 10 && FormatYmd(d)[4] == '-' && FormatYmd(d)[7] == '-'
    ensures Dates.Valid(Dates.Date(d.year, d.month, d.day)) ==>
      Dates.ParseIso(FormatYmd(d)) == Some(Dates.Date(d.year, d.month, d.day))
  {
    var y := Decimal(d.year);
    DigitsValueBound(y);
    assert |y| >= 4 by {
      assert Pow10(1) == 10 && Pow10(2) == 100 && Pow10(3) == 1000;
    }
    if d.year < Pow10(4) {
      DecimalLength(d.year, 4);
    }
    assert Zeros(0) + y == y;
    if Dates.Valid(Dates.Date(d.year, d.month, d.day)) {
      Dates.ParseFormatRoundTrip(Dates.Date(d.year, d.month, d.day));
    }
  }

  lemma DayFirstAgreesWhenFreshSucceeds(s: string, carried: Bindings)
    ensures TryPatterns(s, [DayFirst, FullDates], Unbound, false).Some? ==>
              TryPatterns(s, [DayFirst, FullDates], carried, true) == TryPatterns(s, [DayFirst, FullDates], Unbound, false)
  {
    var pats := [DayFirst, FullDates];
    assert pats[1..] == [FullDates];
    FullDatesNeverReturns(s, Unbound, false);
    match Search(DayFirst, s)
    case None =>
    case Some((_, groups)) =>
      if AttemptGroups(groups[0], groups[1], groups[2], Unbound).Returned? {
        AttemptFromUnboundWins(groups[0], groups[1], groups[2], carried);
      }
  }

  /** Whenever the intended parser finds a range, the parser as written returns the same range. */
  lemma FreshAgreesWithAsWritten(dateStr: string)
    ensures ParseDateFieldsFresh(dateStr).Some? ==> ParseDateFields(dateStr) == ParseDateFieldsFresh(dateStr)
  {
    var s := Lower(dateStr);
    assert Patterns[1..] == [DayFirst, FullDates];
    match Search(MonthFirst, s)
    case None => DayFirstAgreesWhenFreshSucceeds(s, Unbound);
    case Some((_, groups)) =>
      match AttemptGroups(groups[0], groups[1], groups[2], Unbound)
      case Returned(_, _) =>
      case Raised(left) => DayFirstAgreesWhenFreshSucceeds(s, left);
  }

  /** `Search` reports the first position at which the pattern matches. */
  lemma SearchFindsFirst(p: Pattern, s: string, i: nat)
    requires i <= |s| && MatchAt(p, s, i).Some?
    requires forall k :: 0 <= k < i ==> MatchAt(p, s, k).None?
    ensures Search(p, s) == Some((i, MatchAt(p, s, i).value))
  {
  }

  /** The formatted range is the pair of formatted dates. */
  lemma RangeOfFields(dateStr: string, a: Ymd, b: Ymd)
    requires ParseDateFields(dateStr) == Some((a, b))
    ensures ParseDateRange(dateStr) == Some((FormatYmd(a), FormatYmd(b)))
  {
  }

  /** Only the lower-cased text reaches the patterns. */
  lemma FieldsOfLowered(dateStr: string, s: string)
    requires Lower(dateStr) == s
    ensures ParseDateFields(dateStr) == TryPatterns(s, Patterns, Unbound, true)
    ensures ParseDateFieldsFresh(dateStr) == TryPatterns(s, Patterns, Unbound, false)
  {
  }
}
