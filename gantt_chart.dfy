/**
 * The computations behind the Gantt sheet of services/gantt_chart_generator.py:
 * spreadsheet column letters, month headers, milestone columns, activity
 * budgets, overall progress and status, and which cells a timeline bar
 * paints and how. The openpyxl workbook itself is not modelled.
 */
module GanttChart {
  import opened Wrappers
  import opened PyStr

  // ---------------------------------------------------------------------------
  // _get_column_letter: bijective base 26
  // ---------------------------------------------------------------------------

  /** `chr(d + ord('A'))` for a digit d of the base-26 numeral. */
  function LetterOf(d: nat): char
    requires d < 26
  {
    ('A' as int + d) as char
  }

  predicate IsColumnLetter(c: char) { 'A' <= c <= 'Z' }

  /**
   * The column name of n: the numeral of n in bijective base 26 over
   * 'A'..'Z' (1 is "A", 26 is "Z", 27 is "AA"); empty for n <= 0.
   */
  function ColumnName(n: int): (r: string)
    ensures n > 0 <==> r != []
    ensures forall i :: 0 <= i < |r| ==> IsColumnLetter(r[i])
    decreases if n > 0 then n else 0
  {
    if n <= 0 then "" else ColumnName((n - 1) / 26) + [LetterOf((n - 1) % 26)]
  }

  /** The number a column name stands for: each letter is a digit from 1 ('A') to 26 ('Z'). */
  function ColumnValue(s: string): nat
    requires forall i :: 0 <= i < |s| ==> IsColumnLetter(s[i])
  {
    if s == [] then 0
    else
      var c := s[|s| - 1];
      assert IsColumnLetter(c);
      ColumnValue(s[..|s| - 1]) * 26 + (c as int - 'A' as int + 1)
  }

  /** The while loop of `_get_column_letter`. */
  method GetColumnLetter(colNum: int) returns (result: string)
    ensures result == ColumnName(colNum)
  {
    result := "";
    var col := colNum;
    while col > 0
      invariant ColumnName(colNum) == ColumnName(col) + result
      decreases col
    {
      assert ColumnName(col) == ColumnName((col - 1) / 26) + [LetterOf((col - 1) % 26)];
      col := col - 1;
      var letter := LetterOf(col % 26);
      assert ColumnName(col + 1) + result == ColumnName(col / 26) + ([letter] + result);
      result := [letter] + result;
      col := col / 26;
    }
  }

  /** Reading a column name back gives its number. */
  lemma {:induction false} ColumnValueOfName(n: nat)
    ensures ColumnValue(ColumnName(n)) == n
    decreases n
  {
    if n > 0 {
      var s := ColumnName(n);
      ColumnValueOfName((n - 1) / 26);
      assert s[..|s| - 1] == ColumnName((n - 1) / 26);
    }
  }

  /** Every non-empty word over 'A'..'Z' is the name of exactly the number it stands for. */
  lemma {:induction false} ColumnNameOfValue(s: string)
    requires forall i :: 0 <= i < |s| ==> IsColumnLetter(s[i])
    ensures ColumnName(ColumnValue(s)) == s
    decreases |s|
  {
    if s != [] {
      var init := s[..|s| - 1];
      var k := s[|s| - 1] as int - 'A' as int + 1;
      ColumnNameOfValue(init);
      var v := ColumnValue(s);
      assert v == ColumnValue(init) * 26 + k && 1 <= k <= 26;
      assert (v - 1) / 26 == ColumnValue(init);
      assert (v - 1) % 26 == k - 1;
      assert s == init + [s[|s| - 1]];
    }
  }

  /** Different columns get different names. */
  lemma ColumnNameInjective(m: nat, n: nat)
    requires ColumnName(m) == ColumnName(n)
    ensures m == n
  {
    ColumnValueOfName(m);
    ColumnValueOfName(n);
  }

  /** The first columns and the first rollover: 1 is "A", 26 is "Z", 27 is "AA", 702 is "ZZ", 703 is "AAA". */
  lemma ColumnNameExamples()
    ensures ColumnName(1) == "A" && ColumnName(26) == "Z" && ColumnName(27) == "AA"
    ensures ColumnName(702) == "ZZ" && ColumnName(703) == "AAA"
  {
    assert ColumnName(0) == "";
    assert ColumnName(1) == "A";
    assert ColumnName(26) == "Z";
    assert ColumnName(27) == "AA";
    assert ColumnName(702) == "ZZ";
    assert ColumnName(703) == ColumnName(27) + "A";
  }

  // ---------------------------------------------------------------------------
  // _calculate_milestone_column
  // ---------------------------------------------------------------------------

  /** The column of month `month` when month 1 sits in column `dateColStart`. */
  function MilestoneColumn(month: int, dateColStart: int): (r: string) {
    ColumnName(dateColStart + month - 1)
  }

  /**
   * Month 1 lands on the first date column itself, the columns of months
   * past the first lie to its right in order, and different months get
   * different columns.
   */
  lemma MilestoneColumnSpec(m1: int, m2: int, dateColStart: int)
    requires dateColStart >= 1 && m1 >= 1 && m2 >= 1
    ensures MilestoneColumn(1, dateColStart) == ColumnName(dateColStart)
    ensures ColumnValue(MilestoneColumn(m1, dateColStart)) == dateColStart + m1 - 1
    ensures m1 != m2 ==> MilestoneColumn(m1, dateColStart) != MilestoneColumn(m2, dateColStart)
  {
    MilestoneValue(m1, dateColStart);
    if m1 != m2 {
      MilestonesDiffer(m1, m2, dateColStart);
    }
  }

  lemma MilestoneValue(m: int, dateColStart: int)
    requires dateColStart >= 1 && m >= 1
    ensures ColumnValue(MilestoneColumn(m, dateColStart)) == dateColStart + m - 1
  {
    ColumnValueOfName(dateColStart + m - 1);
  }

  lemma MilestonesDiffer(m1: int, m2: int, dateColStart: int)
    requires dateColStart >= 1 && m1 >= 1 && m2 >= 1 && m1 != m2
    ensures MilestoneColumn(m1, dateColStart) != MilestoneColumn(m2, dateColStart)
  {
    ColumnNamesDiffer(dateColStart + m1 - 1, dateColStart + m2 - 1);
  }

  /** Different numbers have different names. */
  lemma ColumnNamesDiffer(a: nat, b: nat)
    requires a != b
    ensures ColumnName(a) != ColumnName(b)
  {
    ColumnValueOfName(a);
    ColumnValueOfName(b);
  }

  // ---------------------------------------------------------------------------
  // _generate_month_headers
  // ---------------------------------------------------------------------------

  /** A calendar month of a `datetime`. */
  datatype YearMonth = YearMonth(year: int, month: int)

  /** A date `datetime` can hold: years 1 to 9999. */
  predicate ValidYearMonth(d: YearMonth) {
    1 <= d.year <= 9999 && 1 <= d.month <= 12
  }

  /** The month after d: December rolls over to January of the next year. */
  function NextMonth(d: YearMonth): YearMonth {
    if d.month == 12 then YearMonth(d.year + 1, 1) else YearMonth(d.year, d.month + 1)
  }

  /** The month i months after start: i steps of `NextMonth`. */
  function MonthAt(start: YearMonth, i: nat): (r: YearMonth)
    requires 1 <= start.month <= 12
    ensures 1 <= r.month <= 12 && r.year >= start.year
  {
    if i == 0 then start else NextMonth(MonthAt(start, i - 1))
  }

  /** In closed form: month i is at offset `start.month - 1 + i` from January of the start year. */
  lemma {:induction false} MonthAtClosedForm(start: YearMonth, i: nat)
    requires 1 <= start.month <= 12
    ensures var t := start.month - 1 + i;
      MonthAt(start, i) == YearMonth(start.year + t / 12, t % 12 + 1)
  {
    if i > 0 {
      MonthAtClosedForm(start, i - 1);
      var t := start.month - 1 + i - 1;
      if t % 12 == 11 {
        assert (t + 1) / 12 == t / 12 + 1 && (t + 1) % 12 == 0;
      } else {
        assert (t + 1) / 12 == t / 12 && (t + 1) % 12 == t % 12 + 1;
      }
    }
  }

  /** Later months never have earlier years. */
  lemma {:induction false} MonthAtYearMonotone(start: YearMonth, i: nat, j: nat)
    requires 1 <= start.month <= 12 && i <= j
    ensures MonthAt(start, i).year <= MonthAt(start, j).year
    decreases j
  {
    if i < j {
      MonthAtYearMonotone(start, i, j - 1);
    }
  }

  /** `calendar.month_abbr` in the C locale. */
  function MonthAbbr(m: int): string
    requires 1 <= m <= 12
  {
    ["Jan", "Feb", "Mar", "Apr", "May", "Jun", "Jul", "Aug", "Sep", "Oct", "Nov", "Dec"][m - 1]
  }

  /** `s[2:]`. */
  function DropTwo(s: string): string {
    if |s| >= 2 then s[2..] else ""
  }

  /** The header of one month: abbreviation, newline, apostrophe and `str(year)[2:]`. */
  function MonthHeader(d: YearMonth): string
    requires 1 <= d.month <= 12
  {
    MonthAbbr(d.month) + "\n'" + DropTwo(IntToString(d.year))
  }

  /** The headers of the first n months from start. */
  function Headers(start: YearMonth, n: nat): (r: seq<string>)
    requires 1 <= start.month <= 12
    ensures |r| == n
  {
    if n == 0 then [] else Headers(start, n - 1) + [MonthHeader(MonthAt(start, n - 1))]
  }

  lemma {:induction false} HeadersAt(start: YearMonth, n: nat, k: nat)
    requires 1 <= start.month <= 12 && k < n
    ensures Headers(start, n)[k] == MonthHeader(MonthAt(start, k))
    decreases n
  {
    var h := Headers(start, n - 1);
    var last := MonthHeader(MonthAt(start, n - 1));
    SnocAt(h, last, k);
    if k < n - 1 {
      HeadersAt(start, n - 1, k);
    }
  }

  /** Indexing a sequence with one element appended. */
  lemma SnocAt<T>(h: seq<T>, x: T, k: nat)
    requires k <= |h|
    ensures (h + [x])[k] == if k < |h| then h[k] else x
  {
  }

  /** The Gregorian leap-year rule of `datetime`. */
  predicate IsLeapYear(y: int) {
    y % 4 == 0 && (y % 100 != 0 || y % 400 == 0)
  }

  /** The number of days of month d. */
  function DaysInMonth(d: YearMonth): (r: int)
    requires 1 <= d.month <= 12
    ensures 28 <= r <= 31
  {
    if d.month == 2 then (if IsLeapYear(d.year) then 29 else 28)
    else if d.month == 4 || d.month == 6 || d.month == 9 || d.month == 11 then 30
    else 31
  }

  /** `replace` can move a date with this day of the month into month d. */
  predicate DayFits(d: YearMonth, day: int)
    requires 1 <= d.month <= 12
  {
    d.year <= 9999 && day <= DaysInMonth(d)
  }

  /** The first n moves from start, keeping the day of the month, all land on a real date. */
  predicate MovesOk(start: YearMonth, day: int, n: nat)
    requires 1 <= start.month <= 12
  {
    n == 0 || (MovesOk(start, day, n - 1) && DayFits(MonthAt(start, n), day))
  }

  /** Moves that succeed for n months succeed for fewer. */
  lemma {:induction false} MovesOkPrefix(start: YearMonth, day: int, k: nat, n: nat)
    requires 1 <= start.month <= 12 && k <= n
    ensures MovesOk(start, day, n) ==> MovesOk(start, day, k)
    decreases n
  {
    if k < n {
      MovesOkPrefix(start, day, k, n - 1);
    }
  }

  /**
   * A day every month has: only the year bound can stop the moves, which
   * is exactly when the last month falls after 9999.
   */
  lemma {:induction false} MovesOkShortDay(start: YearMonth, day: int, n: nat)
    requires ValidYearMonth(start) && day <= 28
    ensures MovesOk(start, day, n) <==> MonthAt(start, n).year <= 9999
    decreases n
  {
    if n > 0 {
      MovesOkShortDay(start, day, n - 1);
      MonthAtYearMonotone(start, n - 1, n);
    }
  }

  /**
   * Day 31 never survives two moves: of two consecutive months after a
   * 31-day month, one has fewer than 31 days.
   */
  lemma ThirtyFirstFailsWithinTwoMonths(start: YearMonth)
    requires ValidYearMonth(start) && DaysInMonth(start) == 31
    ensures !MovesOk(start, 31, 2)
  {
    assert MonthAt(start, 1) == NextMonth(start);
    assert MonthAt(start, 2) == NextMonth(NextMonth(start));
  }

  /** The 31st of January cannot move to February. */
  lemma JanuaryThirtyFirstFails(year: int)
    requires 1 <= year <= 9999
    ensures !MovesOk(YearMonth(year, 1), 31, 1)
  {
    assert MonthAt(YearMonth(year, 1), 1) == YearMonth(year, 2);
  }

  /**
   * `_generate_month_headers`: one header per month from `start`, moving to
   * the next month after each with `replace`, which keeps the day of the
   * month and raises ValueError when that date does not exist: year 10000,
   * or a day the next month lacks (the 31st before a 30-day month, the 29th
   * to the 31st before February).
   */
  method GenerateMonthHeaders(start: YearMonth, day: int, durationMonths: int) returns (r: Result<seq<string>>)
    requires ValidYearMonth(start) && 1 <= day <= DaysInMonth(start)
    ensures var n := if durationMonths > 0 then durationMonths else 0;
      r.Err? <==> !MovesOk(start, day, n)
    ensures r.Err? ==> r.error == "ValueError"
    ensures r.Ok? ==> |r.value| == (if durationMonths > 0 then durationMonths else 0)
    ensures r.Ok? ==> forall i :: 0 <= i < |r.value| ==> r.value[i] == MonthHeader(MonthAt(start, i))
  {
    var headers: seq<string> := [];
    var current := start;
    var i := 0;
    while i < durationMonths
      invariant 0 <= i && (i <= durationMonths || i == 0)
      invariant current == MonthAt(start, i) && MovesOk(start, day, i)
      invariant headers == Headers(start, i)
      decreases durationMonths - i
    {
      headers := headers + [MonthHeader(current)];
      var next;
      if current.month == 12 {
        next := YearMonth(current.year + 1, 1);
      } else {
        next := YearMonth(current.year, current.month + 1);
      }
      if next.year > 9999 || day > DaysInMonth(next) {
        MovesOkPrefix(start, day, i + 1, durationMonths);
        return Err("ValueError");
      }
      current := next;
      i := i + 1;
    }
    forall k | 0 <= k < |headers|
      ensures headers[k] == MonthHeader(MonthAt(start, k))
    {
      HeadersAt(start, i, k);
    }
    r := Ok(headers);
  }

  /** Two-digit years: from 2010 to 2099 the header ends in the last two digits of the year. */
  lemma MonthHeaderYear(d: YearMonth)
    requires 1 <= d.month <= 12 && 2010 <= d.year <= 2099
    ensures MonthHeader(d) == MonthAbbr(d.month) + "\n'" + NatToString(d.year - 2000)
  {
    var y := d.year;
    assert NatToString(y) == NatToString(y / 10) + [DigitChar(y % 10)];
    assert NatToString(y / 10) == NatToString(y / 100) + [DigitChar((y / 10) % 10)];
    assert NatToString(y / 100) == "20";
    assert NatToString(y - 2000) == NatToString((y - 2000) / 10) + [DigitChar((y - 2000) % 10)];
    assert (y - 2000) / 10 == (y / 10) % 10 && (y - 2000) % 10 == y % 10;
    assert NatToString((y - 2000) / 10) == [DigitChar((y / 10) % 10)];
  }

  // ---------------------------------------------------------------------------
  // _get_activity_budget
  // ---------------------------------------------------------------------------

  /** A budget line as the Gantt generator reads it: both keys may be missing. */
  datatype BudgetLine = BudgetLine(activityCode: Option<string>, totalCost: Option<real>)

  /** The lines whose `activity_code` equals code, in order. */
  function ActivityLines(items: seq<BudgetLine>, code: string): (r: seq<BudgetLine>)
    ensures |r| <= |items|
    ensures forall i :: 0 <= i < |r| ==> r[i].activityCode == Some(code)
  {
    if items == [] then []
    else
      var x := items[|items| - 1];
      ActivityLines(items[..|items| - 1], code) + (if x.activityCode == Some(code) then [x] else [])
  }

  /** `sum(item.get('total_cost', 0) ...)`. */
  function LinesCost(lines: seq<BudgetLine>): real {
    if lines == [] then 0.0 else LinesCost(lines[..|lines| - 1]) + lines[|lines| - 1].totalCost.GetOr(0.0)
  }

  /** `_get_activity_budget`: the cost of the activity's lines, a missing cost counting 0. */
  function ActivityBudget(items: seq<BudgetLine>, code: string): real {
    LinesCost(ActivityLines(items, code))
  }

  /** The lines not of this activity, in order. */
  function OtherLines(items: seq<BudgetLine>, code: string): seq<BudgetLine> {
    if items == [] then []
    else
      var x := items[|items| - 1];
      OtherLines(items[..|items| - 1], code) + (if x.activityCode == Some(code) then [] else [x])
  }

  lemma {:induction false} LinesCostAppend(a: seq<BudgetLine>, b: seq<BudgetLine>)
    ensures LinesCost(a + b) == LinesCost(a) + LinesCost(b)
    decreases |b|
  {
    if b == [] {
      assert a + b == a;
    } else {
      LinesCostAppend(a, b[..|b| - 1]);
      assert (a + b)[..|a + b| - 1] == a + b[..|b| - 1];
    }
  }

  /**
   * The activity's budget and the cost of all other lines make up the whole:
   * every line is counted for its own activity and for no other.
   */
  lemma {:induction false} ActivityBudgetSplit(items: seq<BudgetLine>, code: string)
    ensures ActivityBudget(items, code) + LinesCost(OtherLines(items, code)) == LinesCost(items)
  {
    if items != [] {
      var init := items[..|items| - 1];
      var x := items[|items| - 1];
      ActivityBudgetSplit(init, code);
      assert LinesCost(items) == LinesCost(init) + x.totalCost.GetOr(0.0);
      if x.activityCode == Some(code) {
        assert ActivityLines(items, code) == ActivityLines(init, code) + [x];
        LinesCostAppend(ActivityLines(init, code), [x]);
        assert LinesCost([x]) == LinesCost([x][..0]) + x.totalCost.GetOr(0.0);
        assert OtherLines(items, code) == OtherLines(init, code) + [];
        assert OtherLines(items, code) == OtherLines(init, code);
      } else {
        assert OtherLines(items, code) == OtherLines(init, code) + [x];
        LinesCostAppend(OtherLines(init, code), [x]);
        assert LinesCost([x]) == LinesCost([x][..0]) + x.totalCost.GetOr(0.0);
        assert ActivityLines(items, code) == ActivityLines(init, code) + [];
        assert ActivityLines(items, code) == ActivityLines(init, code);
      }
    }
  }

  /** A line of another activity, or without one, does not change an activity's budget. */
  lemma ActivityBudgetIgnoresOthers(items: seq<BudgetLine>, x: BudgetLine, code: string)
    requires x.activityCode != Some(code)
    ensures ActivityBudget(items + [x], code) == ActivityBudget(items, code)
  {
    assert (items + [x])[..|items|] == items;
    assert ActivityLines(items, code) + [] == ActivityLines(items, code);
  }

  /** A line of the activity adds its cost (0 when missing). */
  lemma ActivityBudgetCounts(items: seq<BudgetLine>, x: BudgetLine, code: string)
    requires x.activityCode == Some(code)
    ensures ActivityBudget(items + [x], code) == ActivityBudget(items, code) + x.totalCost.GetOr(0.0)
  {
    assert (items + [x])[..|items|] == items;
    var a := ActivityLines(items, code);
    assert (a + [x])[..|a|] == a;
  }

  // ---------------------------------------------------------------------------
  // _calculate_overall_progress and _get_project_status
  // ---------------------------------------------------------------------------

  /** What the Gantt sheet reads of an activity; every key may be missing. */
  datatype GanttActivity = GanttActivity(
    startMonth: Option<int>,
    endMonth: Option<int>,
    progress: Option<real>,
    criticalPath: Option<bool>)

  function ProgressSum(acts: seq<GanttActivity>): real {
    if acts == [] then 0.0 else ProgressSum(acts[..|acts| - 1]) + acts[|acts| - 1].progress.GetOr(0.0)
  }

  /** `_calculate_overall_progress`: 0 without activities, else the mean progress (missing counts 0). */
  function OverallProgress(acts: seq<GanttActivity>): real {
    if acts == [] then 0.0 else ProgressSum(acts) / |acts| as real
  }

  lemma {:induction false} ProgressSumBounds(acts: seq<GanttActivity>)
    requires forall i :: 0 <= i < |acts| ==> 0.0 <= acts[i].progress.GetOr(0.0) <= 100.0
    ensures 0.0 <= ProgressSum(acts) <= 100.0 * |acts| as real
  {
    if acts != [] {
      ProgressSumBounds(acts[..|acts| - 1]);
    }
  }

  /**
   * The mean times the number of activities is the total progress, and with
   * every progress in [0, 100] so is the mean.
   */
  lemma OverallProgressSpec(acts: seq<GanttActivity>)
    ensures acts != [] ==> OverallProgress(acts) * |acts| as real == ProgressSum(acts)
    ensures (forall i :: 0 <= i < |acts| ==> 0.0 <= acts[i].progress.GetOr(0.0) <= 100.0) ==>
      0.0 <= OverallProgress(acts) <= 100.0
  {
    if acts != [] {
      MeanBounds(ProgressSum(acts), |acts| as real);
    }
    if forall i :: 0 <= i < |acts| ==> 0.0 <= acts[i].progress.GetOr(0.0) <= 100.0 {
      ProgressSumBounds(acts);
    }
  }

  /** A mean of n values times n is their sum, and values in [0, 100] have a mean in [0, 100]. */
  lemma MeanBounds(s: real, n: real)
    requires n > 0.0
    ensures (s / n) * n == s
    ensures 0.0 <= s <= 100.0 * n ==> 0.0 <= s / n <= 100.0
  {
    var m := s / n;
    assert m * n == s;
    if m < 0.0 {
      assert m * n < 0.0;
    }
    if m > 100.0 {
      assert m * n > 100.0 * n;
    }
  }

  const StatusStarting := "\U{1F7E1} Inicio"
  const StatusInProgress := "\U{1F7E0} En Progreso"
  const StatusFinishing := "\U{1F535} Finalizando"
  const StatusCompleted := "\U{1F7E2} Completado"

  /** The status for a progress: thresholds 25, 75 and 100. */
  function StatusFor(progress: real): string {
    if progress < 25.0 then StatusStarting
    else if progress < 75.0 then StatusInProgress
    else if progress < 100.0 then StatusFinishing
    else StatusCompleted
  }

  /** `_get_project_status`. */
  function ProjectStatus(acts: seq<GanttActivity>): string {
    StatusFor(OverallProgress(acts))
  }

  /** The stage of a status, 0 for starting up to 3 for completed. */
  function StatusRank(s: string): nat {
    if s == StatusStarting then 0
    else if s == StatusInProgress then 1
    else if s == StatusFinishing then 2
    else 3
  }

  /**
   * More progress never moves the status back; a project is "Completado"
   * exactly when its mean progress reaches 100, and one with no activities
   * is starting.
   */
  lemma StatusForSpec(p: real, q: real)
    ensures p <= q ==> StatusRank(StatusFor(p)) <= StatusRank(StatusFor(q))
    ensures StatusFor(p) == StatusCompleted <==> p >= 100.0
    ensures StatusFor(p) == StatusStarting <==> p < 25.0
    ensures ProjectStatus([]) == StatusStarting
  {
  }

  // ---------------------------------------------------------------------------
  // _add_timeline_bar
  // ---------------------------------------------------------------------------

  datatype Fill = CompletedFill | ActivityFill | CriticalFill

  /** A month cell of the bar: left blank, or painted with a symbol and a fill. */
  datatype Cell = Blank | Painted(symbol: string, fill: Fill)

  function Clamp01(x: real): (r: real)
    ensures 0.0 <= r <= 1.0
  {
    if x < 0.0 then 0.0 else if x > 1.0 then 1.0 else x
  }

  /**
   * How far month `month` of a bar over start..end is done when the whole
   * activity is `progress` percent done, clamped to [0, 1].
   */
  function MonthProgress(progress: real, start: int, end: int, month: int): (r: real)
    ensures 0.0 <= r <= 1.0
  {
    var monthsElapsed := month - start + 1;
    var totalDuration := end - start + 1;
    Clamp01(progress / 100.0 * totalDuration as real - monthsElapsed as real + 1.0)
  }

  /** The symbol for a month's progress: over 0.8 done, over 0.3 in progress, over 0 started, else planned. */
  function SymbolFor(mp: real): string {
    if mp > 0.8 then "█" else if mp > 0.3 then "▓" else if mp > 0.0 then "░" else "─"
  }

  /**
   * The cell of month `month` (1-based): painted only within the activity's
   * months (start and end default to 1, progress to 0), with the critical
   * fill overriding the others.
   */
  function BarCell(a: GanttActivity, month: int): Cell {
    var start := a.startMonth.GetOr(1);
    var end := a.endMonth.GetOr(1);
    if start <= month <= end then
      var mp := MonthProgress(a.progress.GetOr(0.0), start, end, month);
      var fill := if mp > 0.8 then CompletedFill else ActivityFill;
      Painted(SymbolFor(mp), if a.criticalPath.GetOr(false) then CriticalFill else fill)
    else Blank
  }

  /** The month loop of `_add_timeline_bar`: one cell per month 1..totalMonths. */
  method AddTimelineBar(a: GanttActivity, totalMonths: int) returns (cells: seq<Cell>)
    ensures |cells| == if totalMonths > 0 then totalMonths else 0
    ensures forall k :: 0 <= k < |cells| ==> cells[k] == BarCell(a, k + 1)
  {
    cells := [];
    var month := 1;
    while month <= totalMonths
      invariant 1 <= month && (month <= totalMonths + 1 || month == 1)
      invariant |cells| == month - 1
      invariant forall k :: 0 <= k < |cells| ==> cells[k] == BarCell(a, k + 1)
      decreases totalMonths - month
    {
      var start := a.startMonth.GetOr(1);
      var end := a.endMonth.GetOr(1);
      var cell := Blank;
      if start <= month <= end {
        var mp := MonthProgress(a.progress.GetOr(0.0), start, end, month);
        if mp > 0.8 {
          cell := Painted("█", CompletedFill);
        } else if mp > 0.3 {
          cell := Painted("▓", ActivityFill);
        } else if mp > 0.0 {
          cell := Painted("░", ActivityFill);
        } else {
          cell := Painted("─", ActivityFill);
        }
        if a.criticalPath.GetOr(false) {
          cell := cell.(fill := CriticalFill);
        }
      }
      cells := cells + [cell];
      month := month + 1;
    }
  }

  /** The stage a symbol shows, 0 for planned up to 3 for completed. */
  function SymbolRank(s: string): nat {
    if s == "█" then 3 else if s == "▓" then 2 else if s == "░" then 1 else 0
  }

  /**
   * A bar paints exactly the months from start to end, in the critical fill
   * exactly when the activity is on the critical path.
   */
  lemma BarCellPainted(a: GanttActivity, month: int)
    ensures BarCell(a, month).Painted? <==> a.startMonth.GetOr(1) <= month <= a.endMonth.GetOr(1)
    ensures BarCell(a, month).Painted? ==>
      (BarCell(a, month).fill == CriticalFill <==> a.criticalPath.GetOr(false))
  {
  }

  /** Earlier months of a bar are never shown less complete than later ones. */
  lemma BarCellMonotone(a: GanttActivity, m1: int, m2: int)
    requires a.startMonth.GetOr(1) <= m1 <= m2 <= a.endMonth.GetOr(1)
    ensures SymbolRank(BarCell(a, m2).symbol) <= SymbolRank(BarCell(a, m1).symbol)
  {
    var start := a.startMonth.GetOr(1);
    var end := a.endMonth.GetOr(1);
    var p := a.progress.GetOr(0.0) / 100.0 * (end - start + 1) as real;
    assert p - (m2 - start + 1) as real + 1.0 <= p - (m1 - start + 1) as real + 1.0;
  }

  /** A finished activity (progress 100) shows every month done; an unstarted one (progress 0) every month planned. */
  lemma BarCellEnds(a: GanttActivity, month: int)
    requires a.startMonth.GetOr(1) <= month <= a.endMonth.GetOr(1)
    ensures a.progress.GetOr(0.0) == 100.0 ==> BarCell(a, month).symbol == "█"
    ensures a.progress.GetOr(0.0) == 0.0 ==> BarCell(a, month).symbol == "─"
  {
  }
}
