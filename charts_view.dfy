/**
 * The analytics screen: the month and week filter over the main list, the
 * expense pie slices, the per-category income/expense bars and the label of
 * the filtered report.
 */
module ChartsView {
  import opened Types
  import opened Seqs
  import opened Totals
  import opened Text
  import opened Constants

  /** The month selector: every month, or one month index. */
  datatype MonthFilter = AllMonths | OneMonth(m: Month)

  /** The week selector: the full month, or the number the selector holds. */
  datatype WeekFilter = AllWeeks | OneWeek(w: int)

  /** The weeks the selector offers. */
  predicate Selectable(w: int)
  {
    1 <= w <= 4
  }

  /** `Math.ceil(day / 7)`: the smallest week number whose seventh day is not before `d`. */
  function WeekOfDay(d: Day): (w: int)
    ensures 1 <= w <= 5
    ensures (w - 1) * 7 < d <= w * 7
  {
    (d + 6) / 7
  }

  predicate InPeriod(month: MonthFilter, week: WeekFilter, t: Transaction)
  {
    && (month.AllMonths? || t.date.month == month.m)
    && (week.AllWeeks? || WeekOfDay(t.date.day) == week.w)
  }

  /** `filteredTransactions`. */
  function FilterPeriod(xs: seq<Transaction>, month: MonthFilter, week: WeekFilter): (r: seq<Transaction>)
    ensures forall t :: t in r <==> t in xs && InPeriod(month, week, t)
  {
    FilterMembers(xs, (t: Transaction) => InPeriod(month, week, t));
    Filter(xs, (t: Transaction) => InPeriod(month, week, t))
  }

  /** With both selectors on "all" the filter keeps the whole list. */
  lemma FilterAllAll(xs: seq<Transaction>)
    ensures FilterPeriod(xs, AllMonths, AllWeeks) == xs
  {
    FilterKeepsAll(xs, (t: Transaction) => InPeriod(AllMonths, AllWeeks, t));
  }

  /** The filtered list is the main list with entries left out, in their order. */
  lemma FilterPeriodSubsequence(xs: seq<Transaction>, month: MonthFilter, week: WeekFilter)
    ensures IsSubsequence(FilterPeriod(xs, month, week), xs)
  {
    FilterIsSubsequence(xs, (t: Transaction) => InPeriod(month, week, t));
  }

  /** A month on its own keeps exactly the entries dated in that month. */
  lemma MonthFilterExact(xs: seq<Transaction>, m: Month)
    ensures FilterPeriod(xs, OneMonth(m), AllWeeks) == Filter(xs, (t: Transaction) => t.date.month == m)
  {
    FilterExt(xs, (t: Transaction) => InPeriod(OneMonth(m), AllWeeks, t), (t: Transaction) => t.date.month == m);
  }

  /** Days 29 to 31 fall in week 5, which the selector does not offer. */
  lemma LateDaysInNoWeek(xs: seq<Transaction>, month: MonthFilter, w: int)
    requires Selectable(w)
    ensures forall t :: t in FilterPeriod(xs, month, OneWeek(w)) ==> t.date.day <= 28
  {
  }

  /** A concrete entry: the 30th is in the month's list but in none of the four weeks. */
  lemma ThirtiethIsLost(t: Transaction)
    requires t.date.day == 30
    ensures t in FilterPeriod([t], OneMonth(t.date.month), AllWeeks)
    ensures forall w :: Selectable(w) ==> FilterPeriod([t], OneMonth(t.date.month), OneWeek(w)) == []
  {
    assert InPeriod(OneMonth(t.date.month), AllWeeks, t);
  }

  /** The week the selector means: week 4 runs from the 22nd to the end of the month. */
  function SelectableWeekOfDay(d: Day): (w: int)
    ensures Selectable(w)
    ensures w < 4 ==> (w - 1) * 7 < d <= w * 7
    ensures w == 4 <==> 22 <= d
  {
    if d > 28 then 4 else WeekOfDay(d)
  }

  predicate InPeriodCorrected(month: MonthFilter, week: WeekFilter, t: Transaction)
  {
    && (month.AllMonths? || t.date.month == month.m)
    && (week.AllWeeks? || SelectableWeekOfDay(t.date.day) == week.w)
  }

  /** The filter with the week offered as "Week 4 (22-31)" covering the 29th to the 31st. */
  function FilterPeriodCorrected(xs: seq<Transaction>, month: MonthFilter, week: WeekFilter): (r: seq<Transaction>)
    ensures forall t :: t in r <==> t in xs && InPeriodCorrected(month, week, t)
  {
    FilterMembers(xs, (t: Transaction) => InPeriodCorrected(month, week, t));
    Filter(xs, (t: Transaction) => InPeriodCorrected(month, week, t))
  }

  /** Every entry of a month is in exactly one of the four offered weeks. */
  lemma CorrectedWeeksPartition(xs: seq<Transaction>, month: MonthFilter, t: Transaction)
    requires t in FilterPeriodCorrected(xs, month, AllWeeks)
    ensures exists w :: Selectable(w) && t in FilterPeriodCorrected(xs, month, OneWeek(w))
    ensures forall w, v :: t in FilterPeriodCorrected(xs, month, OneWeek(w)) && t in FilterPeriodCorrected(xs, month, OneWeek(v)) ==> w == v
  {
    var w := SelectableWeekOfDay(t.date.day);
    assert t in FilterPeriodCorrected(xs, month, OneWeek(w));
  }

  /** The corrected week agrees with `Math.ceil(day / 7)` wherever the latter is offered. */
  lemma CorrectedWeekAgrees(d: Day)
    ensures d <= 28 ==> SelectableWeekOfDay(d) == WeekOfDay(d)
    ensures d > 28 ==> WeekOfDay(d) == 5 && SelectableWeekOfDay(d) == 4
  {
  }

  /**
   * `pieData`: the expense entries reduced into a dictionary keyed by
   * category, read back in key insertion order.
   */
  method PieData(filtered: seq<Transaction>) returns (slices: seq<Entry>)
    ensures slices == Grouped(Filter(filtered, OfKind(Expense)))
  {
    slices := GroupByCategory(Filter(filtered, OfKind(Expense)));
  }

  /**
   * One slice per distinct expense category, each holding that category's
   * sum; the slices add up to the filtered expense total.
   */
  lemma PieSlices(filtered: seq<Transaction>)
    ensures var slices := Grouped(Filter(filtered, OfKind(Expense)));
      && NoDuplicates(MapSeq(slices, EntryName))
      && (forall c :: c in MapSeq(slices, EntryName) <==>
            exists t :: t in filtered && t.kind == Expense && t.category == c)
      && (forall i :: 0 <= i < |slices| ==>
            slices[i].total == CategoryTotal(Filter(filtered, OfKind(Expense)), slices[i].name))
      && SumTotals(slices) == KindTotal(filtered, Expense)
  {
    var ex := Filter(filtered, OfKind(Expense));
    FilterMembers(filtered, OfKind(Expense));
    GroupedNames(ex);
    GroupedTotal(ex);
    var names := MapSeq(Grouped(ex), EntryName);
    forall c ensures c in names <==> exists t :: t in filtered && t.kind == Expense && t.category == c
    {
      if c in names {
        var i :| 0 <= i < |ex| && ex[i].category == c;
        assert ex[i] in ex;
      }
      if exists t :: t in filtered && t.kind == Expense && t.category == c {
        var t :| t in filtered && t.kind == Expense && t.category == c;
        assert t in ex;
      }
    }
  }

  /** One bar: a category with its income sum and its expense sum. */
  datatype BarRow = BarRow(name: string, income: real, expense: real)

  function BarRowFor(xs: seq<Transaction>, c: string): BarRow
  {
    BarRow(c, CategoryTotal(Filter(xs, OfKind(Income)), c), CategoryTotal(Filter(xs, OfKind(Expense)), c))
  }

  predicate HasActivity(r: BarRow)
  {
    r.income > 0.0 || r.expense > 0.0
  }

  function BarName(r: BarRow): string
  {
    r.name
  }

  /** `barData`: a row per distinct category of any type, rows with nothing positive dropped. */
  function BarData(xs: seq<Transaction>): (r: seq<BarRow>)
    ensures |r| <= |CategoryNames(xs)|
    ensures forall row :: row in r ==> HasActivity(row)
  {
    var rows := MapSeq(CategoryNames(xs), (c: string) => BarRowFor(xs, c));
    FilterMembers(rows, HasActivity);
    Filter(rows, HasActivity)
  }

  /**
   * A row is shown exactly for a category present in the list whose income
   * or expense sum is positive; it holds those two sums; each category is
   * shown once and in order of first appearance.
   */
  lemma BarDataRows(xs: seq<Transaction>)
    ensures forall r :: r in BarData(xs) <==>
      (exists i :: 0 <= i < |xs| && xs[i].category == r.name) && r == BarRowFor(xs, r.name) && HasActivity(r)
    ensures IsSubsequence(MapSeq(BarData(xs), BarName), CategoryNames(xs))
    ensures NoDuplicates(MapSeq(BarData(xs), BarName))
  {
    var names := CategoryNames(xs);
    var rows := MapSeq(names, (c: string) => BarRowFor(xs, c));
    forall r ensures r in rows <==> r.name in names && r == BarRowFor(xs, r.name) {
      if r in rows {
        var i :| 0 <= i < |rows| && rows[i] == r;
        assert r.name == names[i];
      }
      if r.name in names && r == BarRowFor(xs, r.name) {
        var i :| 0 <= i < |names| && names[i] == r.name;
        assert rows[i] == r;
      }
    }
    forall c ensures c in names <==> exists i :: 0 <= i < |xs| && xs[i].category == c {
      InCategoryColumn(xs, c);
    }
    FilterMembers(rows, HasActivity);
    FilterIsSubsequence(rows, HasActivity);
    MapSubsequence(BarData(xs), rows, BarName);
    assert MapSeq(rows, BarName) == names;
    SubsequenceNoDuplicates(MapSeq(BarData(xs), BarName), names);
  }

  /** The month part of a report label. */
  function MonthLabel(month: MonthFilter): string
  {
    match month
    case AllMonths => "All_Time"
    case OneMonth(m) => Months[m]
  }

  /** The week part of a report label. */
  function WeekLabel(week: WeekFilter): string
  {
    match week
    case AllWeeks => ""
    case OneWeek(w) => "_Week_" + IntToString(w)
  }

  /** The label `handleExportFiltered` passes to the export. */
  function ExportLabel(month: MonthFilter, week: WeekFilter): (r: string)
    ensures |r| >= |MonthLabel(month)| + 7 && r[|r| - 7..] == "_Report"
    ensures r[..|MonthLabel(month)|] == MonthLabel(month)
  {
    MonthLabel(month) + WeekLabel(week) + "_Report"
  }

  /** The index of the month called `n`, searching from `m`. */
  function FindMonth(n: string, m: nat): (r: Option<Month>)
    ensures r.Some? ==> Months[r.value] == n && m <= r.value
    decreases 12 - m
  {
    if m >= 12 then None
    else if Months[m] == n then Some(m)
    else FindMonth(n, m + 1)
  }

  lemma {:induction false} FindMonthName(k: Month, m: nat)
    requires m <= k
    ensures FindMonth(Months[k], m) == Some(k)
    decreases 12 - m
  {
    MonthsWellFormed();
    if m < k {
      assert Months[m] != Months[k];
      FindMonthName(k, m + 1);
    }
  }

  function ParseMonthLabel(n: string): Option<MonthFilter>
  {
    if n == "All_Time" then Some(AllMonths)
    else match FindMonth(n, 0)
      case None => None
      case Some(m) => Some(OneMonth(m))
  }

  /** Reads the selectors back from a report label. */
  function ParseLabel(s: string): Option<(MonthFilter, WeekFilter)>
  {
    if |s| < 7 || s[|s| - 7..] != "_Report" then None
    else
      var p := s[..|s| - 7];
      if |p| >= 7 && p[|p| - 7..|p| - 1] == "_Week_" && '1' <= p[|p| - 1] <= '4' then
        match ParseMonthLabel(p[..|p| - 7])
        case None => None
        case Some(month) => Some((month, OneWeek(p[|p| - 1] as int - '0' as int)))
      else
        match ParseMonthLabel(p)
        case None => None
        case Some(month) => Some((month, AllWeeks))
  }

  lemma MonthLabelFacts(month: MonthFilter)
    ensures |MonthLabel(month)| >= 3
    ensures 'a' <= MonthLabel(month)[|MonthLabel(month)| - 1] <= 'z'
    ensures ParseMonthLabel(MonthLabel(month)) == Some(month)
  {
    if month.OneMonth? {
      var m := month.m;
      FindMonthName(m, 0);
      assert Months[m] != "All_Time" by {
        assert |Months[m]| != 8 || Months[m][0] != 'A';
      }
    }
  }

  /** An offered week is written as one digit, which reads back as the week. */
  lemma WeekDigit(w: int)
    requires Selectable(w)
    ensures var d := DigitChar(w);
      WeekLabel(OneWeek(w)) == "_Week_" + [d] && '1' <= d <= '4' && d as int - '0' as int == w
  {
    var d := DigitChar(w);
    assert IntToString(w) == [d];
    if w == 1 { assert d == '1'; }
    else if w == 2 { assert d == '2'; }
    else if w == 3 { assert d == '3'; }
    else { assert d == '4'; }
  }

  /** A label built from a month part that reads back, with or without a week digit. */
  lemma ParseBuilt(n: string, month: MonthFilter, week: WeekFilter)
    requires |n| >= 3 && 'a' <= n[|n| - 1] <= 'z' && ParseMonthLabel(n) == Some(month)
    requires week.OneWeek? ==> Selectable(week.w)
    ensures ParseLabel(n + WeekLabel(week) + "_Report") == Some((month, week))
  {
    var s := n + WeekLabel(week) + "_Report";
    var p := s[..|s| - 7];
    assert s[|s| - 7..] == "_Report";
    assert p == n + WeekLabel(week);
    if week.OneWeek? {
      var d := DigitChar(week.w);
      WeekDigit(week.w);
      assert p == n + "_Week_" + [d];
      assert p[|p| - 7..|p| - 1] == "_Week_" && p[|p| - 1] == d;
      assert p[..|p| - 7] == n;
    } else {
      assert p == n && p[|p| - 1] == n[|n| - 1];
    }
  }

  /** Different selector settings (with an offered week) give different report labels. */
  lemma ExportLabelRoundTrip(month: MonthFilter, week: WeekFilter)
    requires week.OneWeek? ==> Selectable(week.w)
    ensures ParseLabel(ExportLabel(month, week)) == Some((month, week))
  {
    MonthLabelFacts(month);
    ParseBuilt(MonthLabel(month), month, week);
  }
}
