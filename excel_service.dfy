/**
 * The spreadsheet service at the level of rows: the summary sheet, the
 * transaction and category-config sheets of an export, the month sheets of
 * the yearly report, and the reading of a workbook back into transactions
 * and category lists.
 */
module ExcelService {
  import opened Types
  import opened Seqs
  import opened Text
  import opened Totals
  import opened Constants

  // ---------------------------------------------------------------- summary

  /** A row of the summary sheet: `{Type, Category, Total}`. */
  datatype SummaryRow = SummaryRow(typeLabel: string, category: string, total: real)

  function IncomeRow(e: Entry): SummaryRow
  {
    SummaryRow("INCOME", e.name, e.total)
  }

  function ExpenseRow(e: Entry): SummaryRow
  {
    SummaryRow("EXPENSE", e.name, e.total)
  }

  /**
   * What `getSummaryData` returns: the income totals per category in order
   * of first appearance, then the expense totals likewise. The accumulator
   * is keyed first by type, so each type's inner dictionary sees exactly
   * that type's entries in list order.
   */
  function SummaryRows(xs: seq<Transaction>): (r: seq<SummaryRow>)
    ensures |r| == |CategoryNames(Filter(xs, OfKind(Income)))| + |CategoryNames(Filter(xs, OfKind(Expense)))|
  {
    MapSeq(Grouped(Filter(xs, OfKind(Income))), IncomeRow) + MapSeq(Grouped(Filter(xs, OfKind(Expense))), ExpenseRow)
  }

  /** `Object.entries(inner).forEach(... flatSummary.push(...))`. */
  method PushRows(rows: seq<SummaryRow>, es: seq<Entry>, f: Entry -> SummaryRow) returns (out: seq<SummaryRow>)
    ensures out == rows + MapSeq(es, f)
  {
    out := rows;
    var i := 0;
    while i < |es|
      invariant 0 <= i <= |es|
      invariant out == rows + MapSeq(es[..i], f)
    {
      assert es[..i + 1] == es[..i] + [es[i]];
      out := out + [f(es[i])];
      i := i + 1;
    }
    assert es[..i] == es;
  }

  /** `getSummaryData`: the keyed reduce, then the income and the expense pushes. */
  method SummaryData(xs: seq<Transaction>) returns (rows: seq<SummaryRow>)
    ensures rows == SummaryRows(xs)
  {
    var income := GroupByCategory(Filter(xs, OfKind(Income)));
    var expense := GroupByCategory(Filter(xs, OfKind(Expense)));
    rows := PushRows([], income, IncomeRow);
    rows := PushRows(rows, expense, ExpenseRow);
  }

  function SumRows(rows: seq<SummaryRow>): real
  {
    if |rows| == 0 then 0.0 else rows[0].total + SumRows(rows[1..])
  }

  lemma {:induction false} SumRowsOf(es: seq<Entry>, f: Entry -> SummaryRow)
    requires forall e :: f(e).total == e.total
    ensures SumRows(MapSeq(es, f)) == SumTotals(es)
    decreases |es|
  {
    if |es| > 0 {
      assert MapSeq(es, f)[1..] == MapSeq(es[1..], f);
      SumRowsOf(es[1..], f);
    }
  }

  predicate IsIncomeOrExpense(t: Transaction)
  {
    t.kind == Income || t.kind == Expense
  }

  /** Vault entries and any other type contribute no summary row. */
  lemma SummaryIgnoresOtherTypes(xs: seq<Transaction>)
    ensures SummaryRows(xs) == SummaryRows(Filter(xs, IsIncomeOrExpense))
  {
    FilterOfFilter(xs, OfKind(Income), IsIncomeOrExpense);
    FilterOfFilter(xs, OfKind(Expense), IsIncomeOrExpense);
  }

  /**
   * One INCOME row per distinct income category, then one EXPENSE row per
   * distinct expense category, each with that category's sum.
   */
  lemma SummaryLayout(xs: seq<Transaction>)
    ensures var ins, outs := Filter(xs, OfKind(Income)), Filter(xs, OfKind(Expense));
      var rows, n := SummaryRows(xs), |CategoryNames(ins)|;
      && |rows| == n + |CategoryNames(outs)|
      && (forall i :: 0 <= i < n ==>
            rows[i] == SummaryRow("INCOME", CategoryNames(ins)[i], CategoryTotal(ins, CategoryNames(ins)[i])))
      && (forall i :: n <= i < |rows| ==>
            rows[i] == SummaryRow("EXPENSE", CategoryNames(outs)[i - n], CategoryTotal(outs, CategoryNames(outs)[i - n])))
  {
    var ins, outs := Filter(xs, OfKind(Income)), Filter(xs, OfKind(Expense));
    var a, b := MapSeq(Grouped(ins), IncomeRow), MapSeq(Grouped(outs), ExpenseRow);
    var n := |a|;
    forall i | 0 <= i < n
      ensures (a + b)[i] == SummaryRow("INCOME", CategoryNames(ins)[i], CategoryTotal(ins, CategoryNames(ins)[i]))
    {
      assert (a + b)[i] == IncomeRow(Grouped(ins)[i]);
    }
    forall i | n <= i < n + |b|
      ensures (a + b)[i] == SummaryRow("EXPENSE", CategoryNames(outs)[i - n], CategoryTotal(outs, CategoryNames(outs)[i - n]))
    {
      assert (a + b)[i] == ExpenseRow(Grouped(outs)[i - n]);
    }
  }

  /** The INCOME block adds up to the income total, the EXPENSE block to the expense total. */
  lemma SummaryTotals(xs: seq<Transaction>)
    ensures var n := |CategoryNames(Filter(xs, OfKind(Income)))|;
      && SumRows(SummaryRows(xs)[..n]) == KindTotal(xs, Income)
      && SumRows(SummaryRows(xs)[n..]) == KindTotal(xs, Expense)
  {
    var ins, outs := Filter(xs, OfKind(Income)), Filter(xs, OfKind(Expense));
    var a, b := MapSeq(Grouped(ins), IncomeRow), MapSeq(Grouped(outs), ExpenseRow);
    assert (a + b)[..|a|] == a;
    assert (a + b)[|a|..] == b;
    SumRowsOf(Grouped(ins), IncomeRow);
    SumRowsOf(Grouped(outs), ExpenseRow);
    GroupedTotal(ins);
    GroupedTotal(outs);
  }

  // ----------------------------------------------------------------- export

  /** A row of the `All Transactions` sheet. */
  datatype ExportRow = ExportRow(id: string, typeCell: string, amount: real, category: string, date: Date, description: string)

  /**
   * A transaction as a row of the `All Transactions` sheet: the fields
   * copied, the type upper-cased so that lower-casing restores it.
   */
  function ExportRowOf(t: Transaction): (r: ExportRow)
    ensures r.id == t.id && r.amount == t.amount && r.category == t.category
    ensures r.date == t.date && r.description == t.description
    ensures HasNoCapitals(TypeName(t.kind)) ==> Lower(r.typeCell) == TypeName(t.kind)
  {
    var row := ExportRow(t.id, Upper(TypeName(t.kind)), t.amount, t.category, t.date, t.description);
    if HasNoCapitals(TypeName(t.kind)) then LowerUpper(TypeName(t.kind)); row else row
  }

  function ExportRows(xs: seq<Transaction>): seq<ExportRow>
  {
    MapSeq(xs, ExportRowOf)
  }

  /** A row of the `Category Config` sheet: `{Type, Name}`. */
  datatype ConfigRow = ConfigRow(typeCell: string, name: string)

  function IncomeConfig(n: string): ConfigRow
  {
    ConfigRow("Income", n)
  }

  function ExpenseConfig(n: string): ConfigRow
  {
    ConfigRow("Expense", n)
  }

  /** Each income name tagged `Income`, then each expense name tagged `Expense`. */
  function CategoryConfigRows(c: Categories): (r: seq<ConfigRow>)
    ensures |r| == |c.income| + |c.expense|
    ensures forall i :: 0 <= i < |r| ==> r[i].typeCell == if i < |c.income| then "Income" else "Expense"
  {
    MapSeq(c.income, IncomeConfig) + MapSeq(c.expense, ExpenseConfig)
  }

  /** The sheets an export writes, and the label its file name carries. */
  datatype Workbook = Workbook(summary: seq<SummaryRow>, transactions: seq<ExportRow>,
                               config: Option<seq<ConfigRow>>, fileLabel: string)

  /** A full backup reads `categories.income` of a state whose categories are gone. */
  datatype ExportError = CategoriesMissing

  /**
   * `exportToExcel`. `filtered` is the optional list (an empty list is still
   * a list and is exported as such), `customLabel` the optional label with
   * `""` for none.
   */
  function ExportToExcel(state: AppState, filtered: Option<seq<Transaction>>, customLabel: string): (r: Result<Workbook, ExportError>)
    ensures r.Err? <==> filtered.None? && state.categories.None?
  {
    var xs := if filtered.Some? then filtered.value else state.transactions;
    var fileLabel := if customLabel != "" then customLabel else if filtered.Some? then "Report" else "Backup";
    if filtered.Some? then
      Ok(Workbook(SummaryRows(xs), ExportRows(xs), None, fileLabel))
    else if state.categories.None? then
      Err(CategoriesMissing)
    else
      Ok(Workbook(SummaryRows(xs), ExportRows(xs), Some(CategoryConfigRows(state.categories.value)), fileLabel))
  }

  /**
   * An export has one row per exported entry, in order, with the type
   * upper-cased and the other fields copied; the category sheet appears
   * exactly for a full backup; the label is never empty.
   */
  lemma ExportShape(state: AppState, filtered: Option<seq<Transaction>>, customLabel: string)
    requires filtered.Some? || state.categories.Some?
    ensures var xs := if filtered.Some? then filtered.value else state.transactions;
      var book := ExportToExcel(state, filtered, customLabel).value;
      && book.summary == SummaryRows(xs)
      && |book.transactions| == |xs|
      && (forall i :: 0 <= i < |xs| ==>
            var row, t := book.transactions[i], xs[i];
            row.id == t.id && row.typeCell == Upper(TypeName(t.kind)) && row.amount == t.amount
            && row.category == t.category && row.date == t.date && row.description == t.description)
      && (book.config.Some? <==> filtered.None?)
      && (book.config.Some? ==> book.config.value == CategoryConfigRows(state.categories.value))
      && book.fileLabel != ""
      && (customLabel != "" ==> book.fileLabel == customLabel)
  {
  }

  // ---------------------------------------------------------- yearly report

  const MonthNames: seq<string> := [
    "January", "February", "March", "April", "May", "June",
    "July", "August", "September", "October", "November", "December"
  ]

  /** The yearly report names its sheets as the month selector does. */
  lemma MonthNamesAgree()
    ensures MonthNames == Months
  {
  }

  /** A row of a month sheet. */
  datatype YearRow = YearRow(date: Date, typeCell: string, category: string, amount: real, description: string)

  function YearRowOf(t: Transaction): YearRow
  {
    YearRow(t.date, Upper(TypeName(t.kind)), t.category, t.amount, t.description)
  }

  datatype MonthSheet = MonthSheet(name: string, rows: seq<YearRow>)

  datatype YearlyBook = YearlyBook(summary: seq<SummaryRow>, months: seq<MonthSheet>)

  function InYear(year: int): Transaction -> bool
  {
    (t: Transaction) => t.date.year == year
  }

  function InMonth(m: int): Transaction -> bool
  {
    (t: Transaction) => t.date.month == m
  }

  /** The sheet of month `m`, or none when the month has no entries. */
  function SheetOf(yearly: seq<Transaction>, m: Month): (r: seq<MonthSheet>)
    ensures |r| <= 1
    ensures forall sheet :: sheet in r ==> sheet.name == MonthNames[m] && |sheet.rows| > 0
  {
    var ms := Filter(yearly, InMonth(m));
    if |ms| > 0 then [MonthSheet(MonthNames[m], MapSeq(ms, YearRowOf))] else []
  }

  /** The sheets for the months before `m`, in calendar order, skipping empty months. */
  function SheetsBefore(yearly: seq<Transaction>, m: nat): (r: seq<MonthSheet>)
    requires m <= 12
    ensures |r| <= m
  {
    if m == 0 then [] else SheetsBefore(yearly, m - 1) + SheetOf(yearly, m - 1)
  }

  /** `exportYearlyReport`: the year filter, its summary, then one pass over the twelve months. */
  method ExportYearlyReport(xs: seq<Transaction>, year: int) returns (book: YearlyBook)
    ensures book == YearlyBook(SummaryRows(Filter(xs, InYear(year))), SheetsBefore(Filter(xs, InYear(year)), 12))
  {
    var yearly := Filter(xs, InYear(year));
    var summary := SummaryData(yearly);
    var months := MonthSheets(yearly);
    book := YearlyBook(summary, months);
  }

  /** `MONTH_NAMES.forEach(...)`: one sheet appended per month that has entries. */
  method MonthSheets(yearly: seq<Transaction>) returns (months: seq<MonthSheet>)
    ensures months == SheetsBefore(yearly, 12)
  {
    months := [];
    var m := 0;
    while m < 12
      invariant 0 <= m <= 12
      invariant months == SheetsBefore(yearly, m)
    {
      var ms := Filter(yearly, InMonth(m));
      if |ms| > 0 {
        months := months + [MonthSheet(MonthNames[m], MapSeq(ms, YearRowOf))];
      }
      m := m + 1;
    }
  }

  function RowCount(sheets: seq<MonthSheet>): nat
  {
    if |sheets| == 0 then 0 else |sheets[0].rows| + RowCount(sheets[1..])
  }

  lemma {:induction false} RowCountAppend(a: seq<MonthSheet>, b: seq<MonthSheet>)
    ensures RowCount(a + b) == RowCount(a) + RowCount(b)
    decreases |a|
  {
    if |a| == 0 {
      assert a + b == b;
    } else {
      assert (a + b)[1..] == a[1..] + b;
      RowCountAppend(a[1..], b);
    }
  }

  function BeforeMonth(m: int): Transaction -> bool
  {
    (t: Transaction) => t.date.month < m
  }

  /** The sheet of month `m` has one row per entry of that month. */
  lemma SheetOfCount(yearly: seq<Transaction>, m: Month)
    ensures RowCount(SheetOf(yearly, m)) == |Filter(yearly, InMonth(m))|
  {
    var ms := Filter(yearly, InMonth(m));
    if |ms| > 0 {
      var sheets := SheetOf(yearly, m);
      assert RowCount(sheets) == |sheets[0].rows| + RowCount(sheets[1..]);
    }
  }

  /** The sheets before month `m` hold exactly the entries dated before month `m`. */
  lemma {:induction false} SheetsBeforeCount(yearly: seq<Transaction>, m: nat)
    requires m <= 12
    ensures RowCount(SheetsBefore(yearly, m)) == |Filter(yearly, BeforeMonth(m))|
  {
    if m == 0 {
      BeforeMonthZero(yearly);
    } else {
      SheetsBeforeCount(yearly, m - 1);
      SheetsBeforeStep(yearly, m);
      BeforeMonthCount(yearly, m);
    }
  }

  /** One more month adds the rows of that month's sheet. */
  lemma SheetsBeforeStep(yearly: seq<Transaction>, m: nat)
    requires 0 < m <= 12
    ensures RowCount(SheetsBefore(yearly, m)) == RowCount(SheetsBefore(yearly, m - 1)) + |Filter(yearly, InMonth(m - 1))|
  {
    RowCountAppend(SheetsBefore(yearly, m - 1), SheetOf(yearly, m - 1));
    SheetOfCount(yearly, m - 1);
  }

  lemma BeforeMonthZero(yearly: seq<Transaction>)
    ensures Filter(yearly, BeforeMonth(0)) == []
  {
    FilterDropsAll(yearly, BeforeMonth(0));
  }

  /** Moving the bound one month on adds the entries of that month. */
  lemma BeforeMonthCount(yearly: seq<Transaction>, m: nat)
    requires m > 0
    ensures |Filter(yearly, BeforeMonth(m))| == |Filter(yearly, BeforeMonth(m - 1))| + |Filter(yearly, InMonth(m - 1))|
  {
    FilterSizeSplit(yearly, BeforeMonth(m), BeforeMonth(m - 1), InMonth(m - 1));
  }

  /**
   * The month sheets partition the year's entries: their rows add up to the
   * number of entries of that year.
   */
  lemma YearlyRowsPartition(xs: seq<Transaction>, year: int)
    ensures RowCount(SheetsBefore(Filter(xs, InYear(year)), 12)) == |Filter(xs, InYear(year))|
  {
    var yearly := Filter(xs, InYear(year));
    SheetsBeforeCount(yearly, 12);
    FilterKeepsAll(yearly, BeforeMonth(12));
  }

  /** Every sheet before month `m` is non-empty and named after a month before `m`. */
  lemma {:induction false} SheetsBeforeNamed(yearly: seq<Transaction>, m: nat)
    requires m <= 12
    ensures forall s :: s in SheetsBefore(yearly, m) ==> |s.rows| > 0 && s.name in MonthNames[..m]
  {
    if m > 0 {
      SheetsBeforeNamed(yearly, m - 1);
      assert MonthNames[..m] == MonthNames[..m - 1] + [MonthNames[m - 1]];
    }
  }

  /** An entry of the year is on the sheet of its own month. */
  lemma OnOwnSheet(yearly: seq<Transaction>, t: Transaction)
    requires t in yearly
    ensures |SheetOf(yearly, t.date.month)| == 1
    ensures SheetOf(yearly, t.date.month)[0].name == MonthNames[t.date.month]
    ensures YearRowOf(t) in SheetOf(yearly, t.date.month)[0].rows
  {
    var ms := Filter(yearly, InMonth(t.date.month));
    FilterMembers(yearly, InMonth(t.date.month));
    assert t in ms;
    var k :| 0 <= k < |ms| && ms[k] == t;
    assert MapSeq(ms, YearRowOf)[k] == YearRowOf(t);
  }

  /** Each entry of a month before `m` appears on its month's sheet. */
  lemma {:induction false} SheetsBeforeCover(yearly: seq<Transaction>, m: nat)
    requires m <= 12
    ensures forall t :: t in yearly && t.date.month < m ==>
      exists s :: s in SheetsBefore(yearly, m) && s.name == MonthNames[t.date.month] && YearRowOf(t) in s.rows
  {
    if m > 0 {
      SheetsBeforeCover(yearly, m - 1);
      var prev := SheetsBefore(yearly, m - 1);
      var all := SheetsBefore(yearly, m);
      forall t | t in yearly && t.date.month < m
        ensures exists s :: s in all && s.name == MonthNames[t.date.month] && YearRowOf(t) in s.rows
      {
        if t.date.month == m - 1 {
          OnOwnSheet(yearly, t);
          assert SheetOf(yearly, m - 1)[0] in all;
        } else {
          var s :| s in prev && s.name == MonthNames[t.date.month] && YearRowOf(t) in s.rows;
          assert s in all;
        }
      }
    }
  }

  /** A month's sheet holds only rows of entries of that month. */
  lemma SheetOfOwnMonth(yearly: seq<Transaction>, m: Month)
    ensures forall s, row :: s in SheetOf(yearly, m) && row in s.rows ==>
      row.date.month == m && s.name == MonthNames[m] && row in MapSeq(yearly, YearRowOf)
  {
    var ms := Filter(yearly, InMonth(m));
    FilterMembers(yearly, InMonth(m));
    forall row | row in MapSeq(ms, YearRowOf)
      ensures row.date.month == m && row in MapSeq(yearly, YearRowOf)
    {
      var k :| 0 <= k < |ms| && MapSeq(ms, YearRowOf)[k] == row;
      assert ms[k] in yearly;
      var j :| 0 <= j < |yearly| && yearly[j] == ms[k];
      assert MapSeq(yearly, YearRowOf)[j] == row;
    }
  }

  /**
   * The sheets for the months before `m` hold only rows of entries of the
   * list, each on the sheet named after its own month.
   */
  lemma {:induction false} SheetsBeforeOwnMonth(yearly: seq<Transaction>, m: nat)
    requires m <= 12
    ensures forall s, row :: s in SheetsBefore(yearly, m) && row in s.rows ==>
      row.date.month < m && s.name == MonthNames[row.date.month] && row in MapSeq(yearly, YearRowOf)
  {
    if m > 0 {
      SheetsBeforeOwnMonth(yearly, m - 1);
      SheetOfOwnMonth(yearly, m - 1);
    }
  }

  /** Every row of the yearly sheets is an entry of that year, on its own month's sheet. */
  lemma YearlySheetsOwnRows(xs: seq<Transaction>, year: int)
    ensures forall s, row :: s in SheetsBefore(Filter(xs, InYear(year)), 12) && row in s.rows ==>
      row.date.year == year && s.name == MonthNames[row.date.month]
  {
    var yearly := Filter(xs, InYear(year));
    FilterMembers(xs, InYear(year));
    SheetsBeforeOwnMonth(yearly, 12);
    forall s, row | s in SheetsBefore(yearly, 12) && row in s.rows
      ensures row.date.year == year
    {
      RowOfYear(yearly, year, row);
    }
  }

  /** A row made from entries of one year is dated in that year. */
  lemma RowOfYear(ys: seq<Transaction>, year: int, row: YearRow)
    requires forall t :: t in ys ==> t.date.year == year
    requires row in MapSeq(ys, YearRowOf)
    ensures row.date.year == year
  {
    var k :| 0 <= k < |ys| && MapSeq(ys, YearRowOf)[k] == row;
    assert ys[k] in ys;
  }

  /**
   * The whole year: the sheets partition the year's entries by month. Every
   * sheet is non-empty and named after a month, every entry of the year is
   * on the sheet of its month, and a sheet holds only rows of that year and
   * of the month it is named after.
   */
  lemma YearlySheetsContent(xs: seq<Transaction>, year: int)
    ensures forall s :: s in SheetsBefore(Filter(xs, InYear(year)), 12) ==> |s.rows| > 0 && s.name in MonthNames
    ensures forall t :: t in xs && t.date.year == year ==>
      exists s :: s in SheetsBefore(Filter(xs, InYear(year)), 12) && s.name == MonthNames[t.date.month] && YearRowOf(t) in s.rows
    ensures forall s, row :: s in SheetsBefore(Filter(xs, InYear(year)), 12) && row in s.rows ==>
      row.date.year == year && s.name == MonthNames[row.date.month]
  {
    FilterMembers(xs, InYear(year));
    SheetsBeforeNamed(Filter(xs, InYear(year)), 12);
    SheetsBeforeCover(Filter(xs, InYear(year)), 12);
    YearlySheetsOwnRows(xs, year);
    assert MonthNames[..12] == MonthNames;
  }

  // ----------------------------------------------------------------- import

  /** The `Date` cell: missing, a date the parser reads, or text it cannot read. */
  datatype DateCell = NoDate | DateValue(d: Date) | BadDate

  /**
   * A row of the transactions sheet as read: a missing text cell is `""`,
   * `amount` is the cell passed through `Number`, `None` where that is NaN.
   */
  datatype RawRow = RawRow(id: string, typeCell: string, amount: Option<real>, category: string,
                           date: DateCell, description: string)

  /** The sheets of a workbook the import looks at. */
  datatype InBook = InBook(allTransactions: Option<seq<RawRow>>, transactions: Option<seq<RawRow>>,
                           categoryConfig: Option<seq<ConfigRow>>)

  /** What the import resolves with: the transactions and, with a category sheet, the lists. */
  datatype Imported = Imported(transactions: seq<Transaction>, categories: Option<Categories>)

  datatype ImportError = NoTransactionsSheet | InvalidDate

  /** One row with its defaults; `freshId` stands for the random id, `now` for the import time. */
  function ImportRow(r: RawRow, freshId: string, now: Date): (t: Transaction)
    requires !r.date.BadDate?
    ensures t.id == if r.id != "" then r.id else freshId
    ensures TypeName(t.kind) == Lower(if r.typeCell != "" then r.typeCell else "expense")
    ensures t.amount == if r.amount.Some? then r.amount.value else 0.0
    ensures t.category == if r.category != "" then r.category else "Other"
    ensures t.date == if r.date.DateValue? then r.date.d else now
    ensures t.description == r.description
  {
    Transaction(
      if r.id != "" then r.id else freshId,
      ParseType(Lower(if r.typeCell != "" then r.typeCell else "expense")),
      if r.amount.Some? then r.amount.value else 0.0,
      if r.category != "" then r.category else "Other",
      match r.date { case DateValue(d) => d case _ => now },
      r.description)
  }

  /** The row mapping; a date the parser cannot read makes the whole import fail. */
  function ImportRows(rows: seq<RawRow>, freshId: nat -> string, now: Date): (r: Result<seq<Transaction>, ImportError>)
    ensures r.Err? <==> exists i :: 0 <= i < |rows| && rows[i].date.BadDate?
    ensures r.Err? ==> r.error == InvalidDate
    ensures r.Ok? ==> |r.value| == |rows| && forall i :: 0 <= i < |rows| ==> r.value[i] == ImportRow(rows[i], freshId(i), now)
  {
    if exists i :: 0 <= i < |rows| && rows[i].date.BadDate? then Err(InvalidDate)
    else Ok(seq(|rows|, i requires 0 <= i < |rows| => ImportRow(rows[i], freshId(i), now)))
  }

  function IsIncomeConfig(r: ConfigRow): bool
  {
    r.typeCell == "Income"
  }

  function IsExpenseConfig(r: ConfigRow): bool
  {
    r.typeCell == "Expense"
  }

  function ConfigName(r: ConfigRow): string
  {
    r.name
  }

  /** The lists rebuilt from the category sheet; there is no vault list to rebuild. */
  function RebuildCategories(cfg: seq<ConfigRow>): (c: Categories)
    ensures c.vault.None?
  {
    Categories(MapSeq(Filter(cfg, IsIncomeConfig), ConfigName), MapSeq(Filter(cfg, IsExpenseConfig), ConfigName), None)
  }

  /** `importFromExcel` once the file is read. */
  function ImportFromExcel(book: InBook, freshId: nat -> string, now: Date): (r: Result<Imported, ImportError>)
    ensures r.Err? && r.error == NoTransactionsSheet <==> book.allTransactions.None? && book.transactions.None?
    ensures r.Ok? ==> (r.value.categories.Some? <==> book.categoryConfig.Some?)
  {
    var sheet := if book.allTransactions.Some? then book.allTransactions else book.transactions;
    if sheet.None? then Err(NoTransactionsSheet)
    else match ImportRows(sheet.value, freshId, now)
      case Err(e) => Err(e)
      case Ok(ts) =>
        Ok(Imported(ts, if book.categoryConfig.Some? then Some(RebuildCategories(book.categoryConfig.value)) else None))
  }

  /** The `All Transactions` sheet wins over a `Transactions` sheet. */
  lemma ImportPrefersAllTransactions(book: InBook, freshId: nat -> string, now: Date)
    requires book.allTransactions.Some?
    ensures ImportFromExcel(book, freshId, now) == ImportFromExcel(book.(transactions := None), freshId, now)
  {
  }

  /** Filtering a block that passes followed by a block that fails keeps the first block. */
  lemma {:induction false} FilterFirstBlock(a: seq<ConfigRow>, b: seq<ConfigRow>, p: ConfigRow -> bool)
    requires forall i :: 0 <= i < |a| ==> p(a[i])
    requires forall i :: 0 <= i < |b| ==> !p(b[i])
    ensures Filter(a + b, p) == a
  {
    FilterAppend(a, b, p);
    FilterKeepsAll(a, p);
    FilterDropsAll(b, p);
  }

  lemma ConfigNames(names: seq<string>, f: string -> ConfigRow)
    requires forall n :: f(n).name == n
    ensures MapSeq(MapSeq(names, f), ConfigName) == names
  {
  }

  /** Reading the category sheet back gives the income and expense lists it was written from. */
  lemma RebuildRoundTrip(c: Categories)
    ensures RebuildCategories(CategoryConfigRows(c)) == Categories(c.income, c.expense, None)
  {
    var a, b := MapSeq(c.income, IncomeConfig), MapSeq(c.expense, ExpenseConfig);
    FilterFirstBlock(a, b, IsIncomeConfig);
    FilterAppend(a, b, IsExpenseConfig);
    FilterDropsAll(a, IsExpenseConfig);
    FilterKeepsAll(b, IsExpenseConfig);
    assert Filter(a, IsExpenseConfig) + Filter(b, IsExpenseConfig) == b;
    ConfigNames(c.income, IncomeConfig);
    ConfigNames(c.expense, ExpenseConfig);
  }

  /** How the transactions sheet of an export reads back. */
  function ReadBack(e: ExportRow): RawRow
  {
    RawRow(e.id, e.typeCell, Some(e.amount), e.category, DateValue(e.date), e.description)
  }

  /** How the sheets of an export read back. */
  function ReadBook(book: Workbook): InBook
  {
    InBook(Some(MapSeq(book.transactions, ReadBack)), None, book.config)
  }

  /** An entry whose fields survive the import's defaults. */
  predicate Restorable(t: Transaction)
  {
    t.id != "" && t.category != "" && TypeName(t.kind) != "" && HasNoCapitals(TypeName(t.kind))
  }

  lemma ReadRowRoundTrip(t: Transaction, freshId: string, now: Date)
    requires Restorable(t)
    ensures ImportRow(ReadBack(ExportRowOf(t)), freshId, now) == t
  {
    var name := TypeName(t.kind);
    LowerUpper(name);
    ParseTypeName(t.kind);
  }

  /**
   * A full backup imported again gives back the transactions and the income
   * and expense lists, but no vault list.
   */
  lemma BackupRoundTrip(state: AppState, freshId: nat -> string, now: Date)
    requires state.categories.Some?
    requires forall t :: t in state.transactions ==> Restorable(t)
    ensures var c := state.categories.value;
      ImportFromExcel(ReadBook(ExportToExcel(state, None, "").value), freshId, now)
        == Ok(Imported(state.transactions, Some(Categories(c.income, c.expense, None))))
  {
    var xs := state.transactions;
    var rows := MapSeq(ExportRows(xs), ReadBack);
    forall i | 0 <= i < |xs| ensures ImportRow(rows[i], freshId(i), now) == xs[i] {
      ReadRowRoundTrip(xs[i], freshId(i), now);
    }
    RebuildRoundTrip(state.categories.value);
    assert ImportRows(rows, freshId, now).value == xs;
  }

  /** A filtered report has no category sheet, so importing it yields no lists at all. */
  lemma ReportImportHasNoCategories(state: AppState, filtered: seq<Transaction>, reportLabel: string,
                                    freshId: nat -> string, now: Date)
    ensures var r := ImportFromExcel(ReadBook(ExportToExcel(state, Some(filtered), reportLabel).value), freshId, now);
      r.Ok? ==> r.value.categories.None?
  {
  }
}
