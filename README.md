# FinTrack ledger core in Dafny

A Dafny model of the bookkeeping core of the FinTrack ("Inance") personal
finance app, with proofs about it. The app is a single-page web
application. It keeps a main list of income and expense entries, a
separate vault list of deposits (`vault_in`) and withdrawals
(`vault_out`), three category lists and a user profile.

The model covers the following:

- **The store** (`App.Store`, over the transitions in `Ledger`). It adds
  entries at the front of a list. A vault withdrawal also books a mirrored
  `Vault Deduction` expense in the main list. It deletes entries by id,
  replaces the profile or the category lists, merges the result of a
  spreadsheet import, and applies the entry form's submit guard.
- **The views' derived data**:
  - the vault balance fold;
  - the dashboard statistics loop, the five most recent entries and the
    five largest expense categories;
  - the analytics month and week filter, the pie slices, the bars and the
    report label;
  - the history search;
  - adding and deleting a category.
- **The spreadsheet service at the level of rows**:
  - the summary sheet;
  - a filtered or full export (transactions sheet, category sheet, file
    label);
  - the yearly report with one sheet per month;
  - the import with its per-cell defaults and the category lists it
    rebuilds.

The module layout follows the source file by file:

| module | source |
|---|---|
| `Types` | the data model |
| `Constants` | `constants.ts` |
| `Ledger` | the state transitions of `App.tsx` |
| `App` | the store class holding the `AppState` |
| `VaultView` | `components/VaultView.tsx` |
| `Dashboard` | `components/Dashboard.tsx` |
| `ChartsView` | `components/ChartsView.tsx` |
| `TransactionList` | `components/TransactionList.tsx` |
| `CategoryManager` | `components/CategoryManager.tsx` |
| `ExcelService` | `services/excelService.ts` |

Three modules are shared:

- `Totals` holds the sum and the "reduce into a keyed dictionary, read
  back with `Object.entries`" grouping that four places in the source use.
- `Seqs` holds list helpers.
- `Text` models `toLowerCase`/`toUpperCase`, `trim` and `includes`.

Some loops in the source become methods with loop invariants, each proved
equal to a reference function:

- the dashboard `forEach` (`Dashboard.ComputeStats`);
- the keyed `reduce` (`Totals.GroupByCategory`, a dictionary updated in
  place whose keys keep insertion order);
- the summary pushes (`ExcelService.PushRows`);
- the twelve-month pass (`ExcelService.MonthSheets`).

Everything else in the source is an expression over immutable values and
is modelled as functions with lemmas.

How values are modelled:

- Amounts are `real`.
- A date is `Date(year, month 0..11, day 1..31)`. It stands for the ISO
  timestamp and for what `getFullYear`/`getMonth`/`getDate` read from it.
- Random ids (`Math.random().toString(36)`), the current time,
  `Number(...)` parsing and file reading are parameters.

The type tag has a fifth constructor, `Unlisted(tag)`. The import
lower-cases any `Type` cell and stores it unchecked
(`services/excelService.ts:117`), so the main list can hold tags other
than the four the app writes. The dashboard counts such entries as
expense. Nothing counts them as income.

`types.ts` declares only `income | expense`, a profile of two fields, and
no vault list. The code everywhere else uses four tags, a four-field
profile and a vault list. The model follows the code.

Descriptions of the app's design mention more than the code does: a
`borrowed` type, insufficient-funds checks before an add or a withdrawal,
a protected `Vault Deduction` category and an atomic reject-or-apply
transition. The code has none of these, and the model follows the code.
Instead the model proves what the code does. For example, a withdrawal can
overdraw the vault (`VaultView.WithdrawalCanOverdraw`), and any category
name can be deleted (`CategoryManager.HandleDeleteSpec`).

## Model

| member | source | states |
|---|---|---|
| Types.ParseType | services/excelService.ts:117 | reading a stored tag back gives a tag whose stored name is the text read; the result is `Unlisted` exactly when the text is none of the four reserved names |
| Types.ParseTypeName | services/excelService.ts:45 | every tag the ledger can hold reads back as itself, so distinct tags are stored as distinct strings |
| Types.WithId | App.tsx:71-75 | the new record carries the given id and copies every field of the draft |
| Constants.InitialListsWellFormed | constants.ts:3-7 | each initial category list contains `Other` and holds no name twice; the initial state has a vault list |
| Constants.CurrencySymbolsDistinct | constants.ts:16-23 | the currency symbols are pairwise distinct and include the default profile's `$` |
| Constants.MonthsWellFormed | constants.ts:25-28 | twelve month names, all distinct |
| Text.Lower | components/TransactionList.tsx:17-18 | `toLowerCase` maps each character on its own and keeps the length, and leaves no ASCII capital |
| Text.Upper | services/excelService.ts:45 | `toUpperCase` maps each character on its own and keeps the length, and leaves no ASCII small letter |
| Text.Trim | components/CategoryManager.tsx:17-22 | `trim()` is the middle of its input, with only white space before and after it, and neither starts nor ends with white space, so every leading and trailing white-space character is removed and nothing else |
| Text.LowerUpper | services/excelService.ts:45 | upper-casing and then lower-casing a string without capitals restores it; the transactions sheet writes the tag upper-cased, the import lower-cases it |
| Text.TrimEmpty | components/CategoryManager.tsx:17 | `trim()` is empty exactly when every character is white space |
| Text.LowerContains | components/TransactionList.tsx:17-18 | lower-casing both sides keeps an occurrence found by `includes` |
| Text.ContainsTransitive | components/TransactionList.tsx:17-18 | an occurrence of an occurrence is an occurrence |
| Totals.FilteredTotalPermutation | components/Dashboard.tsx:13-21 | a filtered sum has the same value for any two lists holding the same entries (multisets equal) |
| Totals.TallyExisting | components/ChartsView.tsx:46-49 | one reduce step on a category already in the dictionary adds the amount under that key and keeps the invariant: the key order is the distinct categories seen so far, and each value is that category's sum |
| Totals.TallyNew | components/ChartsView.tsx:46-49 | one reduce step on a new category appends the key, starts its value at `0 + amount`, and keeps the same invariant |
| Totals.EntriesOf | components/ChartsView.tsx:51 | `Object.entries` yields one entry per key, in insertion order, each with the key's value |
| Totals.EntriesOfTally | components/ChartsView.tsx:51 | reading back a dictionary that tallies a list (`Object.entries`) gives the reference grouping of that list |
| Totals.GroupByCategory | components/ChartsView.tsx:46-51 | the keyed reduce followed by `Object.entries` returns one entry per distinct category, in first-appearance order, holding that category's sum |
| Totals.GroupedNames | components/ChartsView.tsx:46-51 | the group names are exactly the categories present, each once, in first-appearance order |
| Totals.GroupedTotal | components/ChartsView.tsx:46-51 | the group totals add up to the total of the list, so no amount is lost or counted twice |
| Dashboard.ComputeStats | components/Dashboard.tsx:13-21 | `income` is the sum of the entries typed `income`; `expense` is the sum of every other entry, whatever its type; `balance` is their difference |
| Dashboard.StatsPartition | components/Dashboard.tsx:16-19 | income plus expense is the sum of all entries, so each amount is counted once |
| Dashboard.PrependNonIncome | components/Dashboard.tsx:17-18 | a new entry in front that is not income leaves income alone and raises expense by its amount |
| Dashboard.Recent | components/Dashboard.tsx:23-25 | `slice(0, 5)`: the first `min(5, n)` entries, in order |
| Dashboard.InsertSorted | components/Dashboard.tsx:134 | inserting an entry after the leading entries with a strictly larger total keeps a list sorted by descending total; the new head is the old one only when that is strictly larger |
| Dashboard.InsertStable | components/Dashboard.tsx:134 | the insertion passes only over strictly larger entries, so among the entries of any one total the inserted entry stays in front, where it was |
| Dashboard.SortDesc | components/Dashboard.tsx:134 | the sort returns a permutation of its input, sorted by descending total |
| Dashboard.SortDescStable | components/Dashboard.tsx:134 | the sort is stable, as the engine's `Array.prototype.sort` is: for every total, the entries with that total come out in their input order |
| Dashboard.PrefixOfSorted | components/Dashboard.tsx:135 | `slice(0, n)` of the sorted list is sorted and holds no entry more often than the list |
| Dashboard.TakeStable | components/Dashboard.tsx:134-135 | among the groups of any one total, the first `n` of the sorted list are the first ones of the grouping, in their order |
| Dashboard.TakeOfSorted | components/Dashboard.tsx:134-135 | the first `n` entries of the sorted groups are groups, and every group left out is no larger than any group kept |
| Dashboard.TopExpenseCategories | components/Dashboard.tsx:126-135 | `min(5, n)` of the `n` groups of the expense entries are shown, sorted by descending total; the shown entries form a sub-multiset of the groups, so none is shown twice; no group left out exceeds a shown one; among groups of equal total, the ones shown are those that come first in the grouping, in that order |
| VaultView.Fold | components/VaultView.tsx:31-33 | the fold from a start value is that value plus the sum of the deltas (`+amount` for `vault_in`, `-amount` otherwise) |
| VaultView.VaultBalance | components/VaultView.tsx:30-34 | the balance, the fold from 0, is the sum of the deltas |
| VaultView.NetSplit | components/VaultView.tsx:32 | the sum of the deltas is the deposits minus every other entry |
| VaultView.VaultBalanceSplit | components/VaultView.tsx:30-34 | the balance is the sum of `vault_in` amounts minus the sum of all other vault entries; an empty vault holds 0 |
| VaultView.PrependMovesBalance | components/VaultView.tsx:32 | a deposit in front raises the balance by its amount, a withdrawal lowers it by its amount |
| VaultView.VaultBalanceOrderFree | components/VaultView.tsx:30-34 | the balance has the same value for any order of the same entries |
| VaultView.WithdrawalCanOverdraw | components/VaultView.tsx:36-46 | no check stops a withdrawal larger than the balance, which then goes negative |
| VaultView.VaultSubmit | components/VaultView.tsx:36-46 | nothing is submitted for an empty or non-numeric amount or with no form open; otherwise the draft has the selected type, the parsed amount, the fields and the submit time |
| ChartsView.WeekOfDay | components/ChartsView.tsx:39 | `Math.ceil(day / 7)` is the week `w` with `7(w-1) < day <= 7w`, between 1 and 5 |
| ChartsView.FilterPeriod | components/ChartsView.tsx:35-42 | an entry is kept exactly when it is in the list, its month matches (or every month is selected), and its week matches (or the full month is selected) |
| ChartsView.FilterAllAll | components/ChartsView.tsx:35-42 | with both selectors on "all" the whole list is shown |
| ChartsView.FilterPeriodSubsequence | components/ChartsView.tsx:35-42 | the filtered list keeps the entries' order |
| ChartsView.MonthFilterExact | components/ChartsView.tsx:38 | one month with the full month keeps exactly the entries of that month |
| ChartsView.LateDaysInNoWeek | components/ChartsView.tsx:39 | any of the four offered weeks holds only days up to the 28th |
| ChartsView.ThirtiethIsLost | components/ChartsView.tsx:39 | an entry on the 30th is in its month's list but in none of the four offered weeks |
| ChartsView.SelectableWeekOfDay | components/ChartsView.tsx:112-116 | every day gets an offered week; weeks 1-3 are `7(w-1) < day <= 7w`, and week 4 is exactly the days from the 22nd on |
| ChartsView.FilterPeriodCorrected | components/ChartsView.tsx:112-116 | the filter with week 4 covering the 22nd to the 31st keeps exactly the matching entries |
| ChartsView.CorrectedWeeksPartition | components/ChartsView.tsx:112-116 | under the corrected filter each entry of the month is in exactly one offered week |
| ChartsView.CorrectedWeekAgrees | components/ChartsView.tsx:39 | the corrected week equals `Math.ceil(day / 7)` up to the 28th; later days are week 5 as written and week 4 corrected |
| ChartsView.PieData | components/ChartsView.tsx:44-52 | the slices are the grouping of the filtered expense entries |
| ChartsView.PieSlices | components/ChartsView.tsx:44-52 | there is one slice per distinct expense category of the filtered list, exactly those categories, each holding its category's sum; the slices add up to the filtered expense total |
| ChartsView.BarData | components/ChartsView.tsx:54-64 | at most one bar per distinct category, and every bar shown has a positive income or expense sum |
| ChartsView.BarDataRows | components/ChartsView.tsx:54-64 | a bar is shown exactly for a category present whose income or expense sum is positive, holding those two sums; bars come in first-appearance order, with no category twice |
| ChartsView.ExportLabel | components/ChartsView.tsx:66-69 | the label starts with the month part (`All_Time` or the month name) and ends in `_Report` |
| ChartsView.MonthLabelFacts | components/ChartsView.tsx:67 | the month part reads back as the selected month |
| ChartsView.WeekDigit | components/ChartsView.tsx:68 | an offered week renders as the single digit `1` to `4` in `_Week_${week}`, and that digit reads back as the week |
| ChartsView.ParseBuilt | components/ChartsView.tsx:66-69 | a label made of a month part that reads back, an optional offered week part and `_Report` reads back as that month and week |
| ChartsView.ExportLabelRoundTrip | components/ChartsView.tsx:66-69 | the selectors can be read back from the label, so different selections with an offered week give different labels |
| TransactionList.FilterList | components/TransactionList.tsx:15-21 | an entry is shown exactly when it is in the list, the lower-cased term occurs in its lower-cased description or category, and its type matches the selector |
| TransactionList.FilterListSubsequence | components/TransactionList.tsx:16 | the shown list keeps the entries' order |
| TransactionList.EmptySearchKeepsAll | components/TransactionList.tsx:15-21 | an empty term with every type shows the whole list |
| TransactionList.TypeFilterNarrows | components/TransactionList.tsx:19 | selecting a type shows exactly the search results of that type, in order |
| TransactionList.LongerTermNarrows | components/TransactionList.tsx:17-18 | a term containing another matches an ordered sub-list of what the shorter term matches |
| CategoryManager.WithList | components/CategoryManager.tsx:20-23 | the spread replaces the active tab's list and carries over the other lists and the vault list |
| CategoryManager.HandleAdd | components/CategoryManager.tsx:15-26 | the add as written: the active list either stays as it was or gets the trimmed input appended; the other list and the vault list are carried over |
| CategoryManager.HandleAddCases | components/CategoryManager.tsx:15-26 | a blank input changes nothing; an input already present (untrimmed) changes nothing; otherwise the trimmed input is appended to the active list and nothing else changes |
| CategoryManager.HandleAddIdempotent | components/CategoryManager.tsx:15-26 | adding a name without surrounding white space twice is adding it once |
| CategoryManager.PaddedNameDuplicates | components/CategoryManager.tsx:18-22 | with `Food` present, adding ` Food` makes the list hold `Food` twice |
| CategoryManager.HandleAddCorrected | components/CategoryManager.tsx:15-26 | the add that compares the trimmed name: a blank input, or one whose trimmed form is already in the list, changes nothing; otherwise the trimmed name is appended; the other lists are unchanged |
| CategoryManager.HandleAddCorrectedNoDuplicates | components/CategoryManager.tsx:15-26 | the corrected add keeps a repeat-free list repeat-free and is idempotent |
| CategoryManager.HandleDelete | components/CategoryManager.tsx:28-34 | the delete as written: the active list gets no longer, and the other list and the vault list are carried over |
| CategoryManager.HandleDeleteSpec | components/CategoryManager.tsx:28-34 | delete keeps exactly the other names, each as often as before, in their order, and protects no name |
| CategoryManager.HandleDeleteIdempotent | components/CategoryManager.tsx:28-34 | deleting twice is deleting once; deleting an absent name changes nothing |
| CategoryManager.DeleteUndoesAdd | components/CategoryManager.tsx:15-34 | deleting a name just added leaves the list as deleting it from the original would |
| ExcelService.SummaryRows | services/excelService.ts:8-30 | the reference summary: one row per distinct income category and one per distinct expense category (the layout and the sums are `SummaryLayout` and `SummaryTotals`) |
| ExcelService.PushRows | services/excelService.ts:18-27 | the `forEach` push appends one row per entry, in order, to the rows so far |
| ExcelService.SummaryData | services/excelService.ts:8-30 | the summary rows are the income grouping as INCOME rows and then the expense grouping as EXPENSE rows |
| ExcelService.SummaryIgnoresOtherTypes | services/excelService.ts:9-27 | vault entries and other types contribute no summary row |
| ExcelService.SummaryLayout | services/excelService.ts:8-30 | one INCOME row per distinct income category, in first-appearance order, with its sum, then one EXPENSE row per distinct expense category likewise |
| ExcelService.SummaryTotals | services/excelService.ts:8-30 | the INCOME block adds up to the income total and the EXPENSE block to the expense total |
| ExcelService.SumRowsOf | services/excelService.ts:20 | rows that copy each entry's total add up to the entries' total |
| ExcelService.ExportRowOf | services/excelService.ts:43-50 | a transactions row copies the id, amount, category, date and description, and its upper-cased type cell lower-cases back to the stored tag when the tag has no capitals |
| ExcelService.CategoryConfigRows | services/excelService.ts:56-59 | one config row per income name and then one per expense name, tagged `Income` and `Expense` in that order |
| ExcelService.ExportToExcel | services/excelService.ts:32-67 | the export fails exactly for a full backup of a state without category lists |
| ExcelService.ExportShape | services/excelService.ts:32-64 | the summary is that of the exported list; one transactions row per entry, in order, with the type upper-cased and the other fields copied; a category sheet exactly for a full backup, listing the income and then the expense names; a non-empty label, which is the custom one when given |
| ExcelService.MonthNamesAgree | services/excelService.ts:75-78 | the yearly report's month names are the month selector's |
| ExcelService.ExportYearlyReport | services/excelService.ts:72-98 | the book holds the summary of the year's entries and the month sheets of that year |
| ExcelService.MonthSheets | services/excelService.ts:86-98 | the pass over the twelve months appends, in calendar order, one sheet for each month that has entries |
| ExcelService.SheetOf | services/excelService.ts:87-96 | a month contributes at most one sheet, which is named after the month and holds at least one row |
| ExcelService.SheetsBefore | services/excelService.ts:86-98 | the months before `m` contribute at most `m` sheets |
| ExcelService.SheetOfCount | services/excelService.ts:87-96 | a month's sheet holds one row per entry of that month |
| ExcelService.SheetsBeforeCount | services/excelService.ts:86-98 | the sheets for the months before `m` hold exactly as many rows as there are entries dated before month `m` |
| ExcelService.YearlyRowsPartition | services/excelService.ts:81-98 | the month sheets together hold exactly as many rows as the year has entries |
| ExcelService.SheetsBeforeNamed | services/excelService.ts:86-98 | every month sheet is non-empty and is named after a month |
| ExcelService.OnOwnSheet | services/excelService.ts:87-96 | an entry of the year appears on the one sheet of its own month |
| ExcelService.SheetsBeforeCover | services/excelService.ts:86-98 | each entry dated before month `m` appears on the sheet named after its month |
| ExcelService.SheetOfOwnMonth | services/excelService.ts:87-96 | a month's sheet holds only rows of entries of the list dated in that month |
| ExcelService.SheetsBeforeOwnMonth | services/excelService.ts:86-98 | the sheets for the months before `m` hold only rows of entries of the list, each on the sheet named after its own month |
| ExcelService.YearlySheetsOwnRows | services/excelService.ts:81-98 | every row of the yearly sheets belongs to that year and sits on the sheet of its month |
| ExcelService.YearlySheetsContent | services/excelService.ts:81-98 | the month sheets partition the year's entries by month: every sheet is non-empty and named after a month, every entry of the year is on the sheet of its month, and a sheet holds only rows of its own month and year |
| ExcelService.ImportRow | services/excelService.ts:115-122 | each field of an imported row takes its default when the cell is empty or unreadable: a fresh id, type `expense` lower-cased, amount 0, category `Other`, the import time; the description is copied |
| ExcelService.ImportRows | services/excelService.ts:115-122 | the rows map one to one, in order; the import fails exactly when a date cell cannot be read |
| ExcelService.RebuildCategories | services/excelService.ts:124-132 | the lists rebuilt from the category sheet carry no vault list |
| ExcelService.ImportFromExcel | services/excelService.ts:104-141 | the import fails with "no transactions" exactly when neither transactions sheet is present; it yields category lists exactly when the workbook has a category sheet |
| ExcelService.ImportPrefersAllTransactions | services/excelService.ts:111 | the `All Transactions` sheet is used whenever it is present |
| ExcelService.FilterFirstBlock | services/excelService.ts:129-130 | filtering a block that passes followed by a block that fails keeps exactly the first block |
| ExcelService.RebuildRoundTrip | services/excelService.ts:124-132 | reading back the category sheet of an export gives the income and expense lists it was written from, without a vault list |
| ExcelService.ReadRowRoundTrip | services/excelService.ts:43-50 | a transactions row of an export reads back as the entry it was written from, when id, category and type survive the import's defaults |
| ExcelService.BackupRoundTrip | services/excelService.ts:32-62 | importing a full backup gives back the transactions and the income and expense lists, but no vault list |
| ExcelService.ReportImportHasNoCategories | services/excelService.ts:55-62 | a filtered report has no category sheet, so importing it yields no category lists |
| Ledger.InitialState | App.tsx:37-46 | a first start has empty lists, the initial categories and the initial profile |
| Ledger.InitialOffersVaultDeduction | constants.ts:5 | the initial expense list offers the `Vault Deduction` category that the withdrawal mirror uses |
| Ledger.AddTransaction | App.tsx:71-80 | the new entry goes first in the main list; the vault list, categories and profile are unchanged |
| Ledger.Mirror | App.tsx:93-101 | the mirror is an expense with the withdrawal's amount and date, in category `Vault Deduction`, described as `Withdrawal from Vault: ` followed by the description, or by the category when the description is empty |
| Ledger.AddVaultTransaction | App.tsx:82-111 | the new entry goes first in the vault list; only a `vault_out` also puts its mirror first in the main list; categories and profile are unchanged |
| Ledger.DeleteTransaction | App.tsx:113-118 | only the main list changes |
| Ledger.DeleteVaultTransaction | App.tsx:120-125 | only the vault list changes |
| Ledger.UpdateProfile | App.tsx:127-129 | the profile is replaced; nothing else changes |
| Ledger.UpdateCategories | App.tsx:131-133 | the category lists are replaced; nothing else changes |
| Ledger.MergeImport | App.tsx:140-143 | the spread copies both fields of the import result, the category lists even when they are absent; the vault list and the profile are kept |
| Ledger.DeleteTransactionSpec | App.tsx:113-118 | delete keeps exactly the main entries with another id, each as often as before, in their order, and deleting twice is deleting once |
| Ledger.DeleteVaultTransactionSpec | App.tsx:120-125 | delete keeps exactly the vault entries with another id, each as often as before, in their order, and deleting twice is deleting once |
| Ledger.DeleteUndoesAdd | App.tsx:71-118 | deleting an entry just added under a fresh id restores the state |
| Ledger.DeleteVaultKeepsMirror | App.tsx:82-125 | deleting a withdrawal from the vault list restores the vault list but leaves its mirror in the main list |
| Ledger.WithdrawalEffects | App.tsx:93-103 | a withdrawal of `a` leaves dashboard income alone, raises dashboard expense by `a` and lowers the vault balance by `a` |
| Ledger.DepositEffects | App.tsx:82-111 | a deposit raises the vault balance by its amount and leaves the main list alone |
| Ledger.MergeWithoutConfigDropsCategories | App.tsx:140-143 | merging an import without a category sheet leaves no category lists, after which a full backup export fails |
| Ledger.ReportReimportDropsCategories | App.tsx:140-143 | re-importing any filtered report erases the category lists whenever the import succeeds, and it succeeds whenever the report's dates read back |
| Ledger.MergeImportCorrected | App.tsx:140-143 | the merge that keeps the lists the workbook does not carry: transactions replaced, vault list and profile kept; without a category sheet the category lists stay as they were; with one, the income and expense lists come from the workbook, and the vault category list is the old one when the workbook has none |
| Ledger.MergeImportCorrectedKeepsLists | App.tsx:140-143 | the corrected merge never loses the category lists or the vault category list, and keeps the old vault category list when the workbook carries none; it takes the income and expense lists from the workbook when there are any; a full backup export afterwards succeeds |
| Ledger.ModalSubmit | App.tsx:415-420 | nothing is submitted for an empty or non-numeric amount; otherwise the draft carries the form's type, parsed amount, category, date and description |
| App.Store.constructor | App.tsx:37-46 | a first start holds the initial state |
| App.Store.AddTransaction | App.tsx:71-80 | the held state becomes the `addTransaction` transition of the old state |
| App.Store.AddVaultTransaction | App.tsx:82-111 | the held state becomes the `addVaultTransaction` transition of the old state |
| App.Store.DeleteTransaction | App.tsx:113-118 | the held state becomes the `deleteTransaction` transition of the old state |
| App.Store.DeleteVaultTransaction | App.tsx:120-125 | the held state becomes the `deleteVaultTransaction` transition of the old state |
| App.Store.UpdateProfile | App.tsx:127-129 | the held state gets the new profile |
| App.Store.UpdateCategories | App.tsx:131-133 | the held state gets the new category lists |
| App.Store.ApplyImport | App.tsx:135-149 | a successful import is spread over the state as written (`Ledger.MergeImport`), so a workbook without a category sheet clears the category lists; a failed one leaves the state unchanged |
| App.Store.SubmitEntry | App.tsx:415-420 | the entry form adds its draft when the guard lets it through, and otherwise changes nothing |
| App.Store.SubmitVault | components/VaultView.tsx:36-46 | the vault form adds its draft, with the mirror for a withdrawal, when the guard lets it through, and otherwise changes nothing |

## Left out

- Persistence to `localStorage`, the onboarding flow, notifications, the settings screen and the tip service: these are I/O, not bookkeeping.
- All rendering, routing and component-local UI state, apart from the form fields the submit guards read.
- Spreadsheet files: the `XLSX` encoding, `FileReader`, `writeFile` and sheet parsing. A workbook is modelled as its rows.
- The file names, which embed the profile name, a regex white-space replacement and today's date. Only the label part is modelled (`ExcelService.Workbook.fileLabel`).
- Locale date formatting and date parsing are taken to be exact. The dates written by an export read back unchanged (`ExcelService.ReadBack`), and the time of day is not modelled. An unparseable date cell is modelled as a failed import (`ImportError.InvalidDate`): `toISOString` throws on an invalid date.
- Floating-point arithmetic: amounts are exact reals, so rounding and the ordering of float additions are not modelled.
- `Number(...)` is a parameter of the submit guards. Only its NaN case (`None`) is distinguished.
- Random ids are parameters (`id`, `mirrorId`, `freshId`). Their uniqueness is not assumed. Lemmas that need a fresh id require it.
- Letter case: `toLowerCase`/`toUpperCase` are modelled on ASCII letters only, with Unicode case mapping left out.
- `Totals.GroupByCategory`: the dictionary is modelled as a plain map from category to sum, with keys in insertion order. Three behaviours of the source's `{}` accumulator are left out:
  - `Object.entries` puts integer-like keys (a category named `"12"`) first, in numeric order.
  - The accumulator inherits `constructor`, `toString`, `valueOf` and the other `Object.prototype` members. For a category with such a name, `(acc[cat] || 0) + amount` starts from the inherited function and produces a string, not a sum.
  - An assignment to the key `__proto__` changes the prototype instead of adding an entry, so that category is missing from `Object.entries`.

  The contract therefore holds only for category names that are not integer-like and are not `Object.prototype` member names.
- `ExcelService.SummaryData`: the single pass over a dictionary keyed by type and then by category is modelled as one grouping per type over the entries of that type. Each inner dictionary sees the same entries in the same order. An imported `Type` cell that reads `__proto__` is left out; the model keeps it as an `Unlisted` tag that adds no row. In the source, `acc['__proto__']` is `Object.prototype`, so `services/excelService.ts:12` writes that entry's category total onto `Object.prototype`. Every later dictionary then inherits it: `[(__proto__, Food, 5), (income, Food, 10)]` yields INCOME Food 15, not 10. The same inherited value reaches the dashboard and chart groupings of the same page. The contract holds for type cells other than `__proto__`.
- `ExcelService.SummaryIgnoresOtherTypes`: holds in the model for every type. In the source it fails for an entry typed `__proto__`, for the reason on the line above.
- The dashboard shows the category list only when `stats.expense > 0`, and the export button is disabled on an empty filtered list. These are rendering conditions and are not modelled.
- Crash paths not modelled:
  - a non-string `Type` cell, on which `toLowerCase` throws;
  - a config row without a `Name` (the name is taken as given);
  - the views reading `categories.vault[0]` or `categories[activeTab]` after the lists were erased.

  A full backup of a state without category lists, which throws in the source, is modelled as `ExportError.CategoriesMissing`.
- `ChartsView.ExportLabelRoundTrip`: stated only for the four offered weeks. A week number the selector cannot produce could render as several digits.

## Findings

| source | as written | input that shows it | evidently intended | confidence | as-written member | corrected member |
|---|---|---|---|---|---|---|
| components/ChartsView.tsx:39 | the week is `Math.ceil(date.getDate() / 7)`, which is 5 for days 29 to 31, while the selector offers only weeks 1 to 4 and labels week 4 "22-31" (lines 112-116) | an expense dated the 30th with week 4 selected | days 29 to 31 belong to week 4 | not executed | ChartsView.ThirtiethIsLost | ChartsView.SelectableWeekOfDay |
| components/CategoryManager.tsx:18 | the duplicate check compares the untrimmed input, while line 22 appends the trimmed one | the expense list holds `Food`, and the user adds ` Food` | a name is rejected when its trimmed form is already in the list | not executed | CategoryManager.PaddedNameDuplicates | CategoryManager.HandleAddCorrectedNoDuplicates |
| App.tsx:142 | `...imported` copies `categories: undefined` when the workbook has no `Category Config` sheet (`services/excelService.ts:125-134`), and copies income and expense lists with no vault list when it has one | importing a filtered report, which never has a category sheet | the category lists the workbook does not carry are kept | not executed | Ledger.ReportReimportDropsCategories | Ledger.MergeImportCorrectedKeepsLists |

Each as-written member models the code as it stands, and the lemma beside
it exhibits the discrepancy. The corrected members carry the intended
properties. The views and the store follow the code as written: the
analytics filter is `ChartsView.FilterPeriod`, the category add is
`CategoryManager.HandleAdd`, and the store's import
(`App.Store.ApplyImport`) uses `Ledger.MergeImport`. The corrected
definitions stand beside them (`ChartsView.FilterPeriodCorrected`,
`CategoryManager.HandleAddCorrected`, `Ledger.MergeImportCorrected`).
