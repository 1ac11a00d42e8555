/**
 * The history screen's search box and type selector.
 */
module TransactionList {
  import opened Types
  import opened Seqs
  import opened Totals
  import opened Text

  /** The type selector: every type, or only `income` or only `expense`. */
  datatype TypeFilter = AllTypes | IncomeOnly | ExpenseOnly

  /** The search term, lower-cased, occurs in the lower-cased description or category. */
  predicate MatchesSearch(term: string, t: Transaction)
  {
    Contains(Lower(t.description), Lower(term)) || Contains(Lower(t.category), Lower(term))
  }

  predicate MatchesType(ty: TypeFilter, t: Transaction)
  {
    match ty
    case AllTypes => true
    case IncomeOnly => t.kind == Income
    case ExpenseOnly => t.kind == Expense
  }

  predicate Matches(term: string, ty: TypeFilter, t: Transaction)
  {
    MatchesSearch(term, t) && MatchesType(ty, t)
  }

  function MatchesFn(term: string, ty: TypeFilter): Transaction -> bool
  {
    (t: Transaction) => Matches(term, ty, t)
  }

  /** `filtered`. */
  function FilterList(xs: seq<Transaction>, term: string, ty: TypeFilter): (r: seq<Transaction>)
    ensures forall t :: t in r <==> t in xs && MatchesSearch(term, t) && MatchesType(ty, t)
  {
    FilterMembers(xs, MatchesFn(term, ty));
    Filter(xs, MatchesFn(term, ty))
  }

  /** The shown list is the main list with entries left out, in their order. */
  lemma FilterListSubsequence(xs: seq<Transaction>, term: string, ty: TypeFilter)
    ensures IsSubsequence(FilterList(xs, term, ty), xs)
  {
    FilterIsSubsequence(xs, MatchesFn(term, ty));
  }

  /** An empty search with every type shows the whole list. */
  lemma EmptySearchKeepsAll(xs: seq<Transaction>)
    ensures FilterList(xs, "", AllTypes) == xs
  {
    forall t: Transaction ensures Matches("", AllTypes, t) {
      ContainsEmpty(Lower(t.description));
      assert Lower("") == "";
    }
    FilterKeepsAll(xs, MatchesFn("", AllTypes));
  }

  /**
   * Choosing a type narrows the search results to exactly the entries of
   * that type, in their order.
   */
  lemma TypeFilterNarrows(xs: seq<Transaction>, term: string)
    ensures FilterList(xs, term, IncomeOnly) == Filter(FilterList(xs, term, AllTypes), OfKind(Income))
    ensures FilterList(xs, term, ExpenseOnly) == Filter(FilterList(xs, term, AllTypes), OfKind(Expense))
  {
    FilterConj(xs, MatchesFn(term, AllTypes), OfKind(Income), MatchesFn(term, IncomeOnly));
    FilterConj(xs, MatchesFn(term, AllTypes), OfKind(Expense), MatchesFn(term, ExpenseOnly));
  }

  /** Typing more of a term only removes results: a longer term matches a subsequence. */
  lemma LongerTermNarrows(xs: seq<Transaction>, s1: string, s2: string, ty: TypeFilter)
    requires Contains(s2, s1)
    ensures IsSubsequence(FilterList(xs, s2, ty), FilterList(xs, s1, ty))
  {
    LowerContains(s2, s1);
    forall t: Transaction | Matches(s2, ty, t) ensures Matches(s1, ty, t) {
      if Contains(Lower(t.description), Lower(s2)) {
        ContainsTransitive(Lower(t.description), Lower(s2), Lower(s1));
      } else {
        ContainsTransitive(Lower(t.category), Lower(s2), Lower(s1));
      }
    }
    FilterMonotone(xs, MatchesFn(s2, ty), MatchesFn(s1, ty));
  }
}
