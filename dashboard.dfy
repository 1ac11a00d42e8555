/**
 * The dashboard: income/expense/balance statistics over the main list, the
 * five most recent entries and the five largest expense categories.
 */
module Dashboard {
  import opened Types
  import opened Seqs
  import opened Totals

  datatype Stats = Stats(income: real, expense: real, balance: real)

  /**
   * The `forEach` over the main list: `income` collects entries typed
   * `income`, `expense` every other entry, whatever its type.
   */
  method ComputeStats(xs: seq<Transaction>) returns (s: Stats)
    ensures s.income == KindTotal(xs, Income)
    ensures s.expense == Total(Filter(xs, NotKind(Income)))
    ensures s.balance == s.income - s.expense
  {
    var income := 0.0;
    var expense := 0.0;
    var i := 0;
    while i < |xs|
      invariant 0 <= i <= |xs|
      invariant income == KindTotal(xs[..i], Income)
      invariant expense == Total(Filter(xs[..i], NotKind(Income)))
    {
      var t := xs[i];
      assert xs[..i + 1] == xs[..i] + [t];
      FilteredTotalSnoc(xs[..i], t, OfKind(Income));
      FilteredTotalSnoc(xs[..i], t, NotKind(Income));
      if t.kind == Income {
        income := income + t.amount;
      } else {
        expense := expense + t.amount;
      }
      i := i + 1;
    }
    assert xs[..i] == xs;
    s := Stats(income, expense, income - expense);
  }

  /** Every amount lands in exactly one of the two statistics. */
  lemma {:induction false} StatsPartition(xs: seq<Transaction>)
    ensures KindTotal(xs, Income) + Total(Filter(xs, NotKind(Income))) == Total(xs)
    decreases |xs|
  {
    if |xs| > 0 {
      StatsPartition(xs[1..]);
      assert xs == [xs[0]] + xs[1..];
      FilteredTotalCons(xs[0], xs[1..], OfKind(Income));
      FilteredTotalCons(xs[0], xs[1..], NotKind(Income));
    }
  }

  /** A new entry at the front that is not income raises `expense` by its amount. */
  lemma PrependNonIncome(t: Transaction, xs: seq<Transaction>)
    requires t.kind != Income
    ensures KindTotal([t] + xs, Income) == KindTotal(xs, Income)
    ensures Total(Filter([t] + xs, NotKind(Income))) == Total(Filter(xs, NotKind(Income))) + t.amount
  {
    FilteredTotalCons(t, xs, OfKind(Income));
    FilteredTotalCons(t, xs, NotKind(Income));
  }

  /** `transactions.slice(0, 5)`. */
  function Recent(xs: seq<Transaction>): (r: seq<Transaction>)
    ensures |r| == if |xs| < 5 then |xs| else 5
    ensures forall i :: 0 <= i < |r| ==> r[i] == xs[i]
  {
    if |xs| < 5 then xs else xs[..5]
  }

  /** Non-increasing by total. */
  predicate SortedDesc(s: seq<Entry>)
  {
    forall i, j :: 0 <= i < j < |s| ==> s[i].total >= s[j].total
  }

  /**
   * Inserts `e` after the leading entries with a strictly larger total and
   * before the first that is no larger. Insertion sort inserts the earlier
   * entry into the sorted rest, so it lands before every later entry of the
   * same total: the comparator `b[1] - a[1]` under a stable sort.
   */
  function Insert(e: Entry, s: seq<Entry>): (r: seq<Entry>)
    ensures |r| == |s| + 1
    ensures multiset(r) == multiset(s) + multiset{e}
  {
    if |s| == 0 then [e]
    else if s[0].total > e.total then
      assert s == [s[0]] + s[1..];
      [s[0]] + Insert(e, s[1..])
    else
      [e] + s
  }

  /** An entry no smaller than the head of a sorted list can go in front of it. */
  lemma ConsSorted(x: Entry, s: seq<Entry>)
    requires SortedDesc(s) && (|s| > 0 ==> x.total >= s[0].total)
    ensures SortedDesc([x] + s)
  {
    var r := [x] + s;
    forall i, j | 0 <= i < j < |r| ensures r[i].total >= r[j].total {
      if i > 0 {
        assert r[i] == s[i - 1] && r[j] == s[j - 1];
      } else if j > 1 {
        assert s[0].total >= s[j - 1].total;
      }
    }
  }

  /**
   * Inserting into a sorted list keeps it sorted; the head is the old head
   * when that is strictly larger, and `e` otherwise.
   */
  lemma {:induction false} InsertSorted(e: Entry, s: seq<Entry>)
    requires SortedDesc(s)
    ensures SortedDesc(Insert(e, s))
    ensures Insert(e, s)[0] == if |s| > 0 && s[0].total > e.total then s[0] else e
    decreases |s|
  {
    if |s| > 0 && s[0].total > e.total {
      assert SortedDesc(s[1..]);
      InsertSorted(e, s[1..]);
      ConsSorted(s[0], Insert(e, s[1..]));
    } else {
      ConsSorted(e, s);
    }
  }

  /** `entries.sort((a, b) => b[1] - a[1])`. */
  function SortDesc(s: seq<Entry>): (r: seq<Entry>)
    ensures SortedDesc(r)
    ensures multiset(r) == multiset(s)
    ensures |r| == |s|
  {
    if |s| == 0 then []
    else
      assert s == [s[0]] + s[1..];
      var sorted := SortDesc(s[1..]);
      InsertSorted(s[0], sorted);
      Insert(s[0], sorted)
  }

  /** The entries of one total, in the order the list holds them. */
  function HasTotal(v: real): Entry -> bool
  {
    (e: Entry) => e.total == v
  }

  /**
   * Insertion only passes over entries with a strictly larger total, so among
   * the entries of any one total `e` stays in front, where it was.
   */
  lemma {:induction false} InsertStable(e: Entry, s: seq<Entry>, v: real)
    ensures Filter(Insert(e, s), HasTotal(v)) == Filter([e] + s, HasTotal(v))
    decreases |s|
  {
    if |s| > 0 && s[0].total > e.total {
      var x, rest := s[0], s[1..];
      InsertStable(e, rest, v);
      FilterAppend([x], Insert(e, rest), HasTotal(v));
      FilterAppend([e], rest, HasTotal(v));
      FilterAppend([x], rest, HasTotal(v));
      FilterAppend([e], s, HasTotal(v));
      assert s == [x] + rest;
    }
  }

  /**
   * The sort is stable: for every total, the entries with that total come
   * out in the order they went in.
   */
  lemma {:induction false} SortDescStable(s: seq<Entry>, v: real)
    ensures Filter(SortDesc(s), HasTotal(v)) == Filter(s, HasTotal(v))
    decreases |s|
  {
    if |s| > 0 {
      var rest := SortDesc(s[1..]);
      SortDescStable(s[1..], v);
      InsertStable(s[0], rest, v);
      FilterAppend([s[0]], rest, HasTotal(v));
      FilterAppend([s[0]], s[1..], HasTotal(v));
      assert s == [s[0]] + s[1..];
    }
  }

  /**
   * The first `n` entries of a sorted permutation of `groups` are among
   * `groups`, and every entry left out is no larger than any kept.
   */
  lemma TakeOfSorted(groups: seq<Entry>, sorted: seq<Entry>, n: nat)
    requires SortedDesc(sorted) && multiset(sorted) == multiset(groups) && n <= |sorted|
    ensures forall e :: e in sorted[..n] ==> e in groups
    ensures forall e, f :: e in groups && e !in sorted[..n] && f in sorted[..n] ==> e.total <= f.total
  {
    var shown := sorted[..n];
    forall e | e in shown ensures e in groups {
      assert e in multiset(sorted);
    }
    forall e, f | e in groups && e !in shown && f in shown ensures e.total <= f.total {
      assert e in multiset(sorted);
      var k :| 0 <= k < |sorted| && sorted[k] == e;
      var m :| 0 <= m < n && shown[m] == f;
      assert k >= n;
    }
  }

  /** A prefix of a sorted list is sorted and holds no entry more often than the list. */
  lemma PrefixOfSorted(sorted: seq<Entry>, n: nat)
    requires SortedDesc(sorted) && n <= |sorted|
    ensures SortedDesc(sorted[..n])
    ensures multiset(sorted[..n]) <= multiset(sorted)
  {
    assert sorted == sorted[..n] + sorted[n..];
  }

  /**
   * Among the entries of any one total, the first `n` of the sorted list are
   * the first ones of `groups`, in their order.
   */
  lemma TakeStable(groups: seq<Entry>, n: nat, v: real)
    requires n <= |groups|
    ensures Filter(SortDesc(groups)[..n], HasTotal(v)) <= Filter(groups, HasTotal(v))
  {
    FilterPrefix(SortDesc(groups), n, HasTotal(v));
    SortDescStable(groups, v);
  }

  /**
   * The "Category Performance" list: expense entries grouped by category,
   * sorted by total, the first five kept. Among groups of equal total, those
   * shown are the ones that come first in the grouping, in that order.
   */
  method TopExpenseCategories(xs: seq<Transaction>) returns (shown: seq<Entry>)
    ensures |shown| == (var groups := Grouped(Filter(xs, OfKind(Expense))); if |groups| < 5 then |groups| else 5)
    ensures SortedDesc(shown)
    ensures multiset(shown) <= multiset(Grouped(Filter(xs, OfKind(Expense))))
    ensures forall e :: e in shown ==> e in Grouped(Filter(xs, OfKind(Expense)))
    ensures forall e, f :: e in Grouped(Filter(xs, OfKind(Expense))) && e !in shown && f in shown ==> e.total <= f.total
    ensures forall v :: Filter(shown, HasTotal(v)) <= Filter(Grouped(Filter(xs, OfKind(Expense))), HasTotal(v))
  {
    var groups := GroupByCategory(Filter(xs, OfKind(Expense)));
    var sorted := SortDesc(groups);
    var n := if |sorted| < 5 then |sorted| else 5;
    shown := sorted[..n];
    TakeOfSorted(groups, sorted, n);
    PrefixOfSorted(sorted, n);
    forall v ensures Filter(shown, HasTotal(v)) <= Filter(groups, HasTotal(v)) {
      TakeStable(groups, n, v);
    }
  }
}
