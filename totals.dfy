/**
 * Sums of transaction amounts and the per-category grouping that the
 * dashboard, the pie chart and the spreadsheet summary all compute by
 * reducing into a keyed accumulator and reading it back with
 * `Object.entries` (insertion order).
 */
module Totals {
  import opened Types
  import opened Seqs

  /** The sum of the amounts, in list order. */
  function Total(xs: seq<Transaction>): real
  {
    if |xs| == 0 then 0.0 else xs[0].amount + Total(xs[1..])
  }

  lemma {:induction false} TotalAppend(a: seq<Transaction>, b: seq<Transaction>)
    ensures Total(a + b) == Total(a) + Total(b)
    decreases |a|
  {
    if |a| == 0 {
      assert a + b == b;
    } else {
      assert (a + b)[1..] == a[1..] + b;
      TotalAppend(a[1..], b);
    }
  }

  function OfKind(k: TxType): Transaction -> bool
  {
    (t: Transaction) => t.kind == k
  }

  function NotKind(k: TxType): Transaction -> bool
  {
    (t: Transaction) => t.kind != k
  }

  function InCategory(c: string): Transaction -> bool
  {
    (t: Transaction) => t.category == c
  }

  /** The sum of the amounts of the entries typed `k`. */
  function KindTotal(xs: seq<Transaction>, k: TxType): real
  {
    Total(Filter(xs, OfKind(k)))
  }

  /** The sum of the amounts of the entries in category `c`. */
  function CategoryTotal(xs: seq<Transaction>, c: string): real
  {
    Total(Filter(xs, InCategory(c)))
  }

  /** Filtering a list with one more element at its end. */
  lemma FilteredTotalSnoc(xs: seq<Transaction>, x: Transaction, p: Transaction -> bool)
    ensures Total(Filter(xs + [x], p)) == Total(Filter(xs, p)) + (if p(x) then x.amount else 0.0)
  {
    FilterAppend(xs, [x], p);
    TotalAppend(Filter(xs, p), Filter([x], p));
    assert [x][1..] == [];
  }

  /** Filtering a list with one more element at its front. */
  lemma FilteredTotalCons(x: Transaction, xs: seq<Transaction>, p: Transaction -> bool)
    ensures Total(Filter([x] + xs, p)) == (if p(x) then x.amount else 0.0) + Total(Filter(xs, p))
  {
    assert ([x] + xs)[0] == x;
    assert ([x] + xs)[1..] == xs;
  }

  /** The sum over any filter does not depend on the order of the list. */
  lemma {:induction false} FilteredTotalPermutation(a: seq<Transaction>, b: seq<Transaction>, p: Transaction -> bool)
    requires multiset(a) == multiset(b)
    ensures Total(Filter(a, p)) == Total(Filter(b, p))
    decreases |a|
  {
    if |a| > 0 {
      var x := a[0];
      assert x in multiset(b);
      var j :| 0 <= j < |b| && b[j] == x;
      var pre, post := b[..j], b[j + 1..];
      MultisetRemove(a, b, j);
      FilteredTotalPermutation(a[1..], pre + post, p);
      assert b == pre + [x] + post;
      FilteredTotalMiddle(pre, x, post, p);
      assert a == [x] + a[1..];
      FilteredTotalCons(x, a[1..], p);
    }
  }

  /** Taking the head off one list and element `j` off the other keeps them permutations. */
  lemma MultisetRemove(a: seq<Transaction>, b: seq<Transaction>, j: nat)
    requires multiset(a) == multiset(b) && |a| > 0 && j < |b| && b[j] == a[0]
    ensures multiset(a[1..]) == multiset(b[..j] + b[j + 1..])
  {
    var x := a[0];
    assert a == [x] + a[1..];
    assert b == b[..j] + [x] + b[j + 1..];
    assert multiset(a[1..]) == multiset(a) - multiset{x};
    assert multiset(b[..j] + b[j + 1..]) == multiset(b) - multiset{x};
  }

  /** The filtered sum of a list with one element between two parts. */
  lemma FilteredTotalMiddle(pre: seq<Transaction>, x: Transaction, post: seq<Transaction>, p: Transaction -> bool)
    ensures Total(Filter(pre + [x] + post, p)) == (if p(x) then x.amount else 0.0) + Total(Filter(pre + post, p))
  {
    var left := pre + [x];
    FilterAppend(left, post, p);
    FilteredTotalSnoc(pre, x, p);
    TotalAppend(Filter(left, p), Filter(post, p));
    FilterAppend(pre, post, p);
    TotalAppend(Filter(pre, p), Filter(post, p));
  }

  /** The category column of a list of transactions. */
  function CategoryColumn(xs: seq<Transaction>): (r: seq<string>)
    ensures |r| == |xs|
  {
    MapSeq(xs, (t: Transaction) => t.category)
  }

  /** The distinct categories, in order of first appearance. */
  function CategoryNames(xs: seq<Transaction>): seq<string>
  {
    Distinct(CategoryColumn(xs))
  }

  lemma CategoryNamesSnoc(xs: seq<Transaction>, x: Transaction)
    ensures CategoryNames(xs + [x]) ==
      if x.category in CategoryColumn(xs) then CategoryNames(xs) else CategoryNames(xs) + [x.category]
  {
    assert CategoryColumn(xs + [x]) == CategoryColumn(xs) + [x.category];
    DistinctSnoc(CategoryColumn(xs), x.category);
  }

  lemma InCategoryColumn(xs: seq<Transaction>, c: string)
    ensures c in CategoryColumn(xs) <==> exists i :: 0 <= i < |xs| && xs[i].category == c
  {
    if c in CategoryColumn(xs) {
      var i :| 0 <= i < |xs| && CategoryColumn(xs)[i] == c;
      assert xs[i].category == c;
    }
  }

  /** A category that does not occur has total 0. */
  lemma CategoryTotalAbsent(xs: seq<Transaction>, c: string)
    requires c !in CategoryColumn(xs)
    ensures CategoryTotal(xs, c) == 0.0
  {
    InCategoryColumn(xs, c);
    FilterDropsAll(xs, InCategory(c));
  }

  /** One key and its accumulated value, as `Object.entries` yields it. */
  datatype Entry = Entry(name: string, total: real)

  /** The entry of each name in `ks`, with that category's total in `xs`. */
  function EntriesFor(xs: seq<Transaction>, ks: seq<string>): (r: seq<Entry>)
    ensures |r| == |ks|
    ensures forall i :: 0 <= i < |ks| ==> r[i] == Entry(ks[i], CategoryTotal(xs, ks[i]))
  {
    if |ks| == 0 then [] else [Entry(ks[0], CategoryTotal(xs, ks[0]))] + EntriesFor(xs, ks[1..])
  }

  /**
   * The reference meaning of grouping: one entry per distinct category, in
   * first-appearance order, holding the sum of that category's amounts.
   */
  function Grouped(xs: seq<Transaction>): seq<Entry>
  {
    EntriesFor(xs, CategoryNames(xs))
  }

  function EntryName(e: Entry): string
  {
    e.name
  }

  function SumTotals(es: seq<Entry>): real
  {
    if |es| == 0 then 0.0 else es[0].total + SumTotals(es[1..])
  }

  /** The names of a grouping are exactly the categories present, each once. */
  lemma GroupedNames(xs: seq<Transaction>)
    ensures MapSeq(Grouped(xs), EntryName) == CategoryNames(xs)
    ensures NoDuplicates(MapSeq(Grouped(xs), EntryName))
    ensures forall c :: c in MapSeq(Grouped(xs), EntryName) <==> exists i :: 0 <= i < |xs| && xs[i].category == c
  {
    assert MapSeq(Grouped(xs), EntryName) == CategoryNames(xs);
    forall c ensures c in CategoryNames(xs) <==> exists i :: 0 <= i < |xs| && xs[i].category == c {
      InCategoryColumn(xs, c);
    }
  }

  lemma {:induction false} EntriesForEmpty(ks: seq<string>)
    ensures SumTotals(EntriesFor([], ks)) == 0.0
    decreases |ks|
  {
    if |ks| > 0 {
      EntriesForEmpty(ks[1..]);
    }
  }

  /** Adding an entry at the front adds its amount to the one category it belongs to. */
  lemma {:induction false} EntriesForCons(x: Transaction, xs: seq<Transaction>, ks: seq<string>)
    requires NoDuplicates(ks)
    ensures SumTotals(EntriesFor([x] + xs, ks)) ==
      SumTotals(EntriesFor(xs, ks)) + (if x.category in ks then x.amount else 0.0)
    decreases |ks|
  {
    if |ks| > 0 {
      assert NoDuplicates(ks[1..]);
      EntriesForCons(x, xs, ks[1..]);
      FilteredTotalCons(x, xs, InCategory(ks[0]));
      assert x.category in ks <==> x.category == ks[0] || x.category in ks[1..];
      assert x.category == ks[0] ==> x.category !in ks[1..];
    }
  }

  /** Summing the entries of distinct names that cover every category gives the total. */
  lemma {:induction false} EntriesForTotal(xs: seq<Transaction>, ks: seq<string>)
    requires NoDuplicates(ks)
    requires forall t :: t in xs ==> t.category in ks
    ensures SumTotals(EntriesFor(xs, ks)) == Total(xs)
    decreases |xs|
  {
    if |xs| == 0 {
      EntriesForEmpty(ks);
    } else {
      var x, rest := xs[0], xs[1..];
      assert xs == [x] + rest;
      EntriesForTotal(rest, ks);
      EntriesForCons(x, rest, ks);
    }
  }

  /** The group totals add up to the total of the list: no amount is lost or counted twice. */
  lemma GroupedTotal(xs: seq<Transaction>)
    ensures SumTotals(Grouped(xs)) == Total(xs)
  {
    forall t | t in xs ensures t.category in CategoryNames(xs) {
      InCategoryColumn(xs, t.category);
    }
    EntriesForTotal(xs, CategoryNames(xs));
  }

  /** `acc` and its key order `keys` hold the category totals of `p`. */
  ghost predicate Tallies(p: seq<Transaction>, keys: seq<string>, acc: map<string, real>)
  {
    && keys == CategoryNames(p)
    && (forall k :: k in acc <==> k in keys)
    && (forall k :: k in acc ==> acc[k] == CategoryTotal(p, k))
  }

  lemma CategoryTotalSnoc(p: seq<Transaction>, t: Transaction, k: string)
    ensures CategoryTotal(p + [t], k) == CategoryTotal(p, k) + (if t.category == k then t.amount else 0.0)
  {
    FilteredTotalSnoc(p, t, InCategory(k));
  }

  /** One step of the accumulator on a key it already holds: add `t.amount` under it. */
  lemma TallyExisting(p: seq<Transaction>, t: Transaction, keys: seq<string>, acc: map<string, real>)
    requires Tallies(p, keys, acc) && t.category in acc
    ensures Tallies(p + [t], keys, acc[t.category := acc[t.category] + t.amount])
  {
    CategoryNamesSnoc(p, t);
    assert t.category in CategoryColumn(p);
    TallyValuesExisting(p, t, acc);
  }

  lemma TallyValuesExisting(p: seq<Transaction>, t: Transaction, acc: map<string, real>)
    requires forall k :: k in acc ==> acc[k] == CategoryTotal(p, k)
    requires t.category in acc
    ensures var next := acc[t.category := acc[t.category] + t.amount];
      forall k :: k in next ==> next[k] == CategoryTotal(p + [t], k)
  {
    var next := acc[t.category := acc[t.category] + t.amount];
    forall k | k in next ensures next[k] == CategoryTotal(p + [t], k) {
      CategoryTotalSnoc(p, t, k);
    }
  }

  /** One step of the accumulator on a new key: append the key, start its total. */
  lemma TallyNew(p: seq<Transaction>, t: Transaction, keys: seq<string>, acc: map<string, real>)
    requires Tallies(p, keys, acc) && t.category !in acc
    ensures Tallies(p + [t], keys + [t.category], acc[t.category := 0.0 + t.amount])
  {
    CategoryNamesSnoc(p, t);
    forall k | k in acc || k == t.category {
      CategoryTotalSnoc(p, t, k);
    }
    CategoryTotalAbsent(p, t.category);
  }

  /** `Object.entries(acc)`: each key in insertion order with its value. */
  function EntriesOf(keys: seq<string>, acc: map<string, real>): (r: seq<Entry>)
    requires forall k :: k in keys ==> k in acc
    ensures |r| == |keys|
    ensures forall m :: 0 <= m < |keys| ==> r[m] == Entry(keys[m], acc[keys[m]])
  {
    seq(|keys|, m requires 0 <= m < |keys| => Entry(keys[m], acc[keys[m]]))
  }

  /** Reading back an accumulator that tallies `p` gives the grouping of `p`. */
  lemma EntriesOfTally(p: seq<Transaction>, keys: seq<string>, acc: map<string, real>)
    requires Tallies(p, keys, acc)
    ensures EntriesOf(keys, acc) == Grouped(p)
  {
  }

  /**
   * `xs.reduce((acc, t) => { acc[t.category] = (acc[t.category] || 0) + t.amount; ... }, {})`
   * followed by `Object.entries`: a dictionary updated in place, whose keys
   * keep their insertion order.
   */
  method GroupByCategory(xs: seq<Transaction>) returns (entries: seq<Entry>)
    ensures entries == Grouped(xs)
  {
    var keys: seq<string> := [];
    var acc: map<string, real> := map[];
    var i := 0;
    while i < |xs|
      invariant 0 <= i <= |xs|
      invariant Tallies(xs[..i], keys, acc)
    {
      var t := xs[i];
      assert xs[..i + 1] == xs[..i] + [t];
      if t.category in acc {
        TallyExisting(xs[..i], t, keys, acc);
        acc := acc[t.category := acc[t.category] + t.amount];
      } else {
        TallyNew(xs[..i], t, keys, acc);
        keys := keys + [t.category];
        acc := acc[t.category := 0.0 + t.amount];
      }
      i := i + 1;
    }
    assert xs[..i] == xs;
    EntriesOfTally(xs, keys, acc);
    entries := EntriesOf(keys, acc);
  }
}
