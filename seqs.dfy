/**
 * Sequence operations the ledger's views are built from: `filter`, `map`,
 * first-appearance de-duplication (what `new Set(...)` and a keyed
 * accumulator keep), and the facts about them the other modules use.
 */
module Seqs {

  /** `a` is `b` with some elements left out, the rest in their order. */
  predicate IsSubsequence<T(==)>(a: seq<T>, b: seq<T>)
    decreases |b|
  {
    if |a| == 0 then true
    else if |b| == 0 then false
    else if a[0] == b[0] then IsSubsequence(a[1..], b[1..])
    else IsSubsequence(a, b[1..])
  }

  predicate NoDuplicates<T(==)>(s: seq<T>)
  {
    forall i, j :: 0 <= i < j < |s| ==> s[i] != s[j]
  }

  /** Two equal elements at different places rule out `NoDuplicates`. */
  lemma RepeatedEntry<T>(s: seq<T>, i: nat, j: nat)
    requires i < j < |s| && s[i] == s[j]
    ensures !NoDuplicates(s)
  {
  }

  /** Array `filter`: the elements that satisfy `p`, in order. */
  function Filter<T(!new)>(s: seq<T>, p: T -> bool): (r: seq<T>)
    ensures |r| <= |s|
  {
    if |s| == 0 then []
    else if p(s[0]) then [s[0]] + Filter(s[1..], p)
    else Filter(s[1..], p)
  }

  /** The filtered list holds exactly the elements that satisfy `p`. */
  lemma {:induction false} FilterMembers<T(!new)>(s: seq<T>, p: T -> bool)
    ensures forall x :: x in Filter(s, p) <==> x in s && p(x)
    decreases |s|
  {
    if |s| > 0 {
      FilterMembers(s[1..], p);
      assert forall x :: x in s <==> x == s[0] || x in s[1..];
    }
  }

  /** Each element occurs in the filtered list as often as in `s` if it passes, and not at all otherwise. */
  lemma {:induction false} FilterCount<T(!new)>(s: seq<T>, p: T -> bool, x: T)
    ensures multiset(Filter(s, p))[x] == if p(x) then multiset(s)[x] else 0
    decreases |s|
  {
    if |s| > 0 {
      FilterCount(s[1..], p, x);
      assert s == [s[0]] + s[1..];
    }
  }

  /** Array `map`. */
  function MapSeq<T, U>(s: seq<T>, f: T -> U): (r: seq<U>)
    ensures |r| == |s|
    ensures forall i :: 0 <= i < |s| ==> r[i] == f(s[i])
  {
    seq(|s|, i requires 0 <= i < |s| => f(s[i]))
  }

  /** The distinct elements of `s`, each where it first appears. */
  function Distinct<T(==,!new)>(s: seq<T>): (r: seq<T>)
    ensures forall x :: x in r <==> x in s
    ensures NoDuplicates(r)
    ensures |r| <= |s|
  {
    if |s| == 0 then []
    else
      var d := Distinct(s[..|s| - 1]);
      assert forall x :: x in s <==> x in s[..|s| - 1] || x == s[|s| - 1];
      if s[|s| - 1] in d then d else d + [s[|s| - 1]]
  }

  lemma DistinctSnoc<T(!new)>(s: seq<T>, x: T)
    ensures Distinct(s + [x]) == if x in s then Distinct(s) else Distinct(s) + [x]
  {
    assert (s + [x])[..|s + [x]| - 1] == s;
  }

  lemma {:induction false} FilterIsSubsequence<T(!new)>(s: seq<T>, p: T -> bool)
    ensures IsSubsequence(Filter(s, p), s)
    decreases |s|
  {
    if |s| > 0 {
      FilterIsSubsequence(s[1..], p);
      if !p(s[0]) {
        SubsequenceOfTail(Filter(s[1..], p), s);
      }
    }
  }

  /** A subsequence of `s[1..]` is a subsequence of `s`. */
  lemma {:induction false} SubsequenceOfTail<T>(a: seq<T>, s: seq<T>)
    requires |s| > 0 && IsSubsequence(a, s[1..])
    ensures IsSubsequence(a, s)
    decreases |s|, 1
  {
    if |a| > 0 && a[0] == s[0] {
      SubsequenceDropHead(a, s[1..]);
    }
  }

  /** A subsequence of `s` without its head is still a subsequence of `s`. */
  lemma {:induction false} SubsequenceDropHead<T>(a: seq<T>, s: seq<T>)
    requires |a| > 0 && IsSubsequence(a, s)
    ensures IsSubsequence(a[1..], s)
    decreases |s| + 1, 0
  {
    if |s| > 0 {
      if a[0] == s[0] {
        if |a| > 1 {
          SubsequenceOfTail(a[1..], s);
        }
      } else {
        SubsequenceDropHead(a, s[1..]);
        if |a| > 1 {
          SubsequenceOfTail(a[1..], s);
        }
      }
    }
  }

  lemma {:induction false} FilterAppend<T(!new)>(a: seq<T>, b: seq<T>, p: T -> bool)
    ensures Filter(a + b, p) == Filter(a, p) + Filter(b, p)
    decreases |a|
  {
    if |a| == 0 {
      assert a + b == b;
    } else {
      assert (a + b)[0] == a[0];
      assert (a + b)[1..] == a[1..] + b;
      FilterAppend(a[1..], b, p);
    }
  }

  /** Filtering a prefix gives a prefix of the filtered list. */
  lemma FilterPrefix<T(!new)>(s: seq<T>, n: nat, p: T -> bool)
    requires n <= |s|
    ensures Filter(s[..n], p) <= Filter(s, p)
  {
    assert s == s[..n] + s[n..];
    FilterAppend(s[..n], s[n..], p);
  }

  /** Filtering keeps everything when every element passes. */
  lemma {:induction false} FilterKeepsAll<T(!new)>(s: seq<T>, p: T -> bool)
    requires forall i :: 0 <= i < |s| ==> p(s[i])
    ensures Filter(s, p) == s
    decreases |s|
  {
    if |s| > 0 {
      FilterKeepsAll(s[1..], p);
    }
  }

  /** Filtering drops everything when nothing passes. */
  lemma {:induction false} FilterDropsAll<T(!new)>(s: seq<T>, p: T -> bool)
    requires forall i :: 0 <= i < |s| ==> !p(s[i])
    ensures Filter(s, p) == []
    decreases |s|
  {
    if |s| > 0 {
      FilterDropsAll(s[1..], p);
    }
  }

  /** Filtering by a weaker condition first changes nothing. */
  lemma {:induction false} FilterOfFilter<T(!new)>(s: seq<T>, p: T -> bool, q: T -> bool)
    requires forall x :: p(x) ==> q(x)
    ensures Filter(Filter(s, q), p) == Filter(s, p)
    decreases |s|
  {
    if |s| > 0 {
      FilterOfFilter(s[1..], p, q);
    }
  }

  /** Filtering by a stronger condition keeps a subsequence of what the weaker one keeps. */
  lemma FilterMonotone<T(!new)>(s: seq<T>, p: T -> bool, q: T -> bool)
    requires forall x :: p(x) ==> q(x)
    ensures IsSubsequence(Filter(s, p), Filter(s, q))
  {
    FilterOfFilter(s, p, q);
    FilterIsSubsequence(Filter(s, q), p);
  }

  /** Filtering by two conditions that agree everywhere gives the same list. */
  lemma {:induction false} FilterExt<T(!new)>(s: seq<T>, p: T -> bool, q: T -> bool)
    requires forall x :: p(x) == q(x)
    ensures Filter(s, p) == Filter(s, q)
    decreases |s|
  {
    if |s| > 0 {
      FilterExt(s[1..], p, q);
    }
  }

  /** Every element of a subsequence occurs in the sequence. */
  lemma {:induction false} SubsequenceMembers<T>(a: seq<T>, b: seq<T>)
    requires IsSubsequence(a, b)
    ensures forall x :: x in a ==> x in b
    decreases |b|
  {
    if |a| > 0 {
      if a[0] == b[0] {
        SubsequenceMembers(a[1..], b[1..]);
        assert forall x :: x in a ==> x == a[0] || x in a[1..];
      } else {
        SubsequenceMembers(a, b[1..]);
      }
    }
  }

  /** A subsequence of a sequence without repeats has no repeats. */
  lemma {:induction false} SubsequenceNoDuplicates<T>(a: seq<T>, b: seq<T>)
    requires IsSubsequence(a, b) && NoDuplicates(b)
    ensures NoDuplicates(a)
    decreases |b|
  {
    if |a| > 0 {
      assert NoDuplicates(b[1..]);
      if a[0] == b[0] {
        SubsequenceNoDuplicates(a[1..], b[1..]);
        SubsequenceMembers(a[1..], b[1..]);
        assert b[0] !in b[1..];
        forall i, j | 0 <= i < j < |a| ensures a[i] != a[j] {
          if i > 0 {
            assert a[i] == a[1..][i - 1] && a[j] == a[1..][j - 1];
          } else {
            assert a[j] in a[1..];
          }
        }
      } else {
        SubsequenceNoDuplicates(a, b[1..]);
      }
    }
  }

  /** Mapping keeps a subsequence a subsequence. */
  lemma {:induction false} MapSubsequence<T, U>(a: seq<T>, b: seq<T>, f: T -> U)
    requires IsSubsequence(a, b)
    ensures IsSubsequence(MapSeq(a, f), MapSeq(b, f))
    decreases |b|
  {
    if |a| > 0 {
      assert MapSeq(b, f)[1..] == MapSeq(b[1..], f);
      assert MapSeq(a, f)[1..] == MapSeq(a[1..], f);
      if a[0] == b[0] {
        MapSubsequence(a[1..], b[1..], f);
      } else {
        MapSubsequence(a, b[1..], f);
        SubsequenceOfTail(MapSeq(a, f), MapSeq(b, f));
      }
    }
  }

  /** Filtering twice is filtering once by both conditions. */
  lemma {:induction false} FilterConj<T(!new)>(s: seq<T>, q: T -> bool, p: T -> bool, both: T -> bool)
    requires forall x :: both(x) == (q(x) && p(x))
    ensures Filter(Filter(s, q), p) == Filter(s, both)
    decreases |s|
  {
    if |s| > 0 {
      FilterConj(s[1..], q, p, both);
    }
  }

  /** Filtering by one of two exclusive conditions counts the elements of each. */
  lemma {:induction false} FilterSizeSplit<T(!new)>(s: seq<T>, p: T -> bool, q: T -> bool, r: T -> bool)
    requires forall x :: p(x) == (q(x) || r(x))
    requires forall x :: !(q(x) && r(x))
    ensures |Filter(s, p)| == |Filter(s, q)| + |Filter(s, r)|
    decreases |s|
  {
    if |s| > 0 {
      FilterSizeSplit(s[1..], p, q, r);
    }
  }
}
