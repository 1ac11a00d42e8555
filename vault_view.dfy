/**
 * The vault screen: the balance fold over the vault list and the record its
 * deposit/withdraw form hands to the store.
 */
module VaultView {
  import opened Types
  import opened Seqs
  import opened Totals

  /** What one vault entry adds to the running balance. */
  function Delta(t: Transaction): real
  {
    if t.kind == VaultIn then t.amount else -t.amount
  }

  /** The sum of the deltas, independent of a start value. */
  function Net(xs: seq<Transaction>): real
  {
    if |xs| == 0 then 0.0 else Delta(xs[0]) + Net(xs[1..])
  }

  /**
   * `reduce((acc, t) => t.type === 'vault_in' ? acc + t.amount : acc - t.amount, acc)`:
   * the start value plus the deltas.
   */
  function Fold(acc: real, xs: seq<Transaction>): (r: real)
    ensures r == acc + Net(xs)
    decreases |xs|
  {
    if |xs| == 0 then acc else Fold(acc + Delta(xs[0]), xs[1..])
  }

  /** The balance shown: the fold from 0, so the sum of the deltas. */
  function VaultBalance(xs: seq<Transaction>): (r: real)
    ensures r == Net(xs)
  {
    Fold(0.0, xs)
  }

  /** The deltas are the deposits minus every other entry. */
  lemma {:induction false} NetSplit(xs: seq<Transaction>)
    ensures Net(xs) == KindTotal(xs, VaultIn) - Total(Filter(xs, NotKind(VaultIn)))
    decreases |xs|
  {
    if |xs| > 0 {
      var x, rest := xs[0], xs[1..];
      NetSplit(rest);
      assert xs == [x] + rest;
      FilteredTotalCons(x, rest, OfKind(VaultIn));
      FilteredTotalCons(x, rest, NotKind(VaultIn));
    }
  }

  /**
   * The balance is the sum of `vault_in` amounts minus the sum of all other
   * entries' amounts; an empty vault holds 0.
   */
  lemma VaultBalanceSplit(xs: seq<Transaction>)
    ensures VaultBalance(xs) == KindTotal(xs, VaultIn) - Total(Filter(xs, NotKind(VaultIn)))
    ensures xs == [] ==> VaultBalance(xs) == 0.0
  {
    NetSplit(xs);
  }

  /** A new entry at the front of the vault list moves the balance by its amount. */
  lemma PrependMovesBalance(t: Transaction, xs: seq<Transaction>)
    ensures t.kind == VaultIn ==> VaultBalance([t] + xs) == VaultBalance(xs) + t.amount
    ensures t.kind == VaultOut ==> VaultBalance([t] + xs) == VaultBalance(xs) - t.amount
  {
    VaultBalanceSplit([t] + xs);
    VaultBalanceSplit(xs);
    FilteredTotalCons(t, xs, OfKind(VaultIn));
    FilteredTotalCons(t, xs, NotKind(VaultIn));
  }

  /** The balance does not depend on the order of the entries. */
  lemma VaultBalanceOrderFree(a: seq<Transaction>, b: seq<Transaction>)
    requires multiset(a) == multiset(b)
    ensures VaultBalance(a) == VaultBalance(b)
  {
    VaultBalanceSplit(a);
    VaultBalanceSplit(b);
    FilteredTotalPermutation(a, b, OfKind(VaultIn));
    FilteredTotalPermutation(a, b, NotKind(VaultIn));
  }

  /** Nothing checks a withdrawal against the balance, so the balance can go negative. */
  lemma WithdrawalCanOverdraw(t: Transaction, xs: seq<Transaction>)
    requires t.kind == VaultOut && t.amount > VaultBalance(xs)
    ensures VaultBalance([t] + xs) < 0.0
  {
    PrependMovesBalance(t, xs);
  }

  /**
   * The vault form's submit. `amountText` is the amount field, `parse` stands
   * for `Number(...)` (`None` where it yields NaN), `mode` is the selected
   * button (`None` when no form is open), `now` the submit time.
   */
  function VaultSubmit(mode: Option<TxType>, amountText: string, parse: string -> Option<real>,
                       category: string, description: string, now: Date): (r: Option<Draft>)
    requires mode.Some? ==> mode.value == VaultIn || mode.value == VaultOut
    ensures r.None? <==> amountText == "" || parse(amountText).None? || mode.None?
    ensures r.Some? ==> r.value == Draft(mode.value, parse(amountText).value, category, now, description)
  {
    if amountText == "" || parse(amountText).None? || mode.None? then None
    else Some(Draft(mode.value, parse(amountText).value, category, now, description))
  }
}
