/**
 * The state transitions of the application shell: adding and deleting
 * entries of the main and vault lists, the withdrawal mirror, replacing the
 * profile or the category lists, merging an import, and the entry form's
 * submit guard.
 */
module Ledger {
  import opened Types
  import opened Seqs
  import opened Totals
  import opened Constants
  import opened VaultView
  import opened ExcelService

  /** The expense category a vault withdrawal is booked under. */
  const VaultDeduction: string := "Vault Deduction"

  const WithdrawalPrefix: string := "Withdrawal from Vault: "

  /** The state of a first start: empty lists, the initial categories and profile. */
  function InitialState(): (s: AppState)
    ensures s.transactions == [] && s.vault == []
    ensures s.categories == Some(InitialCategories) && s.profile == InitialProfile
  {
    AppState([], [], Some(InitialCategories), InitialProfile)
  }

  /** The initial expense list offers the category the withdrawal mirror uses. */
  lemma InitialOffersVaultDeduction()
    ensures VaultDeduction in InitialState().categories.value.expense
  {
    assert InitialCategories.expense[7] == VaultDeduction;
  }

  /** `addTransaction`: the new entry goes first in the main list. */
  function AddTransaction(s: AppState, d: Draft, id: string): (r: AppState)
    ensures r.transactions == [WithId(d, id)] + s.transactions
    ensures r.vault == s.vault && r.categories == s.categories && r.profile == s.profile
  {
    s.(transactions := [WithId(d, id)] + s.transactions)
  }

  /** The expense entry a withdrawal adds to the main list. */
  function Mirror(d: Draft, mirrorId: string): (t: Transaction)
    ensures t.kind == Expense && t.amount == d.amount && t.category == VaultDeduction && t.date == d.date
    ensures |t.description| >= |WithdrawalPrefix| && t.description[..|WithdrawalPrefix|] == WithdrawalPrefix
    ensures t.description[|WithdrawalPrefix|..] == if d.description != "" then d.description else d.category
  {
    Transaction(mirrorId, Expense, d.amount, VaultDeduction, d.date,
                WithdrawalPrefix + (if d.description != "" then d.description else d.category))
  }

  /**
   * `addVaultTransaction`: the new entry goes first in the vault list; a
   * `vault_out` also puts its mirror first in the main list.
   */
  function AddVaultTransaction(s: AppState, d: Draft, id: string, mirrorId: string): (r: AppState)
    ensures r.vault == [WithId(d, id)] + s.vault
    ensures r.transactions == if d.kind == VaultOut then [Mirror(d, mirrorId)] + s.transactions else s.transactions
    ensures r.categories == s.categories && r.profile == s.profile
  {
    s.(vault := [WithId(d, id)] + s.vault,
       transactions := if d.kind == VaultOut then [Mirror(d, mirrorId)] + s.transactions else s.transactions)
  }

  function HasOtherId(id: string): Transaction -> bool
  {
    (t: Transaction) => t.id != id
  }

  /** `deleteTransaction`: only the main list loses the entries with that id. */
  function DeleteTransaction(s: AppState, id: string): (r: AppState)
    ensures r.vault == s.vault && r.categories == s.categories && r.profile == s.profile
  {
    s.(transactions := Filter(s.transactions, HasOtherId(id)))
  }

  /** `deleteVaultTransaction`: only the vault list loses the entries with that id. */
  function DeleteVaultTransaction(s: AppState, id: string): (r: AppState)
    ensures r.transactions == s.transactions && r.categories == s.categories && r.profile == s.profile
  {
    s.(vault := Filter(s.vault, HasOtherId(id)))
  }

  function UpdateProfile(s: AppState, p: UserProfile): (r: AppState)
    ensures r.profile == p
    ensures r.transactions == s.transactions && r.vault == s.vault && r.categories == s.categories
  {
    s.(profile := p)
  }

  function UpdateCategories(s: AppState, c: Categories): (r: AppState)
    ensures r.categories == Some(c)
    ensures r.transactions == s.transactions && r.vault == s.vault && r.profile == s.profile
  {
    s.(categories := Some(c))
  }

  /**
   * `{...prev, ...imported}`: both fields of the import result are copied,
   * `categories` even when it is undefined.
   */
  function MergeImport(s: AppState, imp: Imported): (r: AppState)
    ensures r.transactions == imp.transactions && r.categories == imp.categories
    ensures r.vault == s.vault && r.profile == s.profile
  {
    s.(transactions := imp.transactions, categories := imp.categories)
  }

  predicate IdAbsent(xs: seq<Transaction>, id: string)
  {
    forall i :: 0 <= i < |xs| ==> xs[i].id != id
  }

  /**
   * Delete keeps exactly the main entries with another id, each as often as
   * before, in their order, and deleting twice is deleting once.
   */
  lemma DeleteTransactionSpec(s: AppState, id: string)
    ensures forall t :: t in DeleteTransaction(s, id).transactions <==> t in s.transactions && t.id != id
    ensures forall t ::
      multiset(DeleteTransaction(s, id).transactions)[t] == if t.id != id then multiset(s.transactions)[t] else 0
    ensures IsSubsequence(DeleteTransaction(s, id).transactions, s.transactions)
    ensures DeleteTransaction(DeleteTransaction(s, id), id) == DeleteTransaction(s, id)
  {
    forall t ensures multiset(DeleteTransaction(s, id).transactions)[t] ==
      if t.id != id then multiset(s.transactions)[t] else 0
    {
      FilterCount(s.transactions, HasOtherId(id), t);
    }
    FilterMembers(s.transactions, HasOtherId(id));
    FilterIsSubsequence(s.transactions, HasOtherId(id));
    FilterOfFilter(s.transactions, HasOtherId(id), HasOtherId(id));
  }

  /** The same for the vault list. */
  lemma DeleteVaultTransactionSpec(s: AppState, id: string)
    ensures forall t :: t in DeleteVaultTransaction(s, id).vault <==> t in s.vault && t.id != id
    ensures forall t ::
      multiset(DeleteVaultTransaction(s, id).vault)[t] == if t.id != id then multiset(s.vault)[t] else 0
    ensures IsSubsequence(DeleteVaultTransaction(s, id).vault, s.vault)
    ensures DeleteVaultTransaction(DeleteVaultTransaction(s, id), id) == DeleteVaultTransaction(s, id)
  {
    forall t ensures multiset(DeleteVaultTransaction(s, id).vault)[t] ==
      if t.id != id then multiset(s.vault)[t] else 0
    {
      FilterCount(s.vault, HasOtherId(id), t);
    }
    FilterMembers(s.vault, HasOtherId(id));
    FilterIsSubsequence(s.vault, HasOtherId(id));
    FilterOfFilter(s.vault, HasOtherId(id), HasOtherId(id));
  }

  /** Deleting an entry added under a fresh id restores the state. */
  lemma DeleteUndoesAdd(s: AppState, d: Draft, id: string)
    requires IdAbsent(s.transactions, id)
    ensures DeleteTransaction(AddTransaction(s, d, id), id) == s
  {
    FilterKeepsAll(s.transactions, HasOtherId(id));
  }

  /**
   * Deleting a withdrawal from the vault list under a fresh id restores the
   * vault list but leaves its mirror in the main list.
   */
  lemma DeleteVaultKeepsMirror(s: AppState, d: Draft, id: string, mirrorId: string)
    requires d.kind == VaultOut && IdAbsent(s.vault, id)
    ensures DeleteVaultTransaction(AddVaultTransaction(s, d, id, mirrorId), id)
      == s.(transactions := [Mirror(d, mirrorId)] + s.transactions)
  {
    FilterKeepsAll(s.vault, HasOtherId(id));
  }

  /**
   * A withdrawal of `a` raises the dashboard expense by `a`, leaves its
   * income alone and lowers the vault balance by `a`.
   */
  lemma WithdrawalEffects(s: AppState, d: Draft, id: string, mirrorId: string)
    requires d.kind == VaultOut
    ensures var r := AddVaultTransaction(s, d, id, mirrorId);
      && KindTotal(r.transactions, Income) == KindTotal(s.transactions, Income)
      && Total(Filter(r.transactions, NotKind(Income))) == Total(Filter(s.transactions, NotKind(Income))) + d.amount
      && VaultBalance(r.vault) == VaultBalance(s.vault) - d.amount
  {
    var m := Mirror(d, mirrorId);
    FilteredTotalCons(m, s.transactions, OfKind(Income));
    FilteredTotalCons(m, s.transactions, NotKind(Income));
    PrependMovesBalance(WithId(d, id), s.vault);
  }

  /** A deposit raises the vault balance by its amount and leaves the main list alone. */
  lemma DepositEffects(s: AppState, d: Draft, id: string, mirrorId: string)
    requires d.kind == VaultIn
    ensures var r := AddVaultTransaction(s, d, id, mirrorId);
      r.transactions == s.transactions && VaultBalance(r.vault) == VaultBalance(s.vault) + d.amount
  {
    PrependMovesBalance(WithId(d, id), s.vault);
  }

  /** Importing a workbook without a category sheet leaves the state with no category lists. */
  lemma MergeWithoutConfigDropsCategories(s: AppState, imp: Imported)
    requires imp.categories.None?
    ensures MergeImport(s, imp).categories.None?
    ensures ExportToExcel(MergeImport(s, imp), None, "").Err?
  {
  }

  /**
   * A concrete case: re-importing any filtered report that reads back erases
   * the category lists; one whose dates all read back always reads back.
   */
  lemma ReportReimportDropsCategories(s: AppState, filtered: seq<Transaction>, freshId: nat -> string, now: Date)
    ensures var r := ImportFromExcel(ReadBook(ExportToExcel(s, Some(filtered), "").value), freshId, now);
      r.Ok? ==> MergeImport(s, r.value).categories.None?
    ensures (forall t :: t in filtered ==> Restorable(t)) ==>
      ImportFromExcel(ReadBook(ExportToExcel(s, Some(filtered), "").value), freshId, now).Ok?
  {
    if forall t :: t in filtered ==> Restorable(t) {
      var rows := MapSeq(ExportRows(filtered), ReadBack);
      forall i | 0 <= i < |rows| ensures !rows[i].date.BadDate? {
      }
    }
  }

  /**
   * The merge the import evidently means: lists the workbook does not carry
   * are kept from the current state.
   */
  function MergeImportCorrected(s: AppState, imp: Imported): (r: AppState)
    ensures r.transactions == imp.transactions && r.vault == s.vault && r.profile == s.profile
    ensures imp.categories.None? ==> r.categories == s.categories
    ensures imp.categories.Some? ==>
      && r.categories.Some?
      && r.categories.value.income == imp.categories.value.income
      && r.categories.value.expense == imp.categories.value.expense
      && r.categories.value.vault ==
           if imp.categories.value.vault.None? && s.categories.Some? then s.categories.value.vault
           else imp.categories.value.vault
  {
    var categories :=
      match imp.categories
      case None => s.categories
      case Some(c) =>
        Some(if c.vault.None? && s.categories.Some? then c.(vault := s.categories.value.vault) else c);
    s.(transactions := imp.transactions, categories := categories)
  }

  /**
   * The corrected merge never loses the category lists or the vault list,
   * and takes the income and expense lists from the workbook when it has them.
   */
  lemma MergeImportCorrectedKeepsLists(s: AppState, imp: Imported)
    ensures s.categories.Some? ==> MergeImportCorrected(s, imp).categories.Some?
    ensures s.categories.Some? && s.categories.value.vault.Some? ==>
      MergeImportCorrected(s, imp).categories.value.vault.Some?
    ensures imp.categories.Some? && imp.categories.value.vault.None? && s.categories.Some? ==>
      MergeImportCorrected(s, imp).categories.value.vault == s.categories.value.vault
    ensures imp.categories.Some? ==>
      && MergeImportCorrected(s, imp).categories.value.income == imp.categories.value.income
      && MergeImportCorrected(s, imp).categories.value.expense == imp.categories.value.expense
    ensures imp.categories.None? ==> MergeImportCorrected(s, imp).categories == s.categories
    ensures s.categories.Some? ==> ExportToExcel(MergeImportCorrected(s, imp), None, "").Ok?
  {
  }

  /**
   * `TransactionModal.handleSubmit`: nothing is submitted for an empty or
   * non-numeric amount; otherwise the form's fields become the draft.
   */
  function ModalSubmit(kind: TxType, amountText: string, parse: string -> Option<real>,
                       category: string, date: Date, description: string): (r: Option<Draft>)
    requires kind == Income || kind == Expense
    ensures r.None? <==> amountText == "" || parse(amountText).None?
    ensures r.Some? ==> r.value == Draft(kind, parse(amountText).value, category, date, description)
  {
    if amountText == "" || parse(amountText).None? then None
    else Some(Draft(kind, parse(amountText).value, category, date, description))
  }
}
