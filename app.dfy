/**
 * The application shell's held state: one `AppState` that every handler
 * replaces with the result of a transition.
 */
module App {
  import opened Types
  import opened VaultView
  import opened ExcelService
  import Ledger

  class Store {
    var state: AppState

    /** A first start: no saved state to load. */
    constructor()
      ensures state == Ledger.InitialState()
    {
      state := Ledger.InitialState();
    }

    method AddTransaction(d: Draft, id: string)
      modifies this
      ensures state == Ledger.AddTransaction(old(state), d, id)
    {
      state := Ledger.AddTransaction(state, d, id);
    }

    method AddVaultTransaction(d: Draft, id: string, mirrorId: string)
      modifies this
      ensures state == Ledger.AddVaultTransaction(old(state), d, id, mirrorId)
    {
      state := Ledger.AddVaultTransaction(state, d, id, mirrorId);
    }

    method DeleteTransaction(id: string)
      modifies this
      ensures state == Ledger.DeleteTransaction(old(state), id)
    {
      state := Ledger.DeleteTransaction(state, id);
    }

    method DeleteVaultTransaction(id: string)
      modifies this
      ensures state == Ledger.DeleteVaultTransaction(old(state), id)
    {
      state := Ledger.DeleteVaultTransaction(state, id);
    }

    method UpdateProfile(p: UserProfile)
      modifies this
      ensures state == Ledger.UpdateProfile(old(state), p)
    {
      state := Ledger.UpdateProfile(state, p);
    }

    method UpdateCategories(c: Categories)
      modifies this
      ensures state == Ledger.UpdateCategories(old(state), c)
    {
      state := Ledger.UpdateCategories(state, c);
    }

    /**
     * `handleImport`: a failed import leaves the state as it was; a
     * successful one is spread over the state as written, so a workbook
     * without a category sheet clears the category lists
     * (`Ledger.MergeWithoutConfigDropsCategories`).
     */
    method ApplyImport(result: Result<Imported, ImportError>)
      modifies this
      ensures result.Ok? ==> state == Ledger.MergeImport(old(state), result.value)
      ensures result.Err? ==> state == old(state)
    {
      if result.Ok? {
        state := Ledger.MergeImport(state, result.value);
      }
    }

    /** The entry form's submit followed by `addTransaction`. */
    method SubmitEntry(kind: TxType, amountText: string, parse: string -> Option<real>,
                       category: string, date: Date, description: string, id: string)
      requires kind == Income || kind == Expense
      modifies this
      ensures var d := Ledger.ModalSubmit(kind, amountText, parse, category, date, description);
        state == if d.Some? then Ledger.AddTransaction(old(state), d.value, id) else old(state)
    {
      var d := Ledger.ModalSubmit(kind, amountText, parse, category, date, description);
      if d.Some? {
        AddTransaction(d.value, id);
      }
    }

    /** The vault form's submit followed by `addVaultTransaction`. */
    method SubmitVault(mode: Option<TxType>, amountText: string, parse: string -> Option<real>,
                       category: string, description: string, now: Date, id: string, mirrorId: string)
      requires mode.Some? ==> mode.value == VaultIn || mode.value == VaultOut
      modifies this
      ensures var d := VaultSubmit(mode, amountText, parse, category, description, now);
        state == if d.Some? then Ledger.AddVaultTransaction(old(state), d.value, id, mirrorId) else old(state)
    {
      var d := VaultSubmit(mode, amountText, parse, category, description, now);
      if d.Some? {
        AddVaultTransaction(d.value, id, mirrorId);
      }
    }
  }
}
