/**
 * The initial state and the reference data the views use.
 */
module Constants {
  import opened Types
  import opened Seqs

  const InitialCategories: Categories := Categories(
    ["Salary", "Freelance", "Investments", "Gift", "Other"],
    ["Food", "Rent", "Utilities", "Transport", "Entertainment", "Shopping", "Health", "Vault Deduction", "Other"],
    Some(["Emergency Fund", "Savings Goal", "Retirement", "Investment Capital", "Other"]))

  const InitialProfile: UserProfile := UserProfile("Guest User", "$", "22:00", false)

  datatype Currency = Currency(symbol: string, name: string)

  const Currencies: seq<Currency> := [
    Currency("$", "USD"),
    Currency("\U{20AC}", "EUR"),
    Currency("\U{00A3}", "GBP"),
    Currency("\U{09F3}", "BDT"),
    Currency("\U{20B9}", "INR"),
    Currency("\U{00A5}", "JPY")
  ]

  const Months: seq<string> := [
    "January", "February", "March", "April", "May", "June",
    "July", "August", "September", "October", "November", "December"
  ]

  /** Each initial list holds `Other` and no name twice. */
  lemma InitialListsWellFormed()
    ensures InitialCategories.vault.Some?
    ensures "Other" in InitialCategories.income && NoDuplicates(InitialCategories.income)
    ensures "Other" in InitialCategories.expense && NoDuplicates(InitialCategories.expense)
    ensures "Other" in InitialCategories.vault.value && NoDuplicates(InitialCategories.vault.value)
  {
  }

  /** The currency symbols are pairwise distinct and include the default profile's. */
  lemma CurrencySymbolsDistinct()
    ensures forall i, j :: 0 <= i < j < |Currencies| ==> Currencies[i].symbol != Currencies[j].symbol
    ensures exists i :: 0 <= i < |Currencies| && Currencies[i].symbol == InitialProfile.currency
  {
    assert Currencies[0].symbol == InitialProfile.currency;
  }

  lemma MonthsWellFormed()
    ensures |Months| == 12 && NoDuplicates(Months)
  {
  }
}
