/**
 * The ledger's data model: transactions, category lists, the user profile
 * and the application state that the store holds.
 */
module Types {

  datatype Option<+T> = None | Some(value: T)

  /** A month index as the date library reports it: 0 is January. */
  type Month = m: int | 0 <= m < 12

  /** A day of the month. */
  type Day = d: int | 1 <= d <= 31 witness 1

  /** A calendar date, standing for the ISO timestamp a transaction carries. */
  datatype Date = Date(year: int, month: Month, day: Day)

  predicate IsReservedName(s: string)
  {
    s == "income" || s == "expense" || s == "vault_in" || s == "vault_out"
  }

  /** A stored type tag other than the four the program writes itself. */
  type OtherTag = s: string | !IsReservedName(s)

  /**
   * The type tag of a transaction. The first four are the tags the program
   * writes itself; `Unlisted` is any other tag that a spreadsheet import can
   * bring in, since the import lower-cases the `Type` cell and keeps it
   * unchecked.
   */
  datatype TxType = Income | Expense | VaultIn | VaultOut | Unlisted(tag: OtherTag)

  /** The tag as it is stored in a transaction record. */
  function TypeName(k: TxType): string
  {
    match k
    case Income => "income"
    case Expense => "expense"
    case VaultIn => "vault_in"
    case VaultOut => "vault_out"
    case Unlisted(tag) => tag
  }

  /** Reads a stored tag back: the four reserved names get their own constructor. */
  function ParseType(s: string): (k: TxType)
    ensures TypeName(k) == s
    ensures k.Unlisted? <==> !IsReservedName(s)
  {
    if s == "income" then Income
    else if s == "expense" then Expense
    else if s == "vault_in" then VaultIn
    else if s == "vault_out" then VaultOut
    else Unlisted(s)
  }

  /** Every tag reads back as itself, so distinct tags are stored differently. */
  lemma ParseTypeName(k: TxType)
    ensures ParseType(TypeName(k)) == k
  {
  }

  datatype Transaction = Transaction(
    id: string,
    kind: TxType,
    amount: real,
    category: string,
    date: Date,
    description: string)

  /** What a form hands to the store: a transaction that has no id yet. */
  datatype Draft = Draft(kind: TxType, amount: real, category: string, date: Date, description: string)

  function WithId(d: Draft, id: string): (t: Transaction)
    ensures t.id == id && t.kind == d.kind && t.amount == d.amount
    ensures t.category == d.category && t.date == d.date && t.description == d.description
  {
    Transaction(id, d.kind, d.amount, d.category, d.date, d.description)
  }

  /**
   * The three category lists. `vault` is `None` after an import whose
   * category sheet rebuilt only the income and expense lists.
   */
  datatype Categories = Categories(income: seq<string>, expense: seq<string>, vault: Option<seq<string>>)

  datatype UserProfile = UserProfile(name: string, currency: string, reminderTime: string, notificationsEnabled: bool)

  /**
   * The store's aggregate. `categories` is `None` after an import of a
   * workbook without a category sheet (the merge copies an undefined field).
   */
  datatype AppState = AppState(
    transactions: seq<Transaction>,
    vault: seq<Transaction>,
    categories: Option<Categories>,
    profile: UserProfile)

  datatype Result<T, E> = Ok(value: T) | Err(error: E)
}
