/**
 * The category screen: adding a name to the active tab's list and removing
 * a name from it.
 */
module CategoryManager {
  import opened Types
  import opened Seqs
  import opened Text

  /** The tab being edited. */
  datatype Tab = IncomeTab | ExpenseTab

  function ListOf(c: Categories, tab: Tab): seq<string>
  {
    match tab
    case IncomeTab => c.income
    case ExpenseTab => c.expense
  }

  /** `{...categories, [activeTab]: l}`: the other lists are carried over. */
  function WithList(c: Categories, tab: Tab, l: seq<string>): (r: Categories)
    ensures ListOf(r, tab) == l
    ensures forall other :: other != tab ==> ListOf(r, other) == ListOf(c, other)
    ensures r.vault == c.vault
  {
    match tab
    case IncomeTab => c.(income := l)
    case ExpenseTab => c.(expense := l)
  }

  /**
   * `handleAdd`: a blank input is ignored, an input already in the list
   * (compared untrimmed) is ignored, otherwise the trimmed input is appended.
   */
  function HandleAdd(c: Categories, tab: Tab, input: string): (r: Categories)
    ensures ListOf(r, tab) == ListOf(c, tab) || ListOf(r, tab) == ListOf(c, tab) + [Trim(input)]
    ensures forall other :: other != tab ==> ListOf(r, other) == ListOf(c, other)
    ensures r.vault == c.vault
  {
    if Trim(input) == "" then c
    else if input in ListOf(c, tab) then c
    else WithList(c, tab, ListOf(c, tab) + [Trim(input)])
  }

  /** The three outcomes of an add. */
  lemma HandleAddCases(c: Categories, tab: Tab, input: string)
    ensures AllSpace(input) ==> HandleAdd(c, tab, input) == c
    ensures input in ListOf(c, tab) ==> HandleAdd(c, tab, input) == c
    ensures !AllSpace(input) && input !in ListOf(c, tab) ==>
      && ListOf(HandleAdd(c, tab, input), tab) == ListOf(c, tab) + [Trim(input)]
      && (forall other :: other != tab ==> ListOf(HandleAdd(c, tab, input), other) == ListOf(c, other))
      && HandleAdd(c, tab, input).vault == c.vault
  {
    TrimEmpty(input);
    if input in ListOf(c, tab) && AllSpace(input) {
      assert HandleAdd(c, tab, input) == c;
    }
  }

  /** Adding a name without surrounding white space twice is adding it once. */
  lemma HandleAddIdempotent(c: Categories, tab: Tab, name: string)
    requires Trim(name) == name
    ensures HandleAdd(HandleAdd(c, tab, name), tab, name) == HandleAdd(c, tab, name)
  {
  }

  /** A padded copy of a present name is appended, so the list holds it twice. */
  lemma PaddedNameDuplicates(c: Categories, tab: Tab)
    requires "Food" in ListOf(c, tab) && " Food" !in ListOf(c, tab)
    ensures !NoDuplicates(ListOf(HandleAdd(c, tab, " Food"), tab))
  {
    var l := ListOf(c, tab);
    var i :| 0 <= i < |l| && l[i] == "Food";
    TrimPaddedFood();
    assert HandleAdd(c, tab, " Food") == WithList(c, tab, l + ["Food"]);
    RepeatedEntry(l + ["Food"], i, |l|);
  }

  lemma TrimPaddedFood()
    ensures Trim(" Food") == "Food"
  {
    var food := "Food";
    assert " Food"[1..] == food;
    assert !IsJsSpace(food[0]) && !IsJsSpace(food[3]);
    assert TrimStart(food) == food;
    assert TrimStart(" Food") == food;
    assert TrimEnd(food) == food;
  }

  /** The add the duplicate check evidently means: compare the trimmed name. */
  function HandleAddCorrected(c: Categories, tab: Tab, input: string): (r: Categories)
    ensures Trim(input) == "" || Trim(input) in ListOf(c, tab) ==> r == c
    ensures Trim(input) != "" && Trim(input) !in ListOf(c, tab) ==> ListOf(r, tab) == ListOf(c, tab) + [Trim(input)]
    ensures Trim(input) != "" ==> Trim(input) in ListOf(r, tab)
    ensures forall other :: other != tab ==> ListOf(r, other) == ListOf(c, other)
    ensures r.vault == c.vault
  {
    var name := Trim(input);
    if name == "" then c
    else if name in ListOf(c, tab) then c
    else WithList(c, tab, ListOf(c, tab) + [name])
  }

  /** The corrected add keeps a list without repeats free of repeats, and is idempotent. */
  lemma HandleAddCorrectedNoDuplicates(c: Categories, tab: Tab, input: string)
    requires NoDuplicates(ListOf(c, tab))
    ensures NoDuplicates(ListOf(HandleAddCorrected(c, tab, input), tab))
    ensures HandleAddCorrected(HandleAddCorrected(c, tab, input), tab, input) == HandleAddCorrected(c, tab, input)
  {
    var name := Trim(input);
    var l := ListOf(c, tab);
    if name != "" && name !in l {
      var r := l + [name];
      forall i, j | 0 <= i < j < |r| ensures r[i] != r[j] {
        if j == |l| {
          assert r[i] == l[i];
        }
      }
    }
  }

  function OtherThan(name: string): string -> bool
  {
    (x: string) => x != name
  }

  /**
   * `handleDelete`: every copy of `name` is removed from the active list;
   * the other lists are carried over.
   */
  function HandleDelete(c: Categories, tab: Tab, name: string): (r: Categories)
    ensures |ListOf(r, tab)| <= |ListOf(c, tab)|
    ensures forall other :: other != tab ==> ListOf(r, other) == ListOf(c, other)
    ensures r.vault == c.vault
  {
    WithList(c, tab, Filter(ListOf(c, tab), OtherThan(name)))
  }

  /**
   * Delete keeps exactly the other names, each as often as before, in their
   * order, and protects no name.
   */
  lemma HandleDeleteSpec(c: Categories, tab: Tab, name: string)
    ensures forall x :: x in ListOf(HandleDelete(c, tab, name), tab) <==> x in ListOf(c, tab) && x != name
    ensures forall x ::
      multiset(ListOf(HandleDelete(c, tab, name), tab))[x] == if x != name then multiset(ListOf(c, tab))[x] else 0
    ensures IsSubsequence(ListOf(HandleDelete(c, tab, name), tab), ListOf(c, tab))
  {
    forall x ensures multiset(ListOf(HandleDelete(c, tab, name), tab))[x] ==
      if x != name then multiset(ListOf(c, tab))[x] else 0
    {
      FilterCount(ListOf(c, tab), OtherThan(name), x);
    }
    FilterMembers(ListOf(c, tab), OtherThan(name));
    FilterIsSubsequence(ListOf(c, tab), OtherThan(name));
  }

  /** Deleting twice is deleting once; deleting an absent name changes nothing. */
  lemma HandleDeleteIdempotent(c: Categories, tab: Tab, name: string)
    ensures HandleDelete(HandleDelete(c, tab, name), tab, name) == HandleDelete(c, tab, name)
    ensures name !in ListOf(c, tab) ==> HandleDelete(c, tab, name) == c
  {
    var p := OtherThan(name);
    FilterOfFilter(ListOf(c, tab), p, p);
    if name !in ListOf(c, tab) {
      FilterKeepsAll(ListOf(c, tab), p);
    }
  }

  /** Deleting a freshly added name undoes the add. */
  lemma DeleteUndoesAdd(c: Categories, tab: Tab, name: string)
    requires Trim(name) == name
    ensures HandleDelete(HandleAdd(c, tab, name), tab, name) == HandleDelete(c, tab, name)
  {
    var p := OtherThan(name);
    FilterAppend(ListOf(c, tab), [name], p);
    assert Filter([name], p) == [];
  }
}
