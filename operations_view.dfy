/** The operations page: the form that builds an operation record, the
    categories it offers, the list filter, and the sort with its toggle. */
module OperationsView {
  import opened Types
  import opened Text
  import opened Collections
  import opened Budgets

  // ---------------------------------------------------------------------
  // The operation form

  /** The form's fields as strings, except `amount`: the parsed amount in
      cents, `None` when it does not parse. */
  datatype OperationForm = OperationForm(
    kind: OperationType,
    amount: Option<int>,
    accountId: string,
    categoryId: string,
    toAccountId: string,
    date: string,
    note: string)

  datatype FormError = Incomplete | MissingRecipient | MissingCategory

  /** No account, or an amount that is not a positive number. */
  predicate IncompleteForm(f: OperationForm) {
    f.accountId == "" || f.amount.None? || f.amount.value <= 0
  }

  /** `s || undefined` */
  function NonEmpty(s: string): (r: Option<string>)
    ensures r.None? <==> s == ""
    ensures r.Some? ==> r.value == s
  {
    if s == "" then None else Some(s)
  }

  /** The checks of `handleSubmit`, in order, and the record it sends: a
      category only for income and expense, a destination only for a
      transfer, and no empty note. */
  function ValidateOperation(f: OperationForm): (r: Result<OperationDraft, FormError>)
    ensures r == Err(Incomplete) <==> IncompleteForm(f)
    ensures r == Err(MissingRecipient) <==> !IncompleteForm(f) && f.kind == Transfer && f.toAccountId == ""
    ensures r == Err(MissingCategory) <==> !IncompleteForm(f) && f.kind != Transfer && f.categoryId == ""
    ensures r.Ok? ==>
      && r.value.kind == f.kind && r.value.amount == f.amount.value && r.value.amount > 0
      && r.value.accountId == f.accountId && r.value.date == f.date
      && (r.value.categoryId.Some? <==> f.kind != Transfer)
      && (r.value.toAccountId.Some? <==> f.kind == Transfer)
      && (r.value.categoryId.Some? ==> r.value.categoryId.value == f.categoryId)
      && (r.value.toAccountId.Some? ==> r.value.toAccountId.value == f.toAccountId)
      && r.value.note == NonEmpty(f.note)
  {
    if IncompleteForm(f) then Err(Incomplete)
    else if f.kind == Transfer && f.toAccountId == "" then Err(MissingRecipient)
    else if f.kind != Transfer && f.categoryId == "" then Err(MissingCategory)
    else Ok(OperationDraft(
      f.kind,
      f.amount.value,
      f.accountId,
      if f.kind != Transfer then Some(f.categoryId) else None,
      if f.kind == Transfer then Some(f.toAccountId) else None,
      f.date,
      NonEmpty(f.note)))
  }

  /** `handleEdit`: the form filled from a stored operation. */
  function FormOf(o: Operation): OperationForm {
    OperationForm(
      o.kind,
      Some(o.amount),
      o.accountId,
      if o.categoryId.Some? then o.categoryId.value else "",
      if o.toAccountId.Some? then o.toAccountId.value else "",
      o.date,
      if o.note.Some? then o.note.value else "")
  }

  function DraftOf(o: Operation): OperationDraft {
    OperationDraft(o.kind, o.amount, o.accountId, o.categoryId, o.toAccountId, o.date, o.note)
  }

  /** The shape of every record the form can produce. */
  predicate FormShaped(d: OperationDraft) {
    && d.amount > 0 && d.accountId != ""
    && (d.kind == Transfer ==> d.categoryId.None? && d.toAccountId.Some? && d.toAccountId.value != "")
    && (d.kind != Transfer ==> d.categoryId.Some? && d.categoryId.value != "" && d.toAccountId.None?)
    && d.note != Some("")
  }

  /** Every accepted form yields a record of that shape. */
  lemma ValidatedIsShaped(f: OperationForm)
    requires ValidateOperation(f).Ok?
    ensures FormShaped(ValidateOperation(f).value)
  {
  }

  /** Opening a stored record of that shape for editing and submitting the
      form unchanged sends back exactly its fields. */
  lemma EditRoundTrip(o: Operation)
    requires FormShaped(DraftOf(o))
    ensures ValidateOperation(FormOf(o)) == Ok(DraftOf(o))
  {
  }

  /** A transfer made through the form carries no category, so it never
      counts toward any budget, even a savings one. */
  lemma FormTransfersNeverBudgeted(f: OperationForm, id: Id, createdAt: string, b: Budget, c: Category, month: string)
    requires ValidateOperation(f).Ok? && f.kind == Transfer
    ensures var d := ValidateOperation(f).value;
      !CountsToward(Operation(id, d.kind, d.amount, d.accountId, d.categoryId, d.toAccountId, d.date, d.note, createdAt), b, c, month)
  {
  }

  // ---------------------------------------------------------------------
  // Categories offered by the form

  /** The category type that goes with each operation type. */
  function OfferedKind(k: OperationType): CategoryType {
    match k
    case Income => IncomeCategory
    case Expense => ExpenseCategory
    case Transfer => SavingsCategory
  }

  /** `availableCategories` */
  function AvailableCategories(categories: seq<Category>, k: OperationType): (r: seq<Category>)
    ensures forall i :: 0 <= i < |r| ==> r[i] in categories && r[i].kind == OfferedKind(k)
    ensures forall i :: 0 <= i < |categories| && categories[i].kind == OfferedKind(k) ==> categories[i] in r
  {
    FilterMembers(categories, (c: Category) => c.kind == OfferedKind(k));
    Filter(categories, (c: Category) => c.kind == OfferedKind(k))
  }

  /** Every category is offered for exactly one operation type. */
  lemma OfferedForOneType(categories: seq<Category>, i: nat)
    requires i < |categories|
    ensures exists k :: categories[i] in AvailableCategories(categories, k)
    ensures forall k, k' ::
      (categories[i] in AvailableCategories(categories, k) && categories[i] in AvailableCategories(categories, k')) ==> k == k'
  {
    var c := categories[i];
    var k := match c.kind case IncomeCategory => Income case ExpenseCategory => Expense case SavingsCategory => Transfer;
    assert c in AvailableCategories(categories, k);
    forall k1, k2 | c in AvailableCategories(categories, k1) && c in AvailableCategories(categories, k2)
      ensures k1 == k2
    {
      var r1 := AvailableCategories(categories, k1);
      var r2 := AvailableCategories(categories, k2);
      var j1 :| 0 <= j1 < |r1| && r1[j1] == c;
      var j2 :| 0 <= j2 < |r2| && r2[j2] == c;
      assert OfferedKind(k1) == c.kind == OfferedKind(k2);
    }
  }

  // ---------------------------------------------------------------------
  // The list filter

  /** The filter controls. `kind` is `None` for "all types"; the account
      and category controls hold an id or the word "all". */
  datatype Filters = Filters(
    search: string,
    dateFrom: string,
    dateTo: string,
    kind: Option<OperationType>,
    account: string,
    category: string)

  const All := "all"

  const NoFilters := Filters("", "", "", None, All, All)

  function FindAccount(accounts: seq<Account>, id: Id): (r: Option<Account>)
    ensures r.None? <==> !HasKey(accounts, AccountId, id)
    ensures r.Some? ==> r.value in accounts && r.value.id == id
    ensures r.Some? ==> r.value == accounts[IndexOf(accounts, AccountId, id)]
  {
    var i := IndexOf(accounts, AccountId, id);
    if i == -1 then None else Some(accounts[i])
  }

  /** The lower-cased query occurs in the note, in the name of the source
      account, or in the name of the category. */
  predicate MatchesSearch(o: Operation, query: string, accounts: seq<Account>, categories: seq<Category>) {
    var account := FindAccount(accounts, o.accountId);
    var category := if o.categoryId.Some? then FindCategory(categories, o.categoryId.value) else None;
    || (o.note.Some? && Contains(Lower(o.note.value), query))
    || (account.Some? && Contains(Lower(account.value.name), query))
    || (category.Some? && Contains(Lower(category.value.name), query))
  }

  /** The filter predicate: every active control must accept the operation. */
  predicate Passes(o: Operation, f: Filters, accounts: seq<Account>, categories: seq<Category>) {
    && (f.search != "" ==> MatchesSearch(o, Lower(f.search), accounts, categories))
    && (f.dateFrom != "" ==> !Less(o.date, f.dateFrom))
    && (f.dateTo != "" ==> !Less(f.dateTo, o.date))
    && (f.kind.Some? ==> o.kind == f.kind.value)
    && (f.account != All ==> o.accountId == f.account)
    && (f.category != All ==> o.categoryId == Some(f.category))
  }

  function FilterOperations(ops: seq<Operation>, f: Filters, accounts: seq<Account>, categories: seq<Category>): (r: seq<Operation>)
    ensures forall i :: 0 <= i < |r| ==> r[i] in ops && Passes(r[i], f, accounts, categories)
    ensures forall i :: 0 <= i < |ops| && Passes(ops[i], f, accounts, categories) ==> ops[i] in r
  {
    FilterMembers(ops, (o: Operation) => Passes(o, f, accounts, categories));
    Filter(ops, (o: Operation) => Passes(o, f, accounts, categories))
  }

  /** The filtered list keeps the stored order. */
  lemma FilterOperationsAppend(ops: seq<Operation>, o: Operation, f: Filters, accounts: seq<Account>, categories: seq<Category>)
    ensures FilterOperations(ops + [o], f, accounts, categories)
         == FilterOperations(ops, f, accounts, categories) + (if Passes(o, f, accounts, categories) then [o] else [])
  {
    FilterAppend(ops, [o], (o: Operation) => Passes(o, f, accounts, categories));
  }

  /** With every control cleared the list is shown whole. */
  lemma NoFiltersKeepsAll(ops: seq<Operation>, accounts: seq<Account>, categories: seq<Category>)
    ensures FilterOperations(ops, NoFilters, accounts, categories) == ops
  {
    FilterAll(ops, (o: Operation) => Passes(o, NoFilters, accounts, categories));
  }

  /** Both date bounds are inclusive: with only the dates set, an operation
      passes exactly when `dateFrom <= date <= dateTo`. */
  lemma DateWindow(o: Operation, f: Filters, accounts: seq<Account>, categories: seq<Category>)
    requires f.search == "" && f.kind.None? && f.account == All && f.category == All
    requires f.dateFrom != "" && f.dateTo != ""
    ensures Passes(o, f, accounts, categories)
        <==> LexCompare(f.dateFrom, o.date) <= 0 && LexCompare(o.date, f.dateTo) <= 0
  {
    LexCompareFlip(o.date, f.dateFrom);
    LexCompareFlip(f.dateTo, o.date);
  }

  /** The account control matches the source account only: a transfer
      into the chosen account is not shown. */
  lemma AccountFilterSourceOnly(o: Operation, f: Filters, accounts: seq<Account>, categories: seq<Category>)
    requires f.account != All && o.accountId != f.account && o.toAccountId == Some(f.account)
    ensures !Passes(o, f, accounts, categories)
  {
  }

  lemma {:induction false} LowerContains(s: string, q: string)
    requires Contains(s, q)
    ensures Contains(Lower(s), Lower(q))
  {
    var i := ContainsWitness(s, q);
    assert Lower(s)[i..i + |q|] == Lower(q);
    ContainsAt(Lower(s), Lower(q), i);
  }

  /** The search ignores case: text that occurs in the note, written in any
      case, finds the operation. */
  lemma SearchFindsNote(o: Operation, f: Filters, accounts: seq<Account>, categories: seq<Category>)
    requires f.search != "" && o.note.Some?
    requires Contains(Lower(o.note.value), Lower(f.search))
    requires f.dateFrom == "" && f.dateTo == "" && f.kind.None? && f.account == All && f.category == All
    ensures Passes(o, f, accounts, categories)
  {
  }

  /** In particular a note that contains the query as typed matches it. */
  lemma SearchFindsNoteAsTyped(o: Operation, f: Filters, accounts: seq<Account>, categories: seq<Category>)
    requires f.search != "" && o.note.Some? && Contains(o.note.value, f.search)
    requires f.dateFrom == "" && f.dateTo == "" && f.kind.None? && f.account == All && f.category == All
    ensures Passes(o, f, accounts, categories)
  {
    LowerContains(o.note.value, f.search);
  }

  // ---------------------------------------------------------------------
  // Sorting

  datatype SortField = ByDate | ByAmount | ByType

  datatype SortOrder = Asc | Desc

  /** The type as stored: "income", "expense" or "transfer". */
  function TypeName(k: OperationType): string {
    match k
    case Income => "income"
    case Expense => "expense"
    case Transfer => "transfer"
  }

  /** The ascending comparison on one field. */
  function Comparison(a: Operation, b: Operation, field: SortField): int {
    match field
    case ByDate => LexCompare(a.date, b.date)
    case ByAmount => a.amount - b.amount
    case ByType => LexCompare(TypeName(a.kind), TypeName(b.kind))
  }

  /** The comparator handed to `sort`: negative puts `a` first. */
  function Compare(a: Operation, b: Operation, field: SortField, order: SortOrder): int {
    if order == Asc then Comparison(a, b, field) else -Comparison(a, b, field)
  }

  predicate InOrder(a: Operation, b: Operation, field: SortField, order: SortOrder) {
    Compare(a, b, field, order) <= 0
  }

  predicate Sorted(s: seq<Operation>, field: SortField, order: SortOrder) {
    forall k, l :: 0 <= k < l < |s| ==> InOrder(s[k], s[l], field, order)
  }

  /** Swapping the arguments negates the comparison. */
  lemma CompareFlip(a: Operation, b: Operation, field: SortField, order: SortOrder)
    ensures Compare(b, a, field, order) == -Compare(a, b, field, order)
  {
    LexCompareFlip(a.date, b.date);
    LexCompareFlip(TypeName(a.kind), TypeName(b.kind));
  }

  /** Descending order is ascending order with the arguments swapped. */
  lemma DescendingSwapsArguments(a: Operation, b: Operation, field: SortField)
    ensures Compare(a, b, field, Desc) == Compare(b, a, field, Asc)
  {
    CompareFlip(a, b, field, Asc);
  }

  /** Any two operations can be put in order. */
  lemma InOrderTotal(a: Operation, b: Operation, field: SortField, order: SortOrder)
    ensures InOrder(a, b, field, order) || InOrder(b, a, field, order)
  {
    CompareFlip(a, b, field, order);
  }

  lemma InOrderTransitive(a: Operation, b: Operation, c: Operation, field: SortField, order: SortOrder)
    requires InOrder(a, b, field, order) && InOrder(b, c, field, order)
    ensures InOrder(a, c, field, order)
  {
    match field
    case ByAmount =>
    case ByDate =>
      if order == Asc {
        LexCompareTransitive(a.date, b.date, c.date);
      } else {
        LexCompareFlip(a.date, b.date);
        LexCompareFlip(b.date, c.date);
        LexCompareFlip(a.date, c.date);
        LexCompareTransitive(c.date, b.date, a.date);
      }
    case ByType =>
      var x, y, z := TypeName(a.kind), TypeName(b.kind), TypeName(c.kind);
      if order == Asc {
        LexCompareTransitive(x, y, z);
      } else {
        LexCompareFlip(x, y);
        LexCompareFlip(y, z);
        LexCompareFlip(x, z);
        LexCompareTransitive(z, y, x);
      }
  }

  /** A sequence is in descending order exactly when its reverse is in
      ascending order. */
  lemma SortedDescIffReversedAsc(s: seq<Operation>, field: SortField)
    ensures Sorted(s, field, Desc) <==> Sorted(Reversed(s), field, Asc)
  {
    if Sorted(s, field, Desc) {
      DescThenReversedAsc(s, field);
    }
    if Sorted(Reversed(s), field, Asc) {
      ReversedAscThenDesc(s, field);
    }
  }

  lemma DescThenReversedAsc(s: seq<Operation>, field: SortField)
    requires Sorted(s, field, Desc)
    ensures Sorted(Reversed(s), field, Asc)
  {
    var r := Reversed(s);
    var n := |s|;
    forall k, l | 0 <= k < l < n ensures InOrder(r[k], r[l], field, Asc) {
      assert r[k] == s[n - 1 - k] && r[l] == s[n - 1 - l];
      assert InOrder(s[n - 1 - l], s[n - 1 - k], field, Desc);
      DescendingSwapsArguments(s[n - 1 - l], s[n - 1 - k], field);
    }
  }

  lemma ReversedAscThenDesc(s: seq<Operation>, field: SortField)
    requires Sorted(Reversed(s), field, Asc)
    ensures Sorted(s, field, Desc)
  {
    var r := Reversed(s);
    var n := |s|;
    forall k, l | 0 <= k < l < n ensures InOrder(s[k], s[l], field, Desc) {
      assert r[n - 1 - l] == s[l] && r[n - 1 - k] == s[k];
      assert InOrder(r[n - 1 - l], r[n - 1 - k], field, Asc);
      DescendingSwapsArguments(s[k], s[l], field);
    }
  }

  /** Every pair up to position `i` is in order, except the pairs whose
      second element is at position `j`. */
  predicate SortedExcept(s: seq<Operation>, i: int, j: int, field: SortField, order: SortOrder)
    requires i < |s|
  {
    forall k, l :: 0 <= k < l <= i && l != j ==> InOrder(s[k], s[l], field, order)
  }

  lemma StartInsert(s: seq<Operation>, i: int, field: SortField, order: SortOrder)
    requires 0 <= i < |s|
    requires Sorted(s[..i], field, order)
    ensures SortedExcept(s, i, i, field, order)
  {
    forall k, l | 0 <= k < l < i ensures InOrder(s[k], s[l], field, order) {
      assert s[k] == s[..i][k] && s[l] == s[..i][l];
    }
  }

  lemma SwapDown(s: seq<Operation>, i: int, j: int, field: SortField, order: SortOrder)
    requires 0 < j <= i < |s|
    requires SortedExcept(s, i, j, field, order)
    requires !InOrder(s[j - 1], s[j], field, order)
    ensures SortedExcept(s[j - 1 := s[j]][j := s[j - 1]], i, j - 1, field, order)
    ensures multiset(s[j - 1 := s[j]][j := s[j - 1]]) == multiset(s)
  {
    InOrderTotal(s[j - 1], s[j], field, order);
  }

  lemma FinishInsert(s: seq<Operation>, i: int, j: int, field: SortField, order: SortOrder)
    requires 0 <= j <= i < |s|
    requires SortedExcept(s, i, j, field, order)
    requires j == 0 || InOrder(s[j - 1], s[j], field, order)
    ensures Sorted(s[..i + 1], field, order)
  {
    forall k, l | 0 <= k < l <= i ensures InOrder(s[k], s[l], field, order) {
      if l == j && k < j - 1 {
        InOrderTransitive(s[k], s[j - 1], s[j], field, order);
      }
    }
  }

  /** Exchange two neighbouring elements. */
  method SwapAdjacent(a: array<Operation>, j: int)
    requires 0 < j < a.Length
    modifies a
    ensures a[..] == old(a[..])[j - 1 := old(a[j])][j := old(a[j - 1])]
  {
    a[j - 1], a[j] := a[j], a[j - 1];
  }

  /** `filtered.sort(comparator)`: insertion sort in place. */
  method SortOperations(a: array<Operation>, field: SortField, order: SortOrder)
    modifies a
    ensures Sorted(a[..], field, order)
    ensures multiset(a[..]) == multiset(old(a[..]))
  {
    var i := 0;
    while i < a.Length
      invariant 0 <= i <= a.Length
      invariant Sorted(a[..i], field, order)
      invariant multiset(a[..]) == multiset(old(a[..]))
    {
      StartInsert(a[..], i, field, order);
      var j := i;
      while j > 0 && !InOrder(a[j - 1], a[j], field, order)
        invariant 0 <= j <= i
        invariant SortedExcept(a[..], i, j, field, order)
        invariant multiset(a[..]) == multiset(old(a[..]))
      {
        SwapDown(a[..], i, j, field, order);
        SwapAdjacent(a, j);
        j := j - 1;
      }
      FinishInsert(a[..], i, j, field, order);
      i := i + 1;
    }
    assert a[..] == a[..a.Length];
  }

  /** `filteredAndSortedOperations`: the operations that pass the filter,
      rearranged into the chosen order. */
  method FilteredAndSorted(ops: seq<Operation>, f: Filters, accounts: seq<Account>, categories: seq<Category>,
                           field: SortField, order: SortOrder) returns (r: seq<Operation>)
    ensures multiset(r) == multiset(FilterOperations(ops, f, accounts, categories))
    ensures Sorted(r, field, order)
  {
    var filtered := FilterOperations(ops, f, accounts, categories);
    var a := new Operation[|filtered|](i requires 0 <= i < |filtered| => filtered[i]);
    assert a[..] == filtered;
    SortOperations(a, field, order);
    r := a[..];
  }

  // ---------------------------------------------------------------------
  // The sort toggle

  datatype SortState = SortState(field: SortField, order: SortOrder)

  function Flipped(order: SortOrder): SortOrder {
    if order == Asc then Desc else Asc
  }

  /** `toggleSort(field)`: the same field flips the order; another field is
      selected with descending order. */
  function Toggled(s: SortState, field: SortField): (r: SortState)
    ensures r.field == field
    ensures s.field == field ==> r.order != s.order
    ensures s.field != field ==> r.order == Desc
  {
    if s.field == field then SortState(field, Flipped(s.order)) else SortState(field, Desc)
  }

  /** Clicking the same column twice restores the order. */
  lemma ToggleTwice(s: SortState)
    ensures Toggled(Toggled(s, s.field), s.field) == s
  {
  }

  /** Clicking a new column twice sorts it ascending. */
  lemma ToggleNewFieldTwice(s: SortState, field: SortField)
    requires s.field != field
    ensures Toggled(Toggled(s, field), field) == SortState(field, Asc)
  {
  }

  /** The page's sort controls: by date, newest first, to begin with. */
  class SortControl {
    var field: SortField
    var order: SortOrder

    constructor ()
      ensures field == ByDate && order == Desc
    {
      field := ByDate;
      order := Desc;
    }

    method ToggleSort(f: SortField)
      modifies this
      ensures SortState(field, order) == Toggled(SortState(old(field), old(order)), f)
    {
      if field == f {
        order := if order == Asc then Desc else Asc;
      } else {
        field := f;
        order := Desc;
      }
    }
  }
}
