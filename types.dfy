/** The finance tracker's entities. Money is held in integer cents; ids,
    names, dates ("YYYY-MM-DD") and months ("YYYY-MM") are strings. */
module Types {

  datatype Option<+T> = None | Some(value: T)

  datatype Result<+T, +E> = Ok(value: T) | Err(error: E)

  type Id = string

  datatype OperationType = Income | Expense | Transfer

  datatype CategoryType = IncomeCategory | ExpenseCategory | SavingsCategory

  datatype Account = Account(id: Id, name: string, balance: int, isActive: bool, createdAt: string)

  datatype Category = Category(id: Id, name: string, kind: CategoryType, createdAt: string)

  /** `categoryId` and `toAccountId` are optional fields of the record. */
  datatype Operation = Operation(
    id: Id,
    kind: OperationType,
    amount: int,
    accountId: Id,
    categoryId: Option<Id>,
    toAccountId: Option<Id>,
    date: string,
    note: Option<string>,
    createdAt: string)

  datatype Budget = Budget(id: Id, categoryId: Id, month: string, limit: int, createdAt: string)

  datatype BudgetProgress = BudgetProgress(budget: Budget, category: Category, spent: int, remaining: int, percentage: real)

  /** An operation as the form hands it to the store, before an id and a
      creation time are attached. */
  datatype OperationDraft = OperationDraft(
    kind: OperationType,
    amount: int,
    accountId: Id,
    categoryId: Option<Id>,
    toAccountId: Option<Id>,
    date: string,
    note: Option<string>)

  datatype BudgetDraft = BudgetDraft(categoryId: Id, month: string, limit: int)

  /** A partial record. `None` means the key is absent; for an optional
      field, `Some(None)` means the key is present with value `undefined`,
      which object spread copies over the stored value. */
  datatype AccountPatch = AccountPatch(name: Option<string>, balance: Option<int>, isActive: Option<bool>)

  datatype CategoryPatch = CategoryPatch(name: Option<string>, kind: Option<CategoryType>)

  datatype BudgetPatch = BudgetPatch(categoryId: Option<Id>, month: Option<string>, limit: Option<int>)

  datatype OperationPatch = OperationPatch(
    kind: Option<OperationType>,
    amount: Option<int>,
    accountId: Option<Id>,
    categoryId: Option<Option<Id>>,
    toAccountId: Option<Option<Id>>,
    date: Option<string>,
    note: Option<Option<string>>)

  function Override<T>(current: T, update: Option<T>): (r: T)
    ensures update.Some? ==> r == update.value
    ensures update.None? ==> r == current
  {
    if update.Some? then update.value else current
  }

  /** `{ ...account, ...updates }` */
  function MergeAccount(a: Account, p: AccountPatch): (r: Account)
    ensures r.id == a.id && r.createdAt == a.createdAt
    ensures p.balance.None? ==> r.balance == a.balance
  {
    a.(name := Override(a.name, p.name), balance := Override(a.balance, p.balance),
       isActive := Override(a.isActive, p.isActive))
  }

  function MergeCategory(c: Category, p: CategoryPatch): (r: Category)
    ensures r.id == c.id && r.createdAt == c.createdAt
  {
    c.(name := Override(c.name, p.name), kind := Override(c.kind, p.kind))
  }

  function MergeBudget(b: Budget, p: BudgetPatch): (r: Budget)
    ensures r.id == b.id && r.createdAt == b.createdAt
  {
    b.(categoryId := Override(b.categoryId, p.categoryId), month := Override(b.month, p.month),
       limit := Override(b.limit, p.limit))
  }

  function MergeOperation(o: Operation, p: OperationPatch): (r: Operation)
    ensures r.id == o.id && r.createdAt == o.createdAt
  {
    o.(kind := Override(o.kind, p.kind), amount := Override(o.amount, p.amount),
       accountId := Override(o.accountId, p.accountId),
       categoryId := Override(o.categoryId, p.categoryId),
       toAccountId := Override(o.toAccountId, p.toAccountId),
       date := Override(o.date, p.date), note := Override(o.note, p.note))
  }

  /** The patch that sends every field of a draft, as an edit through the
      operation form does. */
  function DraftPatch(d: OperationDraft): OperationPatch {
    OperationPatch(Some(d.kind), Some(d.amount), Some(d.accountId), Some(d.categoryId),
                   Some(d.toAccountId), Some(d.date), Some(d.note))
  }

  lemma DraftPatchOverridesAll(o: Operation, d: OperationDraft)
    ensures MergeOperation(o, DraftPatch(d))
         == Operation(o.id, d.kind, d.amount, d.accountId, d.categoryId, d.toAccountId, d.date, d.note, o.createdAt)
  {
  }
}
