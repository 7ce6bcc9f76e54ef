# FinanceTracker ledger and views, modelled in Dafny

FinanceTracker is a personal finance web application. It keeps accounts,
categories (income, expense, savings), operations (income, expense, transfer)
and monthly budgets in browser storage. This project models the parts of it
that carry logic:

- **Store** (`storage.dfy`, module `Storage`). This is the store service as a
  class over four in-memory sequences.
  - Creating, editing and deleting an operation moves account balances through
    the two balance helpers `updateAccountBalances` and
    `reverseAccountBalances`.
  - Accounts, categories and budgets have plain find-by-id create, update and
    delete.
- **Ledger** (`ledger.dfy`, module `Ledger`). This is the specification the
  balance helpers are proved against:
  - the effect of one operation on every account;
  - that a reversal undoes an application;
  - conservation of the total balance under transfers;
  - the ledger invariant. Every account's balance equals its opening balance
    plus the effects of the operations currently stored. The store's create,
    update and delete of operations preserve it unconditionally.
- **Budgets** (`budgets.dfy`). The budgets page: which categories may carry a
  budget, the month's budget progress (spent, remaining, percentage), and the
  checks of the budget form, including one budget per category and month.
- **Dashboard** (`dashboard.dfy`). The summary page: the active-account total,
  the month's income and expenses, the month's budget progress, and the five
  latest operations.
- **Operations view** (`operations_view.dfy`, module `OperationsView`). The
  operations page:
  - the operation form's checks and the record it builds;
  - the categories it offers for each type;
  - the list filter;
  - the comparator with an in-place sort of the filtered list;
  - the two-field sort toggle.
- **Supporting modules.** `types.dfy` holds the records of
  `figma_design/types/index.ts` and the `{ ...record, ...updates }` merges.
  `collections.dfy` holds `findIndex`, `filter` and `reduce` on sequences. `text.dfy` holds the string order, lower-casing and
  substring search.

Money is integer cents. Fresh ids, creation times and the current month are
parameters.

Two behaviours of the code are worth stating outright:

- **Missing account.** An operation that names a missing account is not
  rejected. The balance helpers skip it silently
  (figma_design/services/storage.ts:229-245):
  - income or expense on a missing account changes nothing;
  - a transfer changes nothing unless both accounts are found;
  - a transfer whose destination is absent or empty changes nothing.

  `Ledger.AfterApply` and `Ledger.AfterReverse` model exactly that.
- **Self-transfer.** `handleSubmit` does not check that a transfer's two
  accounts differ (figma_design/components/OperationsManager.tsx:124-151). The
  form stops one anyway:
  - the destination `<select>` is `required`;
  - it leaves out the account chosen as the source, falling back to the empty
    placeholder option (figma_design/components/OperationsManager.tsx:297-300);
  - the form at figma_design/components/OperationsManager.tsx:237 keeps the
    browser's own validation.

  So only a direct call to the storage API can store a transfer from an account
  to itself. Such a transfer finds the same account twice, and its effect nets
  to zero (`Ledger.Effect`).

## Model

| member | source | states |
|---|---|---|
| Types.MergeAccount | figma_design/services/storage.ts:85 | the merged account keeps its id and creation time; without a balance in the patch the balance is unchanged |
| Types.MergeCategory | figma_design/services/storage.ts:121 | the merged category keeps its id and creation time |
| Types.MergeBudget | figma_design/services/storage.ts:210 | the merged budget keeps its id and creation time |
| Types.MergeOperation | figma_design/services/storage.ts:166 | the merged operation keeps its id and creation time |
| Types.DraftPatchOverridesAll | figma_design/components/OperationsManager.tsx:143-154 | an edit sending every form field replaces every field except id and creation time, clearing `categoryId`/`toAccountId`/`note` when the form sends `undefined` |
| Text.LexCompareFlip | figma_design/components/OperationsManager.tsx:111 | swapping the two strings negates the order used for dates and type names |
| Text.LexCompareTransitive | figma_design/components/OperationsManager.tsx:111 | that order is transitive |
| Text.Lower | figma_design/components/OperationsManager.tsx:78 | lower-casing keeps the length and maps each character |
| Collections.IndexOf | figma_design/services/storage.ts:82 | the first position holding the id, or -1 exactly when no element has it |
| Collections.FindIndex | figma_design/services/storage.ts:82 | the linear search returns that position |
| Collections.WithoutKey | figma_design/services/storage.ts:92-93 | the filtered list keeps exactly the elements with another id, and is as long as the original exactly when no element had the id |
| Collections.WithoutUniqueKey | figma_design/services/storage.ts:183 | with unique ids, filtering an id out removes exactly the element `findIndex` locates |
| Collections.UniqueWithout | figma_design/services/storage.ts:92 | filtering keeps ids unique |
| Collections.FilterMembers | figma_design/components/OperationsManager.tsx:74-104 | a filter keeps exactly the elements that pass its predicate |
| Collections.FilteredTotalPermutation | figma_design/components/BudgetsManager.tsx:50-56 | a filtered sum does not depend on the order of the elements |
| Ledger.Effect | figma_design/services/storage.ts:226-249 | an account the operation does not name is unaffected, and a transfer from an account to itself nets to zero |
| Ledger.AfterApply | figma_design/services/storage.ts:226-249 | the list keeps its length, and each account changes only in its balance, by the operation's effect when the operation resolves |
| Ledger.AfterReverse | figma_design/services/storage.ts:251-274 | the same, with the effect subtracted |
| Ledger.KeepsIds | figma_design/services/storage.ts:226-274 | neither balance helper adds, drops or renames an account |
| Ledger.ShiftOne | figma_design/services/storage.ts:229-238 | moving the one balance `find` locates for income or expense gives the whole-list effect |
| Ledger.ShiftTwo | figma_design/services/storage.ts:239-245 | moving the source and then the destination of a transfer, possibly the same account, gives the whole-list effect |
| Ledger.NotFound | figma_design/services/storage.ts:230-231 | when a look-up fails, neither helper changes any balance |
| Ledger.ReverseUndoesApply | figma_design/services/storage.ts:226-274 | reversing right after applying restores every account, including self-transfers and unresolved operations |
| Ledger.ApplyUndoesReverse | figma_design/services/storage.ts:226-274 | applying right after reversing restores every account |
| Ledger.ApplyIncomeOrExpense | figma_design/services/storage.ts:229-238 | income raises its account by the amount, expense lowers it, no other account changes |
| Ledger.ApplyTransfer | figma_design/services/storage.ts:239-245 | a transfer between two present accounts lowers the source and raises the destination by the amount, no third account changes |
| Ledger.ApplyUnresolved | figma_design/services/storage.ts:239-246 | a missing account, or a transfer without a destination, leaves every balance unchanged |
| Ledger.TotalAfterApply | figma_design/services/storage.ts:226-249 | the total of all balances rises by an income, falls by an expense and is unchanged by a transfer; an unresolved operation changes nothing |
| Ledger.BalancedAfterCreate | figma_design/services/storage.ts:140-154 | append-then-apply keeps every balance equal to opening plus stored effects |
| Ledger.BalancedAfterReplace | figma_design/services/storage.ts:156-173 | reverse-replace-apply keeps the ledger invariant |
| Ledger.BalancedAfterRemove | figma_design/services/storage.ts:175-186 | reverse-then-remove keeps the ledger invariant |
| Ledger.BalancedAfterInsert | figma_design/services/storage.ts:140-173 | applying an operation while placing it anywhere in the list keeps the ledger invariant |
| Ledger.BalancedAfterDelete | figma_design/services/storage.ts:175-186 | reversing the first record with the id and filtering out every record with that id keeps the invariant |
| Ledger.BalancedAfterOpen | figma_design/services/storage.ts:68-78 | a new account under an id no operation names keeps the invariant, with its balance as opening |
| Ledger.BalancedAfterClose | figma_design/services/storage.ts:90-97 | removing an account no operation names keeps the invariant |
| Ledger.BalancedAfterEdit | figma_design/services/storage.ts:80-88 | an account edit that sends no balance keeps the invariant |
| Ledger.ExpenseScenario | figma_design/services/storage.ts:234-238 | 1000.00 less a 150.00 expense is 850.00, and reversing restores 1000.00 |
| Ledger.TransferScenario | figma_design/services/storage.ts:239-245 | a 100.00 transfer from 500.00 to 200.00 leaves 400.00 and 300.00 |
| Storage.Store.MoveAccount | figma_design/services/storage.ts:229-238 | finding the account and moving its balance equals applying (or reversing) the income or expense |
| Storage.Store.MoveBetween | figma_design/services/storage.ts:239-245 | finding both accounts and moving both balances equals applying (or reversing) the transfer |
| Storage.Store.UpdateAccountBalances | figma_design/services/storage.ts:226-249 | the accounts become the applied effect of the operation |
| Storage.Store.ReverseAccountBalances | figma_design/services/storage.ts:251-274 | the accounts become the reversed effect of the operation |
| Storage.Store.CreateOperation | figma_design/services/storage.ts:140-154 | appends exactly one record with the fresh id, applies its effect, keeps ids unique and keeps the ledger invariant |
| Storage.Store.UpdateOperation | figma_design/services/storage.ts:156-173 | unknown id: null and no change; otherwise the record becomes old overridden by the patch, balances are apply(merged) after reverse(old), and the invariant holds |
| Storage.Store.DeleteOperation | figma_design/services/storage.ts:175-186 | unknown id: false and no change; otherwise the record's effect is reversed, exactly the records with that id are removed, and the invariant holds |
| Storage.Store.CreateAccount | figma_design/services/storage.ts:68-78 | appends the new account and records its opening balance |
| Storage.Store.UpdateAccount | figma_design/services/storage.ts:80-88 | null exactly when no account has the id; otherwise only the found account is merged |
| Storage.Store.DeleteAccount | figma_design/services/storage.ts:90-97 | false exactly when no account has the id; the list becomes the accounts with other ids |
| Storage.Store.CreateCategory | figma_design/services/storage.ts:104-114 | appends exactly the new category |
| Storage.Store.UpdateCategory | figma_design/services/storage.ts:116-124 | null exactly when no category has the id; otherwise only the found category is merged |
| Storage.Store.DeleteCategory | figma_design/services/storage.ts:126-133 | false exactly when no category has the id; the list becomes the categories with other ids |
| Storage.Store.CreateBudget | figma_design/services/storage.ts:193-203 | appends exactly the new budget |
| Storage.Store.UpdateBudget | figma_design/services/storage.ts:205-213 | null exactly when no budget has the id; otherwise only the found budget is merged |
| Storage.Store.DeleteBudget | figma_design/services/storage.ts:215-222 | false exactly when no budget has the id; the list becomes the budgets with other ids |
| Budgets.BudgetableCategories | figma_design/components/BudgetsManager.tsx:31-33 | exactly the expense and savings categories are offered |
| Budgets.FindCategory | figma_design/components/BudgetsManager.tsx:39 | none exactly when no category has the id; otherwise the first category with it |
| Budgets.Percentage | figma_design/components/BudgetsManager.tsx:58 | `spent/limit*100` for a positive limit, 0 otherwise |
| Budgets.Progress | figma_design/components/BudgetsManager.tsx:38-67 | an entry for the budget whose remaining is limit minus spent |
| Budgets.MonthBudgets | figma_design/components/BudgetsManager.tsx:36 | exactly the budgets of the month |
| Budgets.BudgetProgressFor | figma_design/components/BudgetsManager.tsx:35-68 | one entry per budget of the month, in stored order, each being that budget's progress |
| Budgets.MonthBudgetsAppend | figma_design/components/BudgetsManager.tsx:36-38 | entries follow the stored order of the budgets |
| Budgets.ProgressUnknownCategory | figma_design/components/BudgetsManager.tsx:39-48 | an unknown category gives the placeholder, spent 0, remaining = limit, 0 percent |
| Budgets.ProgressKnownCategory | figma_design/components/BudgetsManager.tsx:49-66 | a known category (the first with the id, as `find` returns) gives its spent sum, remaining = limit - spent (possibly negative) and the percentage |
| Budgets.CountsToward | figma_design/components/BudgetsManager.tsx:50-54 | no contract of its own: it is the source's filter predicate; `Budgets.IncomeNeverSpent` and `Budgets.SpentIgnoresUnrelated` state its consequences |
| Budgets.Spent | figma_design/components/BudgetsManager.tsx:50-56 | no contract of its own: it is the filtered sum, characterised by the `Spent` lemmas |
| Budgets.NothingCountsNothingSpent | figma_design/components/BudgetsManager.tsx:50-56 | with no operation counting toward the budget, spent is zero |
| Budgets.SpentAppend | figma_design/components/BudgetsManager.tsx:50-56 | a new operation adds its amount to spent exactly when it is in the month, has the budget's category, and is an expense or a transfer to a savings category |
| Budgets.IncomeNeverSpent | figma_design/components/BudgetsManager.tsx:53 | income never counts toward a budget |
| Budgets.SpentIgnoresUnrelated | figma_design/components/BudgetsManager.tsx:50-56 | an operation of another month or category, inserted anywhere, leaves spent unchanged |
| Budgets.SpentPermutation | figma_design/components/BudgetsManager.tsx:50-56 | reordering the operations leaves spent unchanged |
| Budgets.PercentageWithinLimit | figma_design/components/BudgetsManager.tsx:58 | spending within a positive limit shows between 0 and 100 percent |
| Budgets.OverspentScenario | figma_design/components/BudgetsManager.tsx:50-58 | 320.00 spent on a 300.00 limit leaves -20.00 and shows 320/3 percent; income and other months do not count |
| Budgets.ValidateBudget | figma_design/components/BudgetsManager.tsx:73-89 | rejected as incomplete exactly when category or month is empty or the limit is not positive; else as duplicate exactly when another budget has the same category and month |
| Budgets.CreateKeepsPairsUnique | figma_design/components/BudgetsManager.tsx:80-104 | a budget created through the form keeps one budget per category and month |
| Budgets.EditKeepsPairsUnique | figma_design/components/BudgetsManager.tsx:80-97 | an edit accepted by the form keeps one budget per category and month |
| Dashboard.ActiveAccounts | figma_design/components/Dashboard.tsx:14 | exactly the active accounts |
| Dashboard.MonthOperations | figma_design/components/Dashboard.tsx:18 | exactly the operations dated in the month, in both directions |
| Dashboard.ComputeStats | figma_design/components/Dashboard.tsx:13-34 | the account count never exceeds the number of accounts; the values are characterised by the three Stats lemmas |
| Dashboard.StatsAddAccount | figma_design/components/Dashboard.tsx:14-15 | a new account adds its balance to the total and one to the count exactly when it is active |
| Dashboard.StatsAllActive | figma_design/components/Dashboard.tsx:14-32 | with all accounts active the total is the sum of all balances and the count is their number |
| Dashboard.StatsAddOperation | figma_design/components/Dashboard.tsx:17-26 | a new operation raises month income only if it is an income of the month, month expenses only if it is an expense of the month |
| Dashboard.MonthTotal | figma_design/components/Dashboard.tsx:20-26 | no contract of its own: it is the filtered sum, characterised by `Dashboard.MonthTotalNone` and `Dashboard.MonthTotalAppend` |
| Dashboard.MonthTotalNone | figma_design/components/Dashboard.tsx:20-26 | a month without operations of a kind totals zero for that kind |
| Dashboard.MonthTotalAppend | figma_design/components/Dashboard.tsx:20-26 | a month total grows by an operation's amount exactly when it is of that kind and month |
| Dashboard.TransfersNotCounted | figma_design/components/Dashboard.tsx:20-26 | a transfer changes neither monthly total |
| Dashboard.Recent | figma_design/components/Dashboard.tsx:172 | at most five operations: the last ones stored, newest first |
| Dashboard.RecentAfterAppend | figma_design/components/Dashboard.tsx:172 | a new operation heads the recent list, followed by the previous list cut to four |
| Dashboard.ComputeOverview | figma_design/components/Dashboard.tsx:36-70 | the page's budget progress is the budgets page's rule for the month |
| OperationsView.NonEmpty | figma_design/components/OperationsManager.tsx:150 | an empty note becomes absent; any other note is kept |
| OperationsView.ValidateOperation | figma_design/components/OperationsManager.tsx:124-151 | each of the three rejections exactly when its check is the first to fail; the record carries a category exactly for non-transfers and a destination exactly for transfers |
| OperationsView.ValidatedIsShaped | figma_design/components/OperationsManager.tsx:143-151 | every accepted record has a positive amount, an account, the right optional field and no empty note |
| OperationsView.FormOf | figma_design/components/OperationsManager.tsx:176-188 | no contract of its own: `OperationsView.EditRoundTrip` states that validating it gives back the stored fields |
| OperationsView.EditRoundTrip | figma_design/components/OperationsManager.tsx:176-188 | opening a well-shaped record for editing and submitting it unchanged sends back its fields |
| OperationsView.FormTransfersNeverBudgeted | figma_design/components/OperationsManager.tsx:143-151 | a transfer built by the form never counts toward any budget, savings included |
| OperationsView.AvailableCategories | figma_design/components/OperationsManager.tsx:63-72 | exactly the categories of the type's category kind: income, expense, or savings for transfers |
| OperationsView.OfferedForOneType | figma_design/components/OperationsManager.tsx:63-72 | every category is offered for exactly one operation type |
| OperationsView.FindAccount | figma_design/components/OperationsManager.tsx:79 | none exactly when no account has the id; otherwise the first account with it |
| OperationsView.MatchesSearch | figma_design/components/OperationsManager.tsx:77-88 | no contract of its own: it is the search test; `OperationsView.SearchFindsNote` and `OperationsView.SearchFindsNoteAsTyped` state what it finds |
| OperationsView.Passes | figma_design/components/OperationsManager.tsx:75-104 | no contract of its own: it is the filter predicate; `DateWindow`, `AccountFilterSourceOnly` and `NoFiltersKeepsAll` state its consequences |
| OperationsView.FilterOperations | figma_design/components/OperationsManager.tsx:74-104 | exactly the stored operations that pass every active filter |
| OperationsView.FilterOperationsAppend | figma_design/components/OperationsManager.tsx:75 | the filtered list keeps the stored order |
| OperationsView.NoFiltersKeepsAll | figma_design/components/OperationsManager.tsx:74-104 | with every control cleared the whole list is shown |
| OperationsView.DateWindow | figma_design/components/OperationsManager.tsx:91-92 | both date bounds are inclusive |
| OperationsView.AccountFilterSourceOnly | figma_design/components/OperationsManager.tsx:98 | the account filter matches the source account only |
| OperationsView.SearchFindsNote | figma_design/components/OperationsManager.tsx:77-88 | a lower-cased match in the note finds the operation |
| OperationsView.SearchFindsNoteAsTyped | figma_design/components/OperationsManager.tsx:77-88 | the search ignores case: a note containing the query as typed matches |
| OperationsView.Comparison | figma_design/components/OperationsManager.tsx:107-117 | no contract of its own: it is the per-field comparison, characterised by `CompareFlip`, `InOrderTotal` and `InOrderTransitive` |
| OperationsView.Compare | figma_design/components/OperationsManager.tsx:107-119 | no contract of its own: it is the comparator; `DescendingSwapsArguments` states that descending is ascending with the arguments swapped |
| OperationsView.CompareFlip | figma_design/components/OperationsManager.tsx:107-119 | the comparator is antisymmetric on every field and order |
| OperationsView.DescendingSwapsArguments | figma_design/components/OperationsManager.tsx:118 | descending order is the ascending comparison with the arguments swapped |
| OperationsView.InOrderTotal | figma_design/components/OperationsManager.tsx:107-119 | any two operations can be put in order |
| OperationsView.InOrderTransitive | figma_design/components/OperationsManager.tsx:107-119 | the comparator's order is transitive on every field and order |
| OperationsView.SortedDescIffReversedAsc | figma_design/components/OperationsManager.tsx:118 | a list is in descending order exactly when its reverse is in ascending order |
| OperationsView.SortOperations | figma_design/components/OperationsManager.tsx:107-119 | the array ends sorted by the comparator and is a permutation of its old contents |
| OperationsView.FilteredAndSorted | figma_design/components/OperationsManager.tsx:74-122 | the result is a permutation of the filtered list, sorted by the comparator |
| OperationsView.Toggled | figma_design/components/OperationsManager.tsx:197-204 | the same field flips the order; another field is selected with descending order |
| OperationsView.ToggleTwice | figma_design/components/OperationsManager.tsx:197-200 | toggling the current field twice restores the state |
| OperationsView.ToggleNewFieldTwice | figma_design/components/OperationsManager.tsx:197-204 | toggling a new field twice sorts it ascending |
| OperationsView.SortControl.constructor | figma_design/components/OperationsManager.tsx:48-49 | the page starts sorted by date, descending |
| OperationsView.SortControl.ToggleSort | figma_design/components/OperationsManager.tsx:197-204 | the new field and order are the toggled state |

## Left out

- **Browser storage.** This covers `getItems`/`setItems`, JSON encoding, the
  fallback to an empty list on a read error, and the seeding of a default
  account and four default categories (figma_design/services/storage.ts:12-62).
  The store is four in-memory sequences, and its constructor starts empty.
- **Fresh ids and times.** Ids from `Date.now()` and times from `new Date()`
  are method parameters. `Storage.Store.CreateAccount` and `Storage.Store.CreateOperation` require an id
  not already in use.
- **Floating-point money.** `parseFloat`, `Number(x.toFixed(2))` and rounding
  after each balance change are replaced by exact integer cents. Form amounts
  and limits arrive already parsed, with `None` for a value that is not a
  number. Only the budget percentage is a `real`.
- **The current month.** It comes from the clock and is a parameter here.
- **Text handling.** `localeCompare` is modelled as code-point order. This is
  exact for ISO dates and for the lower-case type names it compares.
- Text.Lower: covers only the Latin capitals A-Z and the Russian capitals
  А-Я and Ё, not the full Unicode case mapping of `toLowerCase`.
- OperationsView.SortOperations: does not state that equal operations keep
  their stored order. `Array.prototype.sort` does keep it, but only
  sortedness and permutation are proved.
- **React rendering and UI plumbing.** This covers JSX, hooks, `alert` and
  `confirm`, the Delete-key listener, the form reset that preselects the first
  active account, and the amount and label formatting.
- **Category and account pages.** CategoriesManager.tsx and
  AccountsManager.tsx are not part of this model. One fact from the account
  page is kept as an assumption: its edits send only a name or an active flag,
  never a balance. `Storage.Store.UpdateAccount` preserves the ledger invariant
  under that assumption.
- **Account changes and the ledger invariant.** Creating or deleting an account
  keeps the ledger invariant only when no stored operation names its id. No
  page deletes accounts: figma_design/main.tsx:157-162 gives the account page
  only create and update handlers. Only the storage API
  (figma_design/services/storage.ts:90-97) can delete an account. If it deleted
  one that operations still name, those operations would stop resolving. A later
  reversal of such a transfer would then skip both of its accounts, including
  the surviving one.
- Types.MergeAccount, Types.MergeCategory, Types.MergeBudget,
  Types.MergeOperation: the patch types have no `id` or `createdAt` field. So a
  merge cannot change either one, and `Storage.Store.Valid` keeps unique ids
  across updates. In the source, `update(id, updates: Partial<T>)` accepts both
  fields, and `{ ...x, ...updates }` would overwrite them
  (figma_design/services/storage.ts:85, 121, 166, 210). No caller sends them:
  - figma_design/components/OperationsManager.tsx:143-154
  - figma_design/components/BudgetsManager.tsx:92-96
  - figma_design/components/CategoriesManager.tsx:32
  - src/components/AccountsManager.tsx:26 and 47
- **The Python desktop client.** It is a separate program and is not part of
  this model.
