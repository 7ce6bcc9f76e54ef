/** The store behind the application: four collections kept in memory and
    the CRUD operations on them. Creating, editing and deleting an operation
    also moves account balances through the two balance helpers. Fresh ids
    and creation times are supplied by the caller. */
module Storage {
  import opened Types
  import opened Collections
  import opened Ledger

  class Store {
    var accounts: seq<Account>
    var categories: seq<Category>
    var operations: seq<Operation>
    var budgets: seq<Budget>
    /** Each account's balance as it was created. */
    ghost var opening: map<Id, int>

    /** Ids are unique among accounts and among operations, and every
        account has an opening balance on record. */
    ghost predicate Valid()
      reads this
    {
      && Unique(accounts, AccountId)
      && Unique(operations, OperationId)
      && AccountIds(accounts) <= opening.Keys
    }

    /** The ledger invariant over the store's current state. */
    ghost predicate Consistent()
      reads this
    {
      Balanced(accounts, opening, operations)
    }

    /** No stored operation names account `id`. */
    ghost predicate Unreferenced(id: Id)
      reads this
    {
      forall k :: 0 <= k < |operations| ==> !Mentions(operations[k], id)
    }

    constructor ()
      ensures Valid() && Consistent()
      ensures accounts == [] && categories == [] && operations == [] && budgets == []
    {
      accounts, categories, operations, budgets := [], [], [], [];
      opening := map[];
    }

    // -------------------------------------------------------------------
    // Balance helpers

    /** Find the income or expense operation's account and move its
        balance by `delta`; when it is missing, change nothing. */
    method MoveAccount(o: Operation, ghost forward: bool, delta: int)
      requires Unique(accounts, AccountId)
      requires o.kind == Income || o.kind == Expense
      requires delta == Directed(forward, Effect(o, o.accountId))
      modifies this`accounts
      ensures forward ==> accounts == AfterApply(old(accounts), o)
      ensures !forward ==> accounts == AfterReverse(old(accounts), o)
    {
      var i := FindIndex(accounts, AccountId, o.accountId);
      if i != -1 {
        ShiftOne(accounts, o, forward, i, delta);
        accounts := Moved(accounts, i, delta);
      } else {
        NotFound(accounts, o);
      }
    }

    /** Find both accounts of a transfer that names a destination; when
        both are present, move the source by `debit`, then the destination
        by `credit`; otherwise change nothing. */
    method MoveBetween(o: Operation, ghost forward: bool, debit: int, credit: int)
      requires Unique(accounts, AccountId)
      requires o.kind == Transfer && HasDestination(o)
      requires credit == Directed(forward, o.amount) && debit == -credit
      modifies this`accounts
      ensures forward ==> accounts == AfterApply(old(accounts), o)
      ensures !forward ==> accounts == AfterReverse(old(accounts), o)
    {
      var from := FindIndex(accounts, AccountId, o.accountId);
      var to := FindIndex(accounts, AccountId, o.toAccountId.value);
      if from != -1 && to != -1 {
        ShiftTwo(accounts, o, forward, from, to, debit, credit);
        accounts := Moved(accounts, from, debit);
        accounts := Moved(accounts, to, credit);
      } else {
        NotFound(accounts, o);
      }
    }

    /** `updateAccountBalances`: income raises its account, expense lowers
        it, a transfer moves the amount from its source to its
        destination. */
    method UpdateAccountBalances(o: Operation)
      requires Unique(accounts, AccountId)
      modifies this`accounts
      ensures accounts == AfterApply(old(accounts), o)
    {
      if o.kind == Income {
        MoveAccount(o, true, o.amount);
      } else if o.kind == Expense {
        MoveAccount(o, true, -o.amount);
      } else if HasDestination(o) {
        MoveBetween(o, true, -o.amount, o.amount);
      } else {
        NotFound(accounts, o);
      }
    }

    /** `reverseAccountBalances`: the same look-ups, opposite signs. */
    method ReverseAccountBalances(o: Operation)
      requires Unique(accounts, AccountId)
      modifies this`accounts
      ensures accounts == AfterReverse(old(accounts), o)
    {
      if o.kind == Income {
        MoveAccount(o, false, -o.amount);
      } else if o.kind == Expense {
        MoveAccount(o, false, o.amount);
      } else if HasDestination(o) {
        MoveBetween(o, false, o.amount, -o.amount);
      } else {
        NotFound(accounts, o);
      }
    }

    // -------------------------------------------------------------------
    // Operations

    /** `operationsAPI.create`: append the record, then apply its effect. */
    method CreateOperation(d: OperationDraft, id: Id, createdAt: string) returns (r: Operation)
      requires Valid()
      requires !HasKey(operations, OperationId, id)
      modifies this`operations, this`accounts
      ensures Valid()
      ensures r == Operation(id, d.kind, d.amount, d.accountId, d.categoryId, d.toAccountId, d.date, d.note, createdAt)
      ensures operations == old(operations) + [r]
      ensures accounts == AfterApply(old(accounts), r)
      ensures old(Consistent()) ==> Consistent()
    {
      r := Operation(id, d.kind, d.amount, d.accountId, d.categoryId, d.toAccountId, d.date, d.note, createdAt);
      UniqueAppend(operations, r, OperationId);
      operations := operations + [r];
      UpdateAccountBalances(r);
      KeepsIds(old(accounts), r);
      if old(Consistent()) {
        BalancedAfterCreate(old(accounts), opening, old(operations), r);
      }
    }

    /** `operationsAPI.update`: unknown id gives null and no change;
        otherwise reverse the stored record, merge the patch into it, and
        apply the merged record. */
    method UpdateOperation(id: Id, patch: OperationPatch) returns (r: Option<Operation>)
      requires Valid()
      modifies this`operations, this`accounts
      ensures Valid()
      ensures var i := IndexOf(old(operations), OperationId, id);
        if i == -1 then
          r.None? && operations == old(operations) && accounts == old(accounts)
        else
          var merged := MergeOperation(old(operations)[i], patch);
          && r == Some(merged)
          && operations == old(operations)[i := merged]
          && accounts == AfterApply(AfterReverse(old(accounts), old(operations)[i]), merged)
      ensures old(Consistent()) ==> Consistent()
    {
      var index := FindIndex(operations, OperationId, id);
      if index == -1 {
        return None;
      }
      ghost var before := accounts;
      var previous := operations[index];
      var merged := MergeOperation(previous, patch);
      if Balanced(before, opening, operations) {
        BalancedAfterReplace(before, opening, operations, index, merged);
      }
      UniqueUpdate(operations, index, merged, OperationId);
      KeepsIds(before, previous);
      ReverseAccountBalances(previous);
      UpdateAccountBalances(merged);
      KeepsIds(AfterReverse(before, previous), merged);
      operations := operations[index := merged];
      r := Some(merged);
    }

    /** `operationsAPI.delete`: unknown id gives false and no change;
        otherwise reverse the record's effect and drop every record with
        that id. */
    method DeleteOperation(id: Id) returns (removed: bool)
      requires Valid()
      modifies this`operations, this`accounts
      ensures Valid()
      ensures removed <==> HasKey(old(operations), OperationId, id)
      ensures !removed ==> operations == old(operations) && accounts == old(accounts)
      ensures removed ==>
        && accounts == AfterReverse(old(accounts), old(operations)[IndexOf(old(operations), OperationId, id)])
        && operations == WithoutKey(old(operations), OperationId, id)
      ensures old(Consistent()) ==> Consistent()
    {
      var index := FindIndex(operations, OperationId, id);
      if index == -1 {
        return false;
      }
      ghost var before := accounts;
      var target := operations[index];
      if Balanced(before, opening, operations) {
        BalancedAfterDelete(before, opening, operations, id);
      }
      UniqueWithout(operations, OperationId, id);
      ReverseAccountBalances(target);
      KeepsIds(before, target);
      operations := WithoutKey(operations, OperationId, id);
      removed := true;
    }

    // -------------------------------------------------------------------
    // Accounts

    /** `accountsAPI.create`: append a new account. */
    method CreateAccount(name: string, balance: int, isActive: bool, id: Id, createdAt: string) returns (r: Account)
      requires Valid()
      requires id !in AccountIds(accounts)
      modifies this`accounts, this`opening
      ensures Valid()
      ensures r == Account(id, name, balance, isActive, createdAt)
      ensures accounts == old(accounts) + [r]
      ensures opening == old(opening)[id := balance]
      ensures old(Consistent()) && Unreferenced(id) ==> Consistent()
    {
      r := Account(id, name, balance, isActive, createdAt);
      HasKeyIsMember(accounts, id);
      UniqueAppend(accounts, r, AccountId);
      if Consistent() && Unreferenced(id) {
        BalancedAfterOpen(accounts, opening, operations, r);
      }
      accounts := accounts + [r];
      opening := opening[id := balance];
    }

    /** `accountsAPI.update`: unknown id gives null; otherwise merge the
        patch into the first account with that id. */
    method UpdateAccount(id: Id, patch: AccountPatch) returns (r: Option<Account>)
      requires Valid()
      modifies this`accounts
      ensures Valid()
      ensures var i := IndexOf(old(accounts), AccountId, id);
        if i == -1 then r.None? && accounts == old(accounts)
        else accounts == old(accounts)[i := MergeAccount(old(accounts)[i], patch)] && r == Some(accounts[i])
      ensures old(Consistent()) && patch.balance.None? ==> Consistent()
    {
      var index := FindIndex(accounts, AccountId, id);
      if index == -1 {
        return None;
      }
      var merged := MergeAccount(accounts[index], patch);
      UniqueUpdate(accounts, index, merged, AccountId);
      if Consistent() && patch.balance.None? {
        BalancedAfterEdit(accounts, opening, operations, index, patch);
      }
      ReplaceKeepsIds(accounts, index, merged);
      accounts := accounts[index := merged];
      r := Some(merged);
    }

    /** `accountsAPI.delete`: false when no account has the id; otherwise
        drop every account with it. */
    method DeleteAccount(id: Id) returns (removed: bool)
      requires Valid()
      modifies this`accounts
      ensures Valid()
      ensures removed <==> HasKey(old(accounts), AccountId, id)
      ensures accounts == WithoutKey(old(accounts), AccountId, id)
      ensures old(Consistent()) && Unreferenced(id) ==> Consistent()
    {
      var filtered := WithoutKey(accounts, AccountId, id);
      if |filtered| == |accounts| {
        WithoutAbsentKey(accounts, AccountId, id);
        return false;
      }
      UniqueWithout(accounts, AccountId, id);
      if Consistent() && Unreferenced(id) {
        BalancedAfterClose(accounts, opening, operations, id);
      }
      accounts := filtered;
      removed := true;
    }

    // -------------------------------------------------------------------
    // Categories

    method CreateCategory(name: string, kind: CategoryType, id: Id, createdAt: string) returns (r: Category)
      modifies this`categories
      ensures r == Category(id, name, kind, createdAt)
      ensures categories == old(categories) + [r]
    {
      r := Category(id, name, kind, createdAt);
      categories := categories + [r];
    }

    method UpdateCategory(id: Id, patch: CategoryPatch) returns (r: Option<Category>)
      modifies this`categories
      ensures var i := IndexOf(old(categories), CategoryId, id);
        if i == -1 then r.None? && categories == old(categories)
        else categories == old(categories)[i := MergeCategory(old(categories)[i], patch)] && r == Some(categories[i])
    {
      var index := FindIndex(categories, CategoryId, id);
      if index == -1 {
        return None;
      }
      categories := categories[index := MergeCategory(categories[index], patch)];
      r := Some(categories[index]);
    }

    method DeleteCategory(id: Id) returns (removed: bool)
      modifies this`categories
      ensures removed <==> HasKey(old(categories), CategoryId, id)
      ensures categories == WithoutKey(old(categories), CategoryId, id)
    {
      var filtered := WithoutKey(categories, CategoryId, id);
      if |filtered| == |categories| {
        WithoutAbsentKey(categories, CategoryId, id);
        return false;
      }
      categories := filtered;
      removed := true;
    }

    // -------------------------------------------------------------------
    // Budgets

    method CreateBudget(d: BudgetDraft, id: Id, createdAt: string) returns (r: Budget)
      modifies this`budgets
      ensures r == Budget(id, d.categoryId, d.month, d.limit, createdAt)
      ensures budgets == old(budgets) + [r]
    {
      r := Budget(id, d.categoryId, d.month, d.limit, createdAt);
      budgets := budgets + [r];
    }

    method UpdateBudget(id: Id, patch: BudgetPatch) returns (r: Option<Budget>)
      modifies this`budgets
      ensures var i := IndexOf(old(budgets), BudgetId, id);
        if i == -1 then r.None? && budgets == old(budgets)
        else budgets == old(budgets)[i := MergeBudget(old(budgets)[i], patch)] && r == Some(budgets[i])
    {
      var index := FindIndex(budgets, BudgetId, id);
      if index == -1 {
        return None;
      }
      budgets := budgets[index := MergeBudget(budgets[index], patch)];
      r := Some(budgets[index]);
    }

    method DeleteBudget(id: Id) returns (removed: bool)
      modifies this`budgets
      ensures removed <==> HasKey(old(budgets), BudgetId, id)
      ensures budgets == WithoutKey(old(budgets), BudgetId, id)
    {
      var filtered := WithoutKey(budgets, BudgetId, id);
      if |filtered| == |budgets| {
        WithoutAbsentKey(budgets, BudgetId, id);
        return false;
      }
      budgets := filtered;
      removed := true;
    }
  }
}
