/** The summary page: totals over the active accounts, the month's income
    and expenses, the month's budget progress and the latest operations.
    The current month is a parameter. */
module Dashboard {
  import opened Types
  import opened Text
  import opened Collections
  import opened Ledger
  import opened Budgets

  datatype Stats = Stats(totalBalance: int, monthIncome: int, monthExpenses: int, accountsCount: nat)

  function ActiveAccounts(accounts: seq<Account>): (r: seq<Account>)
    ensures forall i :: 0 <= i < |r| ==> r[i] in accounts && r[i].isActive
    ensures forall i :: 0 <= i < |accounts| && accounts[i].isActive ==> accounts[i] in r
  {
    FilterMembers(accounts, (a: Account) => a.isActive);
    Filter(accounts, (a: Account) => a.isActive)
  }

  /** The operations dated in `month`. */
  function MonthOperations(ops: seq<Operation>, month: string): (r: seq<Operation>)
    ensures forall i :: 0 <= i < |r| ==> r[i] in ops && StartsWith(r[i].date, month)
    ensures forall i :: 0 <= i < |ops| && StartsWith(ops[i].date, month) ==> ops[i] in r
  {
    FilterMembers(ops, (o: Operation) => StartsWith(o.date, month));
    Filter(ops, (o: Operation) => StartsWith(o.date, month))
  }

  /** The sum of the amounts of the month's operations of one kind. */
  function MonthTotal(ops: seq<Operation>, month: string, kind: OperationType): int {
    Total(Filter(MonthOperations(ops, month), (o: Operation) => o.kind == kind), Amount)
  }

  /** `stats`. The bound below is the only fact stated here; the values
      themselves are characterised by `StatsAddAccount`, `StatsAllActive`
      and `StatsAddOperation`. */
  function ComputeStats(accounts: seq<Account>, ops: seq<Operation>, month: string): (r: Stats)
    ensures r.accountsCount <= |accounts|
  {
    var active := ActiveAccounts(accounts);
    Stats(TotalBalance(active), MonthTotal(ops, month, Income), MonthTotal(ops, month, Expense), |active|)
  }

  /** The five most recent operations, newest first: `slice(-5).reverse()`. */
  function Recent(ops: seq<Operation>): (r: seq<Operation>)
    ensures |r| == if |ops| < 5 then |ops| else 5
    ensures forall i :: 0 <= i < |r| ==> r[i] == ops[|ops| - 1 - i]
  {
    var n := if |ops| < 5 then |ops| else 5;
    Reversed(ops[|ops| - n..])
  }

  /** The whole page for `month`. */
  datatype Overview = Overview(stats: Stats, budgets: seq<BudgetProgress>, recent: seq<Operation>)

  function ComputeOverview(accounts: seq<Account>, ops: seq<Operation>, budgets: seq<Budget>, categories: seq<Category>, month: string): (r: Overview)
    ensures r.budgets == BudgetProgressFor(budgets, categories, ops, month)
    ensures |r.recent| <= 5
  {
    Overview(ComputeStats(accounts, ops, month), BudgetProgressFor(budgets, categories, ops, month), Recent(ops))
  }

  // ---------------------------------------------------------------------
  // Properties

  /** A month without operations of a kind totals zero for that kind. */
  lemma MonthTotalNone(ops: seq<Operation>, month: string, kind: OperationType)
    requires forall i :: 0 <= i < |ops| && StartsWith(ops[i].date, month) ==> ops[i].kind != kind
    ensures MonthTotal(ops, month, kind) == 0
  {
    var m := MonthOperations(ops, month);
    forall j | 0 <= j < |m| ensures m[j].kind != kind {
      var i :| 0 <= i < |ops| && ops[i] == m[j];
    }
    FilterNone(m, (o: Operation) => o.kind == kind);
  }

  /** Adding an account changes the total and the count only when it is
      active, and then by its balance and by one. */
  lemma StatsAddAccount(accounts: seq<Account>, a: Account, ops: seq<Operation>, month: string)
    ensures var before := ComputeStats(accounts, ops, month);
      var after := ComputeStats(accounts + [a], ops, month);
      && after.totalBalance == before.totalBalance + (if a.isActive then a.balance else 0)
      && after.accountsCount == before.accountsCount + (if a.isActive then 1 else 0)
  {
    var p := (a: Account) => a.isActive;
    FilterAppend(accounts, [a], p);
    TotalAppend(Filter(accounts, p), Filter([a], p), Balance);
  }

  /** When every account is active the total is the sum of all balances. */
  lemma StatsAllActive(accounts: seq<Account>, ops: seq<Operation>, month: string)
    requires forall i :: 0 <= i < |accounts| ==> accounts[i].isActive
    ensures ComputeStats(accounts, ops, month).totalBalance == TotalBalance(accounts)
    ensures ComputeStats(accounts, ops, month).accountsCount == |accounts|
  {
    FilterAll(accounts, (a: Account) => a.isActive);
  }

  /** Adding an operation raises the month's income by its amount when it
      is an income of the month, the month's expenses when it is an expense
      of the month, and nothing else; transfers count in neither. */
  lemma StatsAddOperation(accounts: seq<Account>, ops: seq<Operation>, o: Operation, month: string)
    ensures var before := ComputeStats(accounts, ops, month);
      var after := ComputeStats(accounts, ops + [o], month);
      var inMonth := StartsWith(o.date, month);
      && after.monthIncome == before.monthIncome + (if inMonth && o.kind == Income then o.amount else 0)
      && after.monthExpenses == before.monthExpenses + (if inMonth && o.kind == Expense then o.amount else 0)
      && after.totalBalance == before.totalBalance
      && after.accountsCount == before.accountsCount
  {
    var m := (o: Operation) => StartsWith(o.date, month);
    FilterAppend(ops, [o], m);
    MonthTotalAppend(ops, o, month, Income);
    MonthTotalAppend(ops, o, month, Expense);
  }

  lemma MonthTotalAppend(ops: seq<Operation>, o: Operation, month: string, kind: OperationType)
    ensures MonthTotal(ops + [o], month, kind)
         == MonthTotal(ops, month, kind) + (if StartsWith(o.date, month) && o.kind == kind then o.amount else 0)
  {
    var m := (o: Operation) => StartsWith(o.date, month);
    var k := (o: Operation) => o.kind == kind;
    FilterAppend(ops, [o], m);
    FilterAppend(Filter(ops, m), Filter([o], m), k);
    TotalAppend(Filter(Filter(ops, m), k), Filter(Filter([o], m), k), Amount);
  }

  /** A transfer never shows in the month's income or expenses. */
  lemma TransfersNotCounted(accounts: seq<Account>, ops: seq<Operation>, o: Operation, month: string)
    requires o.kind == Transfer
    ensures ComputeStats(accounts, ops + [o], month) == ComputeStats(accounts, ops, month)
  {
    StatsAddOperation(accounts, ops, o, month);
  }

  /** The newest operation comes first in the recent list, followed by the
      previous recent list cut to four. */
  lemma RecentAfterAppend(ops: seq<Operation>, o: Operation)
    ensures Recent(ops + [o]) == [o] + Recent(ops)[..if |ops| < 4 then |ops| else 4]
  {
    var n := |ops|;
    if n < 5 {
      assert (ops + [o])[|ops + [o]| - (n + 1)..] == ops + [o];
      assert ops[n - n..] == ops;
      ReversedSnoc(ops, o);
    } else {
      var tail := ops[n - 4..];
      assert (ops + [o])[|ops + [o]| - 5..] == tail + [o];
      ReversedSnoc(tail, o);
      assert ops[n - 5..][1..] == tail;
      assert Reversed(ops[n - 5..])[..4] == Reversed(tail);
    }
  }
}
