/** The balance effect of one operation, and the ledger invariant that ties
    account balances to the stored operations. */
module Ledger {
  import opened Types
  import opened Collections

  function AccountIds(accounts: seq<Account>): set<Id> {
    set a | a in accounts :: a.id
  }

  lemma HasKeyIsMember(accounts: seq<Account>, x: Id)
    ensures HasKey(accounts, AccountId, x) <==> x in AccountIds(accounts)
  {
    if x in AccountIds(accounts) {
      var a :| a in accounts && a.id == x;
      var k :| 0 <= k < |accounts| && accounts[k] == a;
      assert AccountId(accounts[k]) == x;
    }
  }

  /** `operation.toAccountId` is truthy: present and not empty. */
  predicate HasDestination(o: Operation) {
    o.toAccountId.Some? && o.toAccountId.value != ""
  }

  /** Whether the balance helpers find every account the operation needs:
      the source account for income and expense; for a transfer, a
      destination id and both accounts. Otherwise they change nothing. */
  predicate Resolves(o: Operation, ids: set<Id>) {
    match o.kind
    case Income => o.accountId in ids
    case Expense => o.accountId in ids
    case Transfer => HasDestination(o) && o.accountId in ids && o.toAccountId.value in ids
  }

  /** The signed change the operation makes to account `x`. A transfer to
      its own source account nets to zero. */
  function Effect(o: Operation, x: Id): (r: int)
    ensures !Mentions(o, x) ==> r == 0
    ensures o.kind == Transfer && o.toAccountId == Some(o.accountId) ==> r == 0
  {
    match o.kind
    case Income => if x == o.accountId then o.amount else 0
    case Expense => if x == o.accountId then -o.amount else 0
    case Transfer =>
      if !HasDestination(o) then 0
      else (if x == o.accountId then -o.amount else 0) + (if x == o.toAccountId.value then o.amount else 0)
  }

  function AppliedEffect(o: Operation, x: Id, ids: set<Id>): int {
    if Resolves(o, ids) then Effect(o, x) else 0
  }

  /** `e` when applying an operation, `-e` when reversing it. */
  function Directed(forward: bool, e: int): int {
    if forward then e else -e
  }

  /** One account moved by the operation's effect on it: applied
      (`forward`) or reversed, and only when the operation resolves
      (`live`). */
  function ShiftedAccount(a: Account, o: Operation, live: bool, forward: bool): Account {
    if live then a.(balance := a.balance + Directed(forward, Effect(o, a.id))) else a
  }

  function Shifted(accounts: seq<Account>, o: Operation, live: bool, forward: bool): (r: seq<Account>)
    ensures |r| == |accounts|
    ensures forall i :: 0 <= i < |r| ==> r[i] == ShiftedAccount(accounts[i], o, live, forward)
  {
    seq(|accounts|, i requires 0 <= i < |accounts| => ShiftedAccount(accounts[i], o, live, forward))
  }

  /** The accounts after `updateAccountBalances(o)`. */
  function AfterApply(accounts: seq<Account>, o: Operation): (r: seq<Account>)
    ensures |r| == |accounts|
    ensures forall i :: 0 <= i < |r| ==>
      r[i] == accounts[i].(balance := accounts[i].balance + AppliedEffect(o, accounts[i].id, AccountIds(accounts)))
  {
    Shifted(accounts, o, Resolves(o, AccountIds(accounts)), true)
  }

  /** The accounts after `reverseAccountBalances(o)`. */
  function AfterReverse(accounts: seq<Account>, o: Operation): (r: seq<Account>)
    ensures |r| == |accounts|
    ensures forall i :: 0 <= i < |r| ==>
      r[i] == accounts[i].(balance := accounts[i].balance - AppliedEffect(o, accounts[i].id, AccountIds(accounts)))
  {
    Shifted(accounts, o, Resolves(o, AccountIds(accounts)), false)
  }

  lemma ShiftedKeepsIds(accounts: seq<Account>, o: Operation, live: bool, forward: bool)
    ensures AccountIds(Shifted(accounts, o, live, forward)) == AccountIds(accounts)
  {
    var r := Shifted(accounts, o, live, forward);
    forall x | x in AccountIds(r) ensures x in AccountIds(accounts) {
      var a :| a in r && a.id == x;
      var i :| 0 <= i < |r| && r[i] == a;
      assert accounts[i] in accounts;
    }
    forall x | x in AccountIds(accounts) ensures x in AccountIds(r) {
      var a :| a in accounts && a.id == x;
      var i :| 0 <= i < |accounts| && accounts[i] == a;
      assert r[i] in r;
    }
  }

  lemma ShiftedKeepsUnique(accounts: seq<Account>, o: Operation, live: bool, forward: bool)
    requires Unique(accounts, AccountId)
    ensures Unique(Shifted(accounts, o, live, forward), AccountId)
  {
    var r := Shifted(accounts, o, live, forward);
    forall i, j | 0 <= i < j < |r| ensures AccountId(r[i]) != AccountId(r[j]) {
      assert r[i].id == accounts[i].id && r[j].id == accounts[j].id;
    }
  }

  /** Neither helper adds, drops or renames an account. */
  lemma KeepsIds(accounts: seq<Account>, o: Operation)
    ensures AccountIds(AfterApply(accounts, o)) == AccountIds(accounts)
    ensures AccountIds(AfterReverse(accounts, o)) == AccountIds(accounts)
    ensures Unique(accounts, AccountId) ==>
      Unique(AfterApply(accounts, o), AccountId) && Unique(AfterReverse(accounts, o), AccountId)
  {
    var live := Resolves(o, AccountIds(accounts));
    ShiftedKeepsIds(accounts, o, live, true);
    ShiftedKeepsIds(accounts, o, live, false);
    if Unique(accounts, AccountId) {
      ShiftedKeepsUnique(accounts, o, live, true);
      ShiftedKeepsUnique(accounts, o, live, false);
    }
  }

  /** `accounts[i].balance += delta` on a copy of the list. */
  function Moved(accounts: seq<Account>, i: nat, delta: int): (r: seq<Account>)
    requires i < |accounts|
    ensures |r| == |accounts|
  {
    accounts[i := accounts[i].(balance := accounts[i].balance + delta)]
  }

  /** With unique ids, the position `i` is the only one holding its id. */
  lemma OnlyAt(accounts: seq<Account>, i: int, k: int)
    requires Unique(accounts, AccountId)
    requires 0 <= i < |accounts| && 0 <= k < |accounts|
    ensures accounts[k].id == accounts[i].id <==> k == i
  {
    if k < i {
      assert AccountId(accounts[k]) != AccountId(accounts[i]);
    } else if i < k {
      assert AccountId(accounts[i]) != AccountId(accounts[k]);
    }
  }

  /** Moving the balance at the one position holding the operation's
      account gives that account its shifted value, and leaves the others
      as they are. */
  lemma MovedOnceAt(accounts: seq<Account>, o: Operation, forward: bool, i: int, delta: int, k: int)
    requires o.kind == Income || o.kind == Expense
    requires 0 <= i < |accounts| && 0 <= k < |accounts|
    requires accounts[k].id == o.accountId <==> k == i
    requires delta == Directed(forward, Effect(o, o.accountId))
    ensures Moved(accounts, i, delta)[k] == ShiftedAccount(accounts[k], o, true, forward)
  {
  }

  /** The same for a transfer moving the source at `f`, then the
      destination at `t`. */
  lemma MovedTwiceAt(accounts: seq<Account>, o: Operation, forward: bool, f: int, t: int, debit: int, credit: int, k: int)
    requires o.kind == Transfer && HasDestination(o)
    requires 0 <= f < |accounts| && 0 <= t < |accounts| && 0 <= k < |accounts|
    requires accounts[k].id == o.accountId <==> k == f
    requires accounts[k].id == o.toAccountId.value <==> k == t
    requires credit == Directed(forward, o.amount) && debit == -credit
    ensures Moved(Moved(accounts, f, debit), t, credit)[k] == ShiftedAccount(accounts[k], o, true, forward)
  {
  }

  /** With unique ids, moving only the balance found for an income or
      expense account agrees with the effect on every account. */
  lemma ShiftOne(accounts: seq<Account>, o: Operation, forward: bool, i: int, delta: int)
    requires Unique(accounts, AccountId)
    requires o.kind == Income || o.kind == Expense
    requires i == IndexOf(accounts, AccountId, o.accountId) && i != -1
    requires delta == Directed(forward, Effect(o, o.accountId))
    ensures forward ==> Moved(accounts, i, delta) == AfterApply(accounts, o)
    ensures !forward ==> Moved(accounts, i, delta) == AfterReverse(accounts, o)
  {
    assert accounts[i] in accounts;
    assert Resolves(o, AccountIds(accounts));
    forall k | 0 <= k < |accounts| ensures Moved(accounts, i, delta)[k] == ShiftedAccount(accounts[k], o, true, forward) {
      OnlyAt(accounts, i, k);
      MovedOnceAt(accounts, o, forward, i, delta, k);
    }
  }

  /** The same for a transfer whose two accounts are found at `f` and `t`
      (possibly the same position): move the source, then the destination,
      reading the second balance after the first write. */
  lemma ShiftTwo(accounts: seq<Account>, o: Operation, forward: bool, f: int, t: int, debit: int, credit: int)
    requires Unique(accounts, AccountId)
    requires o.kind == Transfer && HasDestination(o)
    requires f == IndexOf(accounts, AccountId, o.accountId) && f != -1
    requires t == IndexOf(accounts, AccountId, o.toAccountId.value) && t != -1
    requires credit == Directed(forward, o.amount) && debit == -credit
    ensures forward ==> Moved(Moved(accounts, f, debit), t, credit) == AfterApply(accounts, o)
    ensures !forward ==> Moved(Moved(accounts, f, debit), t, credit) == AfterReverse(accounts, o)
  {
    assert accounts[f] in accounts && accounts[t] in accounts;
    assert Resolves(o, AccountIds(accounts));
    forall k | 0 <= k < |accounts|
      ensures Moved(Moved(accounts, f, debit), t, credit)[k] == ShiftedAccount(accounts[k], o, true, forward)
    {
      OnlyAt(accounts, f, k);
      OnlyAt(accounts, t, k);
      MovedTwiceAt(accounts, o, forward, f, t, debit, credit, k);
    }
  }

  /** When a look-up fails, neither helper changes anything. */
  lemma NotFound(accounts: seq<Account>, o: Operation)
    requires
      || !HasKey(accounts, AccountId, o.accountId)
      || (o.kind == Transfer && (!HasDestination(o) || !HasKey(accounts, AccountId, o.toAccountId.value)))
    ensures AfterApply(accounts, o) == accounts
    ensures AfterReverse(accounts, o) == accounts
  {
    HasKeyIsMember(accounts, o.accountId);
    if o.toAccountId.Some? {
      HasKeyIsMember(accounts, o.toAccountId.value);
    }
    ApplyUnresolved(accounts, o);
  }

  /** Reversing an operation right after applying it restores every account
      exactly, whatever the operation and whether or not it resolves. */
  lemma ReverseUndoesApply(accounts: seq<Account>, o: Operation)
    ensures AfterReverse(AfterApply(accounts, o), o) == accounts
  {
    KeepsIds(accounts, o);
  }

  lemma ApplyUndoesReverse(accounts: seq<Account>, o: Operation)
    ensures AfterApply(AfterReverse(accounts, o), o) == accounts
  {
    KeepsIds(accounts, o);
  }

  /** Income raises its account by the amount, expense lowers it; every
      other account keeps its balance. */
  lemma ApplyIncomeOrExpense(accounts: seq<Account>, o: Operation, i: nat)
    requires o.kind == Income || o.kind == Expense
    requires o.accountId in AccountIds(accounts)
    requires i < |accounts|
    ensures AfterApply(accounts, o)[i].balance
         == if accounts[i].id != o.accountId then accounts[i].balance
            else if o.kind == Income then accounts[i].balance + o.amount
            else accounts[i].balance - o.amount
  {
  }

  /** A transfer between two present accounts moves the amount from the
      source to the destination; every other account keeps its balance. */
  lemma ApplyTransfer(accounts: seq<Account>, o: Operation, i: nat)
    requires o.kind == Transfer && HasDestination(o)
    requires o.accountId in AccountIds(accounts) && o.toAccountId.value in AccountIds(accounts)
    requires o.accountId != o.toAccountId.value
    requires i < |accounts|
    ensures AfterApply(accounts, o)[i].balance
         == if accounts[i].id == o.accountId then accounts[i].balance - o.amount
            else if accounts[i].id == o.toAccountId.value then accounts[i].balance + o.amount
            else accounts[i].balance
  {
  }

  /** A missing account, or a transfer without a destination, leaves every
      balance as it was. */
  lemma ApplyUnresolved(accounts: seq<Account>, o: Operation)
    requires !Resolves(o, AccountIds(accounts))
    ensures AfterApply(accounts, o) == accounts
    ensures AfterReverse(accounts, o) == accounts
  {
  }

  // ---------------------------------------------------------------------
  // Conservation: the total of all balances

  function Balance(a: Account): int { a.balance }

  /** The sum of all balances. */
  function TotalBalance(accounts: seq<Account>): int {
    Total(accounts, Balance)
  }

  /** The change an operation makes to the total of all balances. */
  function NetChange(o: Operation): int {
    match o.kind
    case Income => o.amount
    case Expense => -o.amount
    case Transfer => 0
  }

  /** The sum over the accounts of `v` for every account whose id is `x`. */
  function Credit(accounts: seq<Account>, x: Id, v: int): int {
    if accounts == [] then 0
    else (if accounts[0].id == x then v else 0) + Credit(accounts[1..], x, v)
  }

  /** The sum over the accounts of the operation's effect on each. */
  function EffectTotal(accounts: seq<Account>, o: Operation): int {
    if accounts == [] then 0 else Effect(o, accounts[0].id) + EffectTotal(accounts[1..], o)
  }

  lemma {:induction false} CreditUnique(accounts: seq<Account>, x: Id, v: int)
    requires Unique(accounts, AccountId)
    ensures Credit(accounts, x, v) == if x in AccountIds(accounts) then v else 0
  {
    if accounts != [] {
      var rest := accounts[1..];
      assert Unique(rest, AccountId) by {
        forall i, j | 0 <= i < j < |rest| ensures AccountId(rest[i]) != AccountId(rest[j]) {
          assert rest[i] == accounts[i + 1] && rest[j] == accounts[j + 1];
        }
      }
      CreditUnique(rest, x, v);
      assert AccountIds(accounts) == {accounts[0].id} + AccountIds(rest) by {
        assert accounts == [accounts[0]] + rest;
      }
      if accounts[0].id == x {
        assert forall j :: 0 <= j < |rest| ==> rest[j].id != x by {
          forall j | 0 <= j < |rest| ensures rest[j].id != x {
            assert AccountId(accounts[0]) != AccountId(accounts[j + 1]);
          }
        }
      }
    }
  }

  lemma {:induction false} EffectTotalByCredit(accounts: seq<Account>, o: Operation)
    ensures EffectTotal(accounts, o) == match o.kind
      case Income => Credit(accounts, o.accountId, o.amount)
      case Expense => Credit(accounts, o.accountId, -o.amount)
      case Transfer =>
        if !HasDestination(o) then 0
        else Credit(accounts, o.accountId, -o.amount) + Credit(accounts, o.toAccountId.value, o.amount)
  {
    if accounts != [] {
      EffectTotalByCredit(accounts[1..], o);
    }
  }

  lemma {:induction false} ShiftedTotal(accounts: seq<Account>, o: Operation)
    ensures TotalBalance(Shifted(accounts, o, true, true)) == TotalBalance(accounts) + EffectTotal(accounts, o)
  {
    if accounts != [] {
      ShiftedTotal(accounts[1..], o);
      assert Shifted(accounts, o, true, true)[1..] == Shifted(accounts[1..], o, true, true);
    }
  }

  /** Income raises the total of all balances by its amount, expense lowers
      it, and a transfer leaves it unchanged; an operation that does not
      resolve changes nothing. */
  lemma TotalAfterApply(accounts: seq<Account>, o: Operation)
    requires Unique(accounts, AccountId)
    ensures TotalBalance(AfterApply(accounts, o))
         == TotalBalance(accounts) + if Resolves(o, AccountIds(accounts)) then NetChange(o) else 0
  {
    var ids := AccountIds(accounts);
    if Resolves(o, ids) {
      ShiftedTotal(accounts, o);
      EffectTotalByCredit(accounts, o);
      CreditUnique(accounts, o.accountId, if o.kind == Income then o.amount else -o.amount);
      if o.kind == Transfer {
        CreditUnique(accounts, o.toAccountId.value, o.amount);
      }
    } else {
      ApplyUnresolved(accounts, o);
    }
  }

  // ---------------------------------------------------------------------
  // The ledger invariant

  /** Sum of the applied effects on account `x` of the operations in order. */
  function NetEffect(ops: seq<Operation>, x: Id, ids: set<Id>): int {
    if ops == [] then 0 else NetEffect(ops[..|ops| - 1], x, ids) + AppliedEffect(ops[|ops| - 1], x, ids)
  }

  /** Every account's balance is its opening balance plus the effects of
      the stored operations, each counted when it resolves against the
      current accounts. */
  predicate Balanced(accounts: seq<Account>, opening: map<Id, int>, ops: seq<Operation>) {
    forall a :: a in accounts ==>
      a.id in opening && a.balance == opening[a.id] + NetEffect(ops, a.id, AccountIds(accounts))
  }

  lemma {:induction false} NetEffectAppend(xs: seq<Operation>, ys: seq<Operation>, x: Id, ids: set<Id>)
    ensures NetEffect(xs + ys, x, ids) == NetEffect(xs, x, ids) + NetEffect(ys, x, ids)
  {
    if ys == [] {
      assert xs + ys == xs;
    } else {
      var n := |ys| - 1;
      assert (xs + ys)[..|xs + ys| - 1] == xs + ys[..n];
      NetEffectAppend(xs, ys[..n], x, ids);
    }
  }

  lemma NetEffectSplit(ops: seq<Operation>, i: nat, x: Id, ids: set<Id>)
    requires i < |ops|
    ensures NetEffect(ops, x, ids)
         == NetEffect(ops[..i], x, ids) + AppliedEffect(ops[i], x, ids) + NetEffect(ops[i + 1..], x, ids)
  {
    assert ops == ops[..i] + [ops[i]] + ops[i + 1..];
    NetEffectAppend(ops[..i] + [ops[i]], ops[i + 1..], x, ids);
    NetEffectAppend(ops[..i], [ops[i]], x, ids);
    assert NetEffect([ops[i]], x, ids) == AppliedEffect(ops[i], x, ids) by {
      assert [ops[i]][..0] == [];
    }
  }

  /** An operation that names neither `x` as source nor as destination has
      no effect on `x`, and its resolution does not depend on `x`. */
  predicate Mentions(o: Operation, x: Id) {
    o.accountId == x || o.toAccountId == Some(x)
  }

  lemma {:induction false} NetEffectSameResolution(ops: seq<Operation>, x: Id, ids: set<Id>, ids': set<Id>)
    requires forall k :: 0 <= k < |ops| ==> Resolves(ops[k], ids) == Resolves(ops[k], ids')
    ensures NetEffect(ops, x, ids) == NetEffect(ops, x, ids')
  {
    if ops != [] {
      NetEffectSameResolution(ops[..|ops| - 1], x, ids, ids');
    }
  }

  lemma {:induction false} NetEffectUnmentioned(ops: seq<Operation>, x: Id, ids: set<Id>)
    requires forall k :: 0 <= k < |ops| ==> !Mentions(ops[k], x)
    ensures NetEffect(ops, x, ids) == 0
  {
    if ops != [] {
      NetEffectUnmentioned(ops[..|ops| - 1], x, ids);
    }
  }

  /** Creating an operation keeps the ledger balanced: append, then apply. */
  lemma BalancedAfterCreate(accounts: seq<Account>, opening: map<Id, int>, ops: seq<Operation>, o: Operation)
    requires Balanced(accounts, opening, ops)
    ensures Balanced(AfterApply(accounts, o), opening, ops + [o])
  {
    BalancedAfterInsert(accounts, opening, ops, |ops|, o);
    assert ops[..|ops|] + [o] + ops[|ops|..] == ops + [o];
  }

  /** Applying an operation while inserting it at any position of the list
      keeps the ledger balanced. */
  lemma BalancedAfterInsert(accounts: seq<Account>, opening: map<Id, int>, ops: seq<Operation>, i: nat, o: Operation)
    requires Balanced(accounts, opening, ops)
    requires i <= |ops|
    ensures Balanced(AfterApply(accounts, o), opening, ops[..i] + [o] + ops[i..])
  {
    var ids := AccountIds(accounts);
    var s := AfterApply(accounts, o);
    var ops' := ops[..i] + [o] + ops[i..];
    KeepsIds(accounts, o);
    assert ops == ops[..i] + ops[i..];
    assert [o][..0] == [];
    forall a | a in s ensures a.id in opening && a.balance == opening[a.id] + NetEffect(ops', a.id, ids) {
      var k :| 0 <= k < |s| && s[k] == a;
      assert accounts[k] in accounts;
      NetEffectAppend(ops[..i] + [o], ops[i..], a.id, ids);
      NetEffectAppend(ops[..i], [o], a.id, ids);
      NetEffectAppend(ops[..i], ops[i..], a.id, ids);
    }
  }

  /** Editing an operation keeps the ledger balanced: reverse the stored
      record, replace it, apply the new one. */
  lemma BalancedAfterReplace(accounts: seq<Account>, opening: map<Id, int>, ops: seq<Operation>, i: nat, o: Operation)
    requires Balanced(accounts, opening, ops)
    requires i < |ops|
    ensures Balanced(AfterApply(AfterReverse(accounts, ops[i]), o), opening, ops[i := o])
  {
    var rest := ops[..i] + ops[i + 1..];
    BalancedAfterRemove(accounts, opening, ops, i);
    BalancedAfterInsert(AfterReverse(accounts, ops[i]), opening, rest, i, o);
    assert rest[..i] + [o] + rest[i..] == ops[i := o];
  }

  /** Deleting an operation keeps the ledger balanced: reverse it, then
      drop it from the list. */
  lemma BalancedAfterRemove(accounts: seq<Account>, opening: map<Id, int>, ops: seq<Operation>, i: nat)
    requires Balanced(accounts, opening, ops)
    requires i < |ops|
    ensures Balanced(AfterReverse(accounts, ops[i]), opening, ops[..i] + ops[i + 1..])
  {
    var ids := AccountIds(accounts);
    var s := AfterReverse(accounts, ops[i]);
    KeepsIds(accounts, ops[i]);
    forall a | a in s ensures a.id in opening && a.balance == opening[a.id] + NetEffect(ops[..i] + ops[i + 1..], a.id, ids) {
      var k :| 0 <= k < |s| && s[k] == a;
      assert accounts[k] in accounts;
      NetEffectSplit(ops, i, a.id, ids);
      NetEffectAppend(ops[..i], ops[i + 1..], a.id, ids);
    }
  }

  /** The same, stated as the store deletes: reverse the first record with
      the id, then filter every record with that id out. */
  lemma BalancedAfterDelete(accounts: seq<Account>, opening: map<Id, int>, ops: seq<Operation>, id: Id)
    requires Balanced(accounts, opening, ops)
    requires Unique(ops, OperationId) && HasKey(ops, OperationId, id)
    ensures Balanced(AfterReverse(accounts, ops[IndexOf(ops, OperationId, id)]), opening, WithoutKey(ops, OperationId, id))
  {
    var i := IndexOf(ops, OperationId, id);
    var rest := ops[..i] + ops[i + 1..];
    BalancedAfterRemove(accounts, opening, ops, i);
    WithoutUniqueKey(ops, OperationId, id);
    assert WithoutKey(ops, OperationId, id) == rest;
  }

  /** Opening an account under a fresh id that no stored operation names
      keeps the ledger balanced; its opening balance is recorded. */
  lemma BalancedAfterOpen(accounts: seq<Account>, opening: map<Id, int>, ops: seq<Operation>, a: Account)
    requires Balanced(accounts, opening, ops)
    requires a.id !in AccountIds(accounts)
    requires forall k :: 0 <= k < |ops| ==> !Mentions(ops[k], a.id)
    ensures Balanced(accounts + [a], opening[a.id := a.balance], ops)
  {
    var ids := AccountIds(accounts);
    var ids' := AccountIds(accounts + [a]);
    assert ids' == ids + {a.id};
    forall k | 0 <= k < |ops| ensures Resolves(ops[k], ids) == Resolves(ops[k], ids') {
      assert !Mentions(ops[k], a.id);
    }
    forall b | b in accounts + [a]
      ensures b.id in opening[a.id := a.balance]
      ensures b.balance == opening[a.id := a.balance][b.id] + NetEffect(ops, b.id, ids')
    {
      NetEffectSameResolution(ops, b.id, ids, ids');
      if b == a {
        NetEffectUnmentioned(ops, a.id, ids');
      } else {
        assert b in accounts;
      }
    }
  }

  /** Removing an account that no stored operation names keeps the ledger
      balanced. */
  lemma BalancedAfterClose(accounts: seq<Account>, opening: map<Id, int>, ops: seq<Operation>, id: Id)
    requires Balanced(accounts, opening, ops)
    requires Unique(accounts, AccountId)
    requires forall k :: 0 <= k < |ops| ==> !Mentions(ops[k], id)
    ensures Balanced(WithoutKey(accounts, AccountId, id), opening, ops)
  {
    var s := WithoutKey(accounts, AccountId, id);
    var ids := AccountIds(accounts);
    var ids' := AccountIds(s);
    assert ids' == ids - {id} by {
      forall x | x in ids - {id} ensures x in ids' {
        var b :| b in accounts && b.id == x;
        assert b in s;
      }
    }
    forall k | 0 <= k < |ops| ensures Resolves(ops[k], ids) == Resolves(ops[k], ids') {
      assert !Mentions(ops[k], id);
    }
    forall b | b in s ensures b.id in opening && b.balance == opening[b.id] + NetEffect(ops, b.id, ids') {
      NetEffectSameResolution(ops, b.id, ids, ids');
    }
  }

  /** Replacing an account by one with the same id keeps the set of ids. */
  lemma ReplaceKeepsIds(accounts: seq<Account>, i: nat, a: Account)
    requires i < |accounts| && a.id == accounts[i].id
    ensures AccountIds(accounts[i := a]) == AccountIds(accounts)
  {
    var s := accounts[i := a];
    forall x | x in AccountIds(accounts) ensures x in AccountIds(s) {
      var b :| b in accounts && b.id == x;
      var k :| 0 <= k < |accounts| && accounts[k] == b;
      assert s[k] in s;
    }
    forall x | x in AccountIds(s) ensures x in AccountIds(accounts) {
      var b :| b in s && b.id == x;
      var k :| 0 <= k < |s| && s[k] == b;
      assert accounts[k] in accounts;
    }
  }

  /** An account edit that sends no balance keeps the ledger balanced. */
  lemma BalancedAfterEdit(accounts: seq<Account>, opening: map<Id, int>, ops: seq<Operation>, i: nat, p: AccountPatch)
    requires Balanced(accounts, opening, ops)
    requires i < |accounts| && p.balance.None?
    ensures Balanced(accounts[i := MergeAccount(accounts[i], p)], opening, ops)
  {
    var s := accounts[i := MergeAccount(accounts[i], p)];
    ReplaceKeepsIds(accounts, i, MergeAccount(accounts[i], p));
    forall b | b in s ensures b.id in opening && b.balance == opening[b.id] + NetEffect(ops, b.id, AccountIds(s)) {
      var k :| 0 <= k < |s| && s[k] == b;
      assert accounts[k] in accounts;
    }
  }

  // ---------------------------------------------------------------------
  // Worked figures (balances in cents)

  lemma ExpenseScenario()
    ensures var x := Account("X", "Card", 100000, true, "");
            var o := Operation("1", Expense, 15000, "X", Some("C"), None, "2024-03-05", None, "");
            AfterApply([x], o) == [x.(balance := 85000)]
            && AfterReverse(AfterApply([x], o), o) == [x]
  {
    var x := Account("X", "Card", 100000, true, "");
    var o := Operation("1", Expense, 15000, "X", Some("C"), None, "2024-03-05", None, "");
    assert AccountIds([x]) == {"X"};
    ReverseUndoesApply([x], o);
  }

  lemma TransferScenario()
    ensures var x := Account("X", "Card", 50000, true, "");
            var y := Account("Y", "Savings", 20000, true, "");
            var o := Operation("1", Transfer, 10000, "X", None, Some("Y"), "2024-03-05", None, "");
            AfterApply([x, y], o) == [x.(balance := 40000), y.(balance := 30000)]
  {
    var x := Account("X", "Card", 50000, true, "");
    var y := Account("Y", "Savings", 20000, true, "");
    assert AccountIds([x, y]) == {"X", "Y"};
  }
}
