/** Monthly budgets: which categories may carry one, how much of each
    budget the month's operations have used, and the checks the budget
    form applies before it creates or edits a budget. */
module Budgets {
  import opened Types
  import opened Text
  import opened Collections

  /** `budgetableCategories`: expense and savings categories. */
  function BudgetableCategories(categories: seq<Category>): (r: seq<Category>)
    ensures forall i :: 0 <= i < |r| ==> r[i] in categories && r[i].kind != IncomeCategory
    ensures forall i :: 0 <= i < |categories| && categories[i].kind != IncomeCategory ==> categories[i] in r
  {
    FilterMembers(categories, (c: Category) => c.kind == ExpenseCategory || c.kind == SavingsCategory);
    Filter(categories, (c: Category) => c.kind == ExpenseCategory || c.kind == SavingsCategory)
  }

  /** `categories.find(c => c.id === id)` */
  function FindCategory(categories: seq<Category>, id: Id): (r: Option<Category>)
    ensures r.None? <==> !HasKey(categories, CategoryId, id)
    ensures r.Some? ==> r.value in categories && r.value.id == id
    ensures r.Some? ==> r.value == categories[IndexOf(categories, CategoryId, id)]
  {
    var i := IndexOf(categories, CategoryId, id);
    if i == -1 then None else Some(categories[i])
  }

  /** The placeholder shown for a budget whose category no longer exists. */
  const UnknownCategory := Category("", "Неизвестная категория", ExpenseCategory, "")

  /** Whether an operation uses up budget `b` of category `c` in `month`:
      it falls in the month, names the budget's category, and is an expense
      or a transfer into a savings category. */
  predicate CountsToward(o: Operation, b: Budget, c: Category, month: string) {
    && StartsWith(o.date, month)
    && o.categoryId == Some(b.categoryId)
    && (o.kind == Expense || (o.kind == Transfer && c.kind == SavingsCategory))
  }

  function Amount(o: Operation): int { o.amount }

  /** The sum of the amounts of the operations that count toward the
      budget. */
  function Spent(ops: seq<Operation>, b: Budget, c: Category, month: string): int {
    Total(Filter(ops, (o: Operation) => CountsToward(o, b, c, month)), Amount)
  }

  /** `spent / limit * 100`, or 0 for a limit that is not positive. */
  function Percentage(spent: int, limit: int): (r: real)
    ensures limit <= 0 ==> r == 0.0
    ensures limit > 0 ==> r * limit as real == spent as real * 100.0
  {
    if limit > 0 then (spent as real / limit as real) * 100.0 else 0.0
  }

  /** The progress entry of one budget: spent, remaining and percentage
      for its category, or zeros against the placeholder category. */
  function Progress(b: Budget, categories: seq<Category>, ops: seq<Operation>, month: string): (r: BudgetProgress)
    ensures r.budget == b
    ensures r.remaining == b.limit - r.spent
  {
    match FindCategory(categories, b.categoryId)
    case None => BudgetProgress(b, UnknownCategory, 0, b.limit, 0.0)
    case Some(c) =>
      var spent := Spent(ops, b, c, month);
      BudgetProgress(b, c, spent, b.limit - spent, Percentage(spent, b.limit))
  }

  /** `budgets.filter(b => b.month === month)` */
  function MonthBudgets(budgets: seq<Budget>, month: string): (r: seq<Budget>)
    ensures forall i :: 0 <= i < |r| ==> r[i] in budgets && r[i].month == month
    ensures forall i :: 0 <= i < |budgets| && budgets[i].month == month ==> budgets[i] in r
  {
    FilterMembers(budgets, (b: Budget) => b.month == month);
    Filter(budgets, (b: Budget) => b.month == month)
  }

  /** `budgetProgress`: one entry per budget of the month, in stored order. */
  function BudgetProgressFor(budgets: seq<Budget>, categories: seq<Category>, ops: seq<Operation>, month: string): (r: seq<BudgetProgress>)
    ensures |r| == |MonthBudgets(budgets, month)|
    ensures forall i :: 0 <= i < |r| ==> r[i].budget == MonthBudgets(budgets, month)[i] && r[i].budget.month == month
    ensures forall i :: 0 <= i < |r| ==> r[i] == Progress(MonthBudgets(budgets, month)[i], categories, ops, month)
  {
    var selected := MonthBudgets(budgets, month);
    seq(|selected|, i requires 0 <= i < |selected| => Progress(selected[i], categories, ops, month))
  }

  // ---------------------------------------------------------------------
  // Properties of the aggregation

  /** The entries follow the stored order of the budgets: adding a budget
      adds an entry at the end exactly when it belongs to the month. */
  lemma MonthBudgetsAppend(budgets: seq<Budget>, b: Budget, month: string)
    ensures MonthBudgets(budgets + [b], month)
         == MonthBudgets(budgets, month) + (if b.month == month then [b] else [])
  {
    FilterAppend(budgets, [b], (b: Budget) => b.month == month);
  }

  /** A budget whose category is missing shows nothing spent, its whole
      limit remaining and zero percent. */
  lemma ProgressUnknownCategory(b: Budget, categories: seq<Category>, ops: seq<Operation>, month: string)
    requires !HasKey(categories, CategoryId, b.categoryId)
    ensures Progress(b, categories, ops, month)
         == BudgetProgress(b, UnknownCategory, 0, b.limit, 0.0)
  {
  }

  /** A budget whose category exists shows the first category with its id
      (`find`), the amount spent
      on it, what is left of the limit (possibly negative) and the share
      used. */
  lemma ProgressKnownCategory(b: Budget, categories: seq<Category>, ops: seq<Operation>, month: string)
    requires HasKey(categories, CategoryId, b.categoryId)
    ensures var c := categories[IndexOf(categories, CategoryId, b.categoryId)];
      var p := Progress(b, categories, ops, month);
      && p.category == c
      && p.spent == Spent(ops, b, c, month)
      && p.remaining == b.limit - p.spent
      && p.percentage == Percentage(p.spent, b.limit)
  {
  }

  /** With no operation counting toward the budget, nothing is spent. */
  lemma NothingCountsNothingSpent(ops: seq<Operation>, b: Budget, c: Category, month: string)
    requires forall i :: 0 <= i < |ops| ==> !CountsToward(ops[i], b, c, month)
    ensures Spent(ops, b, c, month) == 0
  {
    FilterNone(ops, (o: Operation) => CountsToward(o, b, c, month));
  }

  /** Adding one operation raises `spent` by its amount when it counts
      toward the budget and leaves it alone otherwise. */
  lemma SpentAppend(ops: seq<Operation>, o: Operation, b: Budget, c: Category, month: string)
    ensures Spent(ops + [o], b, c, month)
         == Spent(ops, b, c, month) + (if CountsToward(o, b, c, month) then o.amount else 0)
  {
    var p := (o: Operation) => CountsToward(o, b, c, month);
    FilterAppend(ops, [o], p);
    TotalAppend(Filter(ops, p), Filter([o], p), Amount);
  }

  /** Income never uses up a budget, whatever its date or category. */
  lemma IncomeNeverSpent(ops: seq<Operation>, o: Operation, b: Budget, c: Category, month: string)
    requires o.kind == Income
    ensures Spent(ops + [o], b, c, month) == Spent(ops, b, c, month)
  {
    SpentAppend(ops, o, b, c, month);
  }

  /** An operation of another month or another category, wherever it is
      inserted, leaves `spent` unchanged. */
  lemma SpentIgnoresUnrelated(xs: seq<Operation>, o: Operation, ys: seq<Operation>, b: Budget, c: Category, month: string)
    requires !StartsWith(o.date, month) || o.categoryId != Some(b.categoryId)
    ensures Spent(xs + [o] + ys, b, c, month) == Spent(xs + ys, b, c, month)
  {
    var p := (o: Operation) => CountsToward(o, b, c, month);
    FilterAppend(xs + [o], ys, p);
    FilterAppend(xs, [o], p);
    FilterAppend(xs, ys, p);
    assert Filter([o], p) == [];
    assert Filter(xs, p) + [] == Filter(xs, p);
  }

  /** Reordering the operations does not change `spent`. */
  lemma SpentPermutation(ops: seq<Operation>, ops': seq<Operation>, b: Budget, c: Category, month: string)
    requires multiset(ops) == multiset(ops')
    ensures Spent(ops, b, c, month) == Spent(ops', b, c, month)
  {
    FilteredTotalPermutation(ops, ops', (o: Operation) => CountsToward(o, b, c, month), Amount);
  }

  /** Within a positive limit the share used is between 0 and 100 percent. */
  lemma PercentageWithinLimit(spent: int, limit: int)
    requires limit > 0 && 0 <= spent <= limit
    ensures 0.0 <= Percentage(spent, limit) <= 100.0
  {
    var q := spent as real / limit as real;
    assert q * limit as real == spent as real;
    assert 0.0 <= q <= 1.0;
  }

  /** Worked figures in cents: a 300.00 limit with 200.00 and 120.00 of
      expenses in March leaves -20.00 and shows 106.67 percent (320/3). */
  lemma OverspentScenario()
    ensures var c := Category("c1", "Продукты", ExpenseCategory, "");
      var b := Budget("b1", "c1", "2024-03", 30000, "");
      var o1 := Operation("o1", Expense, 20000, "a1", Some("c1"), None, "2024-03-02", None, "");
      var o2 := Operation("o2", Expense, 12000, "a1", Some("c1"), None, "2024-03-15", None, "");
      var o3 := Operation("o3", Income, 50000, "a1", Some("c1"), None, "2024-03-20", None, "");
      var o4 := Operation("o4", Expense, 7000, "a1", Some("c1"), None, "2024-04-01", None, "");
      var p := Progress(b, [c], [o1, o2, o3, o4], "2024-03");
      p.spent == 32000 && p.remaining == -2000 && p.percentage == 320.0 / 3.0
  {
    var c := Category("c1", "Продукты", ExpenseCategory, "");
    var b := Budget("b1", "c1", "2024-03", 30000, "");
    var o1 := Operation("o1", Expense, 20000, "a1", Some("c1"), None, "2024-03-02", None, "");
    var o2 := Operation("o2", Expense, 12000, "a1", Some("c1"), None, "2024-03-15", None, "");
    var o3 := Operation("o3", Income, 50000, "a1", Some("c1"), None, "2024-03-20", None, "");
    var o4 := Operation("o4", Expense, 7000, "a1", Some("c1"), None, "2024-04-01", None, "");
    var p := (o: Operation) => CountsToward(o, b, c, "2024-03");
    assert FindCategory([c], "c1") == Some(c);
    assert p(o1) && p(o2) && !p(o3);
    assert !StartsWith(o4.date, "2024-03") by {
      assert o4.date[6] != "2024-03"[6];
    }
    assert Filter([o4], p) == [];
    assert Filter([o3, o4], p) == [] by {
      assert [o3, o4][1..] == [o4];
    }
    assert Filter([o2, o3, o4], p) == [o2] by {
      assert [o2, o3, o4][1..] == [o3, o4];
    }
    assert Filter([o1, o2, o3, o4], p) == [o1, o2] by {
      assert [o1, o2, o3, o4][1..] == [o2, o3, o4];
    }
    assert Total([o1, o2], Amount) == 32000 by {
      assert [o1, o2][1..] == [o2];
      assert Total([o2], Amount) == 12000 by {
        assert [o2][1..] == [];
      }
    }
  }

  // ---------------------------------------------------------------------
  // The budget form

  /** The form's fields; `limit` is the parsed amount in cents, `None`
      when it does not parse. */
  datatype BudgetForm = BudgetForm(categoryId: string, month: string, limit: Option<int>)

  datatype BudgetFormError = IncompleteBudget | DuplicateBudget

  /** Some fields are empty, or the limit is not a positive number. */
  predicate IncompleteBudgetForm(f: BudgetForm) {
    f.categoryId == "" || f.month == "" || f.limit.None? || f.limit.value <= 0
  }

  /** Another budget (any budget when creating) has the same category and
      month. */
  predicate Clashes(b: Budget, f: BudgetForm, editingId: Option<Id>) {
    b.categoryId == f.categoryId && b.month == f.month && Some(b.id) != editingId
  }

  /** The checks of `handleSubmit` and the record it sends. */
  function ValidateBudget(f: BudgetForm, budgets: seq<Budget>, editingId: Option<Id>): (r: Result<BudgetDraft, BudgetFormError>)
    ensures r == Err(IncompleteBudget) <==> IncompleteBudgetForm(f)
    ensures r == Err(DuplicateBudget)
        <==> !IncompleteBudgetForm(f) && exists i :: 0 <= i < |budgets| && Clashes(budgets[i], f, editingId)
    ensures r.Ok? ==> r.value.limit > 0 && r.value.categoryId != "" && r.value.month != ""
  {
    if IncompleteBudgetForm(f) then Err(IncompleteBudget)
    else if exists i :: 0 <= i < |budgets| && Clashes(budgets[i], f, editingId) then Err(DuplicateBudget)
    else Ok(BudgetDraft(f.categoryId, f.month, f.limit.value))
  }

  /** The patch an accepted edit sends. */
  function DraftBudgetPatch(d: BudgetDraft): BudgetPatch {
    BudgetPatch(Some(d.categoryId), Some(d.month), Some(d.limit))
  }

  /** At most one budget per category and month. */
  predicate PairsUnique(budgets: seq<Budget>) {
    forall i, j :: 0 <= i < j < |budgets| ==>
      budgets[i].categoryId != budgets[j].categoryId || budgets[i].month != budgets[j].month
  }

  /** A budget created through the form keeps categories and months
      paired with at most one budget. */
  lemma CreateKeepsPairsUnique(budgets: seq<Budget>, f: BudgetForm, id: Id, createdAt: string)
    requires PairsUnique(budgets)
    requires ValidateBudget(f, budgets, None).Ok?
    ensures var d := ValidateBudget(f, budgets, None).value;
      PairsUnique(budgets + [Budget(id, d.categoryId, d.month, d.limit, createdAt)])
  {
    var d := ValidateBudget(f, budgets, None).value;
    var s := budgets + [Budget(id, d.categoryId, d.month, d.limit, createdAt)];
    forall i, j | 0 <= i < j < |s| ensures s[i].categoryId != s[j].categoryId || s[i].month != s[j].month {
      if j == |budgets| {
        assert !Clashes(budgets[i], f, None);
      }
    }
  }

  /** An edit accepted by the form, applied to the budget being edited,
      keeps categories and months paired with at most one budget. */
  lemma EditKeepsPairsUnique(budgets: seq<Budget>, f: BudgetForm, id: Id)
    requires PairsUnique(budgets) && Unique(budgets, BudgetId)
    requires HasKey(budgets, BudgetId, id)
    requires ValidateBudget(f, budgets, Some(id)).Ok?
    ensures var d := ValidateBudget(f, budgets, Some(id)).value;
      var k := IndexOf(budgets, BudgetId, id);
      PairsUnique(budgets[k := MergeBudget(budgets[k], DraftBudgetPatch(d))])
  {
    var d := ValidateBudget(f, budgets, Some(id)).value;
    var k := IndexOf(budgets, BudgetId, id);
    var s := budgets[k := MergeBudget(budgets[k], DraftBudgetPatch(d))];
    forall i, j | 0 <= i < j < |s| ensures s[i].categoryId != s[j].categoryId || s[i].month != s[j].month {
      if i == k {
        assert !Clashes(budgets[j], f, Some(id));
        assert BudgetId(budgets[j]) != BudgetId(budgets[k]);
      } else if j == k {
        assert !Clashes(budgets[i], f, Some(id));
        assert BudgetId(budgets[i]) != BudgetId(budgets[k]);
      }
    }
  }
}
