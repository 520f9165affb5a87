/** The Budget overview screen: totals and per-category breakdown over the
    transactions of the selected accounts, the balance and the income/expense
    shares of the progress bar. */
module Overview {
  import opened Wrappers
  import opened Models
  import opened Keyed
  import opened Queries
  import opened Store

  /** All transactions when no account is selected, otherwise those whose
      account id is selected (`filtered('account._id IN $0', ids)`). */
  function Considered(ts: seq<Transaction>, selected: seq<Id>): (r: seq<Transaction>)
    ensures |selected| == 0 ==> r == ts
    ensures forall t :: t in r <==> t in ts && (|selected| == 0 || t.account in selected)
  {
    if |selected| == 0 then ts else OfAccounts(ts, selected)
  }

  function OfAccounts(ts: seq<Transaction>, selected: seq<Id>): (r: seq<Transaction>)
    ensures forall t :: t in r <==> t in ts && t.account in selected
  {
    if |ts| == 0 then []
    else (if ts[0].account in selected then [ts[0]] else []) + OfAccounts(ts[1..], selected)
  }

  /** The account filter keeps each transaction on a selected account exactly
      as often as it is stored, and no other. */
  lemma {:induction false} OfAccountsMultiset(ts: seq<Transaction>, selected: seq<Id>)
    ensures forall t :: multiset(OfAccounts(ts, selected))[t] == if t.account in selected then multiset(ts)[t] else 0
  {
    if |ts| > 0 {
      OfAccountsMultiset(ts[1..], selected);
      assert ts == [ts[0]] + ts[1..];
    }
  }

  /** The account filter keeps store order: it distributes over concatenation. */
  lemma {:induction false} OfAccountsAppend(a: seq<Transaction>, b: seq<Transaction>, selected: seq<Id>)
    ensures OfAccounts(a + b, selected) == OfAccounts(a, selected) + OfAccounts(b, selected)
  {
    if |a| > 0 {
      OfAccountsAppend(a[1..], b, selected);
      assert (a + b)[1..] == a[1..] + b;
    } else {
      assert a + b == b;
    }
  }

  /** Every considered transaction counts exactly as often as it is stored:
      all of them with no selection, those on a selected account otherwise. */
  lemma ConsideredMultiset(ts: seq<Transaction>, selected: seq<Id>)
    ensures forall t :: multiset(Considered(ts, selected))[t] ==
                        if |selected| == 0 || t.account in selected then multiset(ts)[t] else 0
  {
    OfAccountsMultiset(ts, selected);
  }

  /** `transaction.category.name`. */
  function CategoryNameOf(categories: seq<Category>, id: Id): Option<string> {
    match Find(categories, CategoryId, id)
    case None => None
    case Some(c) => Some(c.name)
  }

  /** Whether `t` belongs to the breakdown entry `name` of kind `k`: grouping is by
      category name, so same-named categories share one entry. */
  predicate InGroup(t: Transaction, categories: seq<Category>, k: TxType, name: string) {
    t.kind == Some(k) && CategoryNameOf(categories, t.category) == Some(name)
  }

  /** The sum of `amount` over the transactions of kind `k` in category `name`. */
  function GroupTotal(ts: seq<Transaction>, categories: seq<Category>, k: TxType, name: string): real {
    if |ts| == 0 then 0.0
    else
      var t := ts[|ts| - 1];
      GroupTotal(ts[..|ts| - 1], categories, k, name) + (if InGroup(t, categories, k, name) then t.amount else 0.0)
  }

  /** The category names with at least one transaction of kind `k`. */
  function GroupNames(ts: seq<Transaction>, categories: seq<Category>, k: TxType): set<string> {
    if |ts| == 0 then {}
    else
      var t := ts[|ts| - 1];
      GroupNames(ts[..|ts| - 1], categories, k) +
        (if t.kind == Some(k) && CategoryNameOf(categories, t.category).Some?
         then {CategoryNameOf(categories, t.category).value} else {})
  }

  /** The breakdown of kind `k`: one entry per category name that occurs, holding that group's total. */
  function Breakdown(ts: seq<Transaction>, categories: seq<Category>, k: TxType): map<string, real> {
    map n | n in GroupNames(ts, categories, k) :: GroupTotal(ts, categories, k, n)
  }

  /** Every transaction's category resolves (the screen reads `transaction.category.name`). */
  ghost predicate CategoriesResolve(ts: seq<Transaction>, categories: seq<Category>) {
    forall i :: 0 <= i < |ts| ==> CategoryNameOf(categories, ts[i].category).Some?
  }

  /** One more transaction adds its amount to its own entry, creating the entry
      if needed; a transaction of the other kind or of no kind changes nothing. */
  lemma BreakdownSnoc(ts: seq<Transaction>, t: Transaction, categories: seq<Category>, k: TxType)
    ensures var b := Breakdown(ts, categories, k);
            var name := CategoryNameOf(categories, t.category);
            Breakdown(ts + [t], categories, k) ==
              if t.kind == Some(k) && name.Some?
              then b[name.value := (if name.value in b then b[name.value] else 0.0) + t.amount]
              else b
  {
    var ts' := ts + [t];
    assert ts'[..|ts'| - 1] == ts;
    var name := CategoryNameOf(categories, t.category);
    if t.kind == Some(k) && name.Some? {
      var b := Breakdown(ts, categories, k);
      var updated := b[name.value := (if name.value in b then b[name.value] else 0.0) + t.amount];
      assert Breakdown(ts', categories, k).Keys == updated.Keys;
      forall n | n in updated ensures Breakdown(ts', categories, k)[n] == updated[n] {
        if n != name.value {
          assert !InGroup(t, categories, k, n);
        } else if name.value !in b {
          GroupTotalAbsent(ts, categories, k, n);
        }
      }
    }
  }

  /** A name that does not occur has a zero group total. */
  lemma {:induction false} GroupTotalAbsent(ts: seq<Transaction>, categories: seq<Category>, k: TxType, name: string)
    requires name !in GroupNames(ts, categories, k)
    ensures GroupTotal(ts, categories, k, name) == 0.0
  {
    if |ts| > 0 {
      GroupTotalAbsent(ts[..|ts| - 1], categories, k, name);
    }
  }

  lemma BreakdownEmpty(categories: seq<Category>, k: TxType)
    ensures Breakdown([], categories, k) == map[]
  {
    assert Breakdown([], categories, k).Keys == {};
  }

  /** A name appears in a breakdown exactly when some considered transaction of
      that kind has a category of that name; each name appears once (map key). */
  lemma {:induction false} BreakdownKeys(ts: seq<Transaction>, categories: seq<Category>, k: TxType, name: string)
    ensures name in Breakdown(ts, categories, k) <==> exists i :: 0 <= i < |ts| && InGroup(ts[i], categories, k, name)
  {
    if |ts| > 0 {
      var n := |ts| - 1;
      BreakdownKeys(ts[..n], categories, k, name);
      if exists i :: 0 <= i < |ts| && InGroup(ts[i], categories, k, name) {
        var i :| 0 <= i < |ts| && InGroup(ts[i], categories, k, name);
        if i < n {
          assert ts[..n][i] == ts[i];
        }
      }
      if exists i :: 0 <= i < n && InGroup(ts[..n][i], categories, k, name) {
        var i :| 0 <= i < n && InGroup(ts[..n][i], categories, k, name);
        assert ts[i] == ts[..n][i];
      }
    }
  }

  /** The sum of the entries named in `names`. */
  function SumEntries(names: seq<string>, b: map<string, real>): real {
    if |names| == 0 then 0.0 else (if names[0] in b then b[names[0]] else 0.0) + SumEntries(names[1..], b)
  }

  /** The sum of the group totals of the names in `names`. */
  function SumGroups(names: seq<string>, ts: seq<Transaction>, categories: seq<Category>, k: TxType): real {
    if |names| == 0 then 0.0 else GroupTotal(ts, categories, k, names[0]) + SumGroups(names[1..], ts, categories, k)
  }

  ghost predicate DistinctNames(names: seq<string>) {
    forall i, j :: 0 <= i < j < |names| ==> names[i] != names[j]
  }

  /** Over distinct names, the one-transaction contributions add up to that
      transaction's amount when its name is among them, and to 0 otherwise. */
  lemma {:induction false} SumGroupsSnoc(names: seq<string>, ts: seq<Transaction>, t: Transaction, categories: seq<Category>, k: TxType)
    requires DistinctNames(names)
    ensures SumGroups(names, ts + [t], categories, k) == SumGroups(names, ts, categories, k) +
      (if t.kind == Some(k) && CategoryNameOf(categories, t.category).Some? &&
          CategoryNameOf(categories, t.category).value in names then t.amount else 0.0)
  {
    var ts' := ts + [t];
    assert ts'[..|ts'| - 1] == ts;
    if |names| > 0 {
      assert DistinctNames(names[1..]) by {
        forall i, j | 0 <= i < j < |names| - 1 ensures names[1..][i] != names[1..][j] {
          assert names[1..][i] == names[i + 1] && names[1..][j] == names[j + 1];
        }
      }
      SumGroupsSnoc(names[1..], ts, t, categories, k);
      var name := CategoryNameOf(categories, t.category);
      if name.Some? && name.value == names[0] {
        forall j | 0 <= j < |names| - 1 ensures names[1..][j] != names[0] {
          assert names[1..][j] == names[j + 1];
        }
      }
      assert forall x :: x in names <==> x == names[0] || x in names[1..] by {
        assert names == [names[0]] + names[1..];
      }
    }
  }

  /** Over distinct names that cover every group, the group totals add up to the kind's total. */
  lemma {:induction false} SumGroupsIsTypeTotal(names: seq<string>, ts: seq<Transaction>, categories: seq<Category>, k: TxType)
    requires DistinctNames(names) && CategoriesResolve(ts, categories)
    requires forall n :: n in GroupNames(ts, categories, k) ==> n in names
    ensures SumGroups(names, ts, categories, k) == TypeTotal(ts, k)
  {
    if |ts| == 0 {
      SumGroupsOfNothing(names, categories, k);
    } else {
      var n := |ts| - 1;
      var t := ts[n];
      assert ts == ts[..n] + [t];
      assert CategoriesResolve(ts[..n], categories) by {
        forall i | 0 <= i < n ensures CategoryNameOf(categories, ts[..n][i].category).Some? {
          assert ts[..n][i] == ts[i];
        }
      }
      SumGroupsIsTypeTotal(names, ts[..n], categories, k);
      SumGroupsSnoc(names, ts[..n], t, categories, k);
      TypeTotalSnoc(ts[..n], t, k);
      assert CategoryNameOf(categories, t.category).Some?;
    }
  }

  lemma {:induction false} SumGroupsOfNothing(names: seq<string>, categories: seq<Category>, k: TxType)
    ensures SumGroups(names, [], categories, k) == 0.0
  {
    if |names| > 0 {
      SumGroupsOfNothing(names[1..], categories, k);
    }
  }

  lemma {:induction false} SumEntriesOfBreakdown(names: seq<string>, ts: seq<Transaction>, categories: seq<Category>, k: TxType)
    requires forall n :: n in names ==> n in Breakdown(ts, categories, k)
    ensures SumEntries(names, Breakdown(ts, categories, k)) == SumGroups(names, ts, categories, k)
  {
    if |names| > 0 {
      assert names[0] in names;
      SumEntriesOfBreakdown(names[1..], ts, categories, k);
    }
  }

  /** The breakdown entries, listed in any order without repetition, add up to
      the kind's total: the income entries to the income total, the expense
      entries to the expense total. */
  lemma BreakdownSumsToTotal(names: seq<string>, ts: seq<Transaction>, categories: seq<Category>, k: TxType)
    requires CategoriesResolve(ts, categories)
    requires DistinctNames(names)
    requires forall n :: n in names <==> n in Breakdown(ts, categories, k)
    ensures SumEntries(names, Breakdown(ts, categories, k)) == TypeTotal(ts, k)
  {
    SumEntriesOfBreakdown(names, ts, categories, k);
    SumGroupsIsTypeTotal(names, ts, categories, k);
  }

  /** `income - expenses`. */
  function Balance(income: real, expenses: real): real {
    income - expenses
  }

  /** Income amounts counted positive, expense amounts negative, untyped ones not at all. */
  function NetFlow(ts: seq<Transaction>): real {
    if |ts| == 0 then 0.0
    else
      var t := ts[|ts| - 1];
      NetFlow(ts[..|ts| - 1]) + (match t.kind case Some(Income) => t.amount case Some(Expense) => -t.amount case None => 0.0)
  }

  /** The balance is the net flow of the considered transactions. */
  lemma {:induction false} BalanceIsNetFlow(ts: seq<Transaction>)
    ensures Balance(TypeTotal(ts, Income), TypeTotal(ts, Expense)) == NetFlow(ts)
  {
    if |ts| > 0 {
      var n := |ts| - 1;
      assert ts == ts[..n] + [ts[n]];
      BalanceIsNetFlow(ts[..n]);
      TypeTotalSnoc(ts[..n], ts[n], Income);
      TypeTotalSnoc(ts[..n], ts[n], Expense);
    }
  }

  /** `income / total`, defined when the total is not zero. */
  function IncomeShare(income: real, expenses: real): real
    requires income + expenses != 0.0
  {
    income / (income + expenses)
  }

  /** `expenses / total`, defined when the total is not zero. */
  function ExpenseShare(income: real, expenses: real): real
    requires income + expenses != 0.0
  {
    expenses / (income + expenses)
  }

  /** The two shares of the progress bar fill it exactly. */
  lemma SharesSumToOne(income: real, expenses: real)
    requires income + expenses != 0.0
    ensures IncomeShare(income, expenses) + ExpenseShare(income, expenses) == 1.0
  {
    var total := income + expenses;
    assert income / total + expenses / total == (income + expenses) / total;
  }

  /** With non-negative totals, each share lies between 0 and 1. */
  lemma SharesBounded(income: real, expenses: real)
    requires income >= 0.0 && expenses >= 0.0 && income + expenses > 0.0
    ensures 0.0 <= IncomeShare(income, expenses) <= 1.0
    ensures 0.0 <= ExpenseShare(income, expenses) <= 1.0
  {
    var total := income + expenses;
    SharesSumToOne(income, expenses);
    assert IncomeShare(income, expenses) == income / total;
    assert ExpenseShare(income, expenses) == expenses / total;
    assert income / total >= 0.0 && expenses / total >= 0.0;
  }

  /** One step of the `calculateTotals` loop on one dictionary: an absent or
      zero entry restarts at 0, then the amount is added. */
  function Accumulate(m: map<string, real>, name: string, amount: real): (r: map<string, real>)
    ensures r.Keys == m.Keys + {name}
    ensures r[name] == (if name in m then m[name] else 0.0) + amount
    ensures forall n :: n in m && n != name ==> r[n] == m[n]
  {
    var m' := if name !in m || m[name] == 0.0 then m[name := 0.0] else m;
    m'[name := m'[name] + amount]
  }

  /** The loop's step agrees with the breakdown of one more transaction. */
  lemma BreakdownStep(ts: seq<Transaction>, i: nat, categories: seq<Category>, k: TxType)
    requires i < |ts| && CategoryNameOf(categories, ts[i].category).Some?
    ensures var b := Breakdown(ts[..i], categories, k);
            Breakdown(ts[..i + 1], categories, k) ==
              if ts[i].kind == Some(k) then Accumulate(b, CategoryNameOf(categories, ts[i].category).value, ts[i].amount)
              else b
  {
    assert ts[..i + 1] == ts[..i] + [ts[i]];
    BreakdownSnoc(ts[..i], ts[i], categories, k);
  }

  /** In a consistent store every considered transaction's category resolves. */
  lemma ConsideredResolve(db: Db, selected: seq<Id>)
    requires DbConsistent(db)
    ensures CategoriesResolve(Considered(db.transactions, selected), db.categories)
  {
    var ts := Considered(db.transactions, selected);
    forall i | 0 <= i < |ts| ensures CategoryNameOf(db.categories, ts[i].category).Some? {
      assert ts[i] in db.transactions;
      var j :| 0 <= j < |db.transactions| && db.transactions[j] == ts[i];
    }
  }

  /** The `forEach` of `calculateTotals`: one pass over the considered
      transactions filling the income and expense dictionaries by category name. */
  method AccumulateByCategory(ts: seq<Transaction>, categories: seq<Category>)
    returns (incomeMap: map<string, real>, expenseMap: map<string, real>)
    requires CategoriesResolve(ts, categories)
    ensures incomeMap == Breakdown(ts, categories, Income)
    ensures expenseMap == Breakdown(ts, categories, Expense)
  {
    incomeMap, expenseMap := map[], map[];
    BreakdownEmpty(categories, Income);
    BreakdownEmpty(categories, Expense);
    var i := 0;
    while i < |ts|
      invariant 0 <= i <= |ts|
      invariant incomeMap == Breakdown(ts[..i], categories, Income)
      invariant expenseMap == Breakdown(ts[..i], categories, Expense)
    {
      var t := ts[i];
      var name := CategoryNameOf(categories, t.category).value;
      BreakdownStep(ts, i, categories, Income);
      BreakdownStep(ts, i, categories, Expense);
      if t.kind == Some(Income) {
        incomeMap := Accumulate(incomeMap, name, t.amount);
      } else if t.kind == Some(Expense) {
        expenseMap := Accumulate(expenseMap, name, t.amount);
      }
      i := i + 1;
    }
    assert ts[..|ts|] == ts;
  }

  class BudgetOverviewScreen {
    const realm: Realm
    var selectedAccounts: seq<Id>
    var income: real
    var expenses: real
    var incomeCategoryTotals: map<string, real>
    var expenseCategoryTotals: map<string, real>
    var isModalVisible: bool

    constructor (realm: Realm)
      ensures this.realm == realm
      ensures selectedAccounts == [] && income == 0.0 && expenses == 0.0
      ensures incomeCategoryTotals == map[] && expenseCategoryTotals == map[] && !isModalVisible
    {
      this.realm := realm;
      selectedAccounts, income, expenses := [], 0.0, 0.0;
      incomeCategoryTotals, expenseCategoryTotals := map[], map[];
      isModalVisible := false;
    }

    /** `calculateTotals`: totals over the considered transactions, then one pass
        accumulating the two per-category-name dictionaries. */
    method CalculateTotals()
      requires realm.Valid() && realm.Consistent()
      modifies this
      ensures selectedAccounts == old(selectedAccounts) && isModalVisible == old(isModalVisible)
      ensures var ts := Considered(realm.transactions, selectedAccounts);
              && income == TypeTotal(ts, Income)
              && expenses == TypeTotal(ts, Expense)
              && incomeCategoryTotals == Breakdown(ts, realm.categories, Income)
              && expenseCategoryTotals == Breakdown(ts, realm.categories, Expense)
    {
      var ts := Considered(realm.transactions, selectedAccounts);
      var totalIncome := TypeTotal(ts, Income);
      var totalExpenses := TypeTotal(ts, Expense);
      ConsideredResolve(realm.State(), selectedAccounts);
      var incomeMap, expenseMap := AccumulateByCategory(ts, realm.categories);
      income, expenses := totalIncome, totalExpenses;
      incomeCategoryTotals, expenseCategoryTotals := incomeMap, expenseMap;
    }

    /** The account selection modal's `onSelect` followed by the effect that
        recomputes the totals for the new selection. */
    method SetSelectedAccounts(ids: seq<Id>)
      requires realm.Valid() && realm.Consistent()
      modifies this
      ensures selectedAccounts == ids && isModalVisible == old(isModalVisible)
      ensures var ts := Considered(realm.transactions, ids);
              && income == TypeTotal(ts, Income)
              && expenses == TypeTotal(ts, Expense)
              && incomeCategoryTotals == Breakdown(ts, realm.categories, Income)
              && expenseCategoryTotals == Breakdown(ts, realm.categories, Expense)
    {
      selectedAccounts := ids;
      CalculateTotals();
    }

    /** The bank icon: shows the account selection modal. */
    method OpenAccountSelection()
      modifies this`isModalVisible
      ensures isModalVisible
    {
      isModalVisible := true;
    }

    /** The modal's `onClose`. */
    method CloseAccountSelection()
      modifies this`isModalVisible
      ensures !isModalVisible
    {
      isModalVisible := false;
    }
  }

  /** A three-transaction store: two transactions on account 20, one on account 21. */
  const SCENARIO_CATEGORIES: seq<Category> :=
    [Category(10, "Groceries", Expense), Category(11, "Salary", Income), Category(12, "Bills", Expense)]
  const GROCERIES_ON_A: Transaction := Transaction(1, Some(Expense), 0, 100.50, 10, 20, None, None, None, None)
  const SALARY_ON_A: Transaction := Transaction(2, Some(Income), 0, 200.00, 11, 20, None, None, None, None)
  const BILLS_ON_B: Transaction := Transaction(3, Some(Expense), 0, 50.00, 12, 21, None, None, None, None)

  /** Selecting account 20 keeps its two transactions, in store order. */
  lemma ScenarioConsidered()
    ensures Considered([GROCERIES_ON_A, SALARY_ON_A, BILLS_ON_B], [20]) == [GROCERIES_ON_A, SALARY_ON_A]
  {
    var t1, t2, t3 := GROCERIES_ON_A, SALARY_ON_A, BILLS_ON_B;
    assert [t1, t2, t3][1..] == [t2, t3] && [t2, t3][1..] == [t3] && [t3][1..] == [];
    assert 21 !in [20] && 20 in [20];
    assert OfAccounts([t3], [20]) == [];
    assert OfAccounts([t2, t3], [20]) == [t2] + OfAccounts([t3], [20]);
    assert OfAccounts([t1, t2, t3], [20]) == [t1] + OfAccounts([t2, t3], [20]);
  }

  /** Its totals are 200 income and 100.50 expense. */
  lemma ScenarioTotals()
    ensures TypeTotal([GROCERIES_ON_A, SALARY_ON_A], Income) == 200.00
    ensures TypeTotal([GROCERIES_ON_A, SALARY_ON_A], Expense) == 100.50
  {
    var t1, t2 := GROCERIES_ON_A, SALARY_ON_A;
    assert [t1] + [t2] == [t1, t2];
    assert [] + [t1] == [t1];
    TypeTotalEmpty(Income);
    TypeTotalEmpty(Expense);
    TypeTotalSnoc([], t1, Income);
    TypeTotalSnoc([], t1, Expense);
    TypeTotalSnoc([t1], t2, Income);
    TypeTotalSnoc([t1], t2, Expense);
  }

  /** Its breakdowns are {Salary: 200} and {Groceries: 100.50}. */
  lemma ScenarioBreakdowns()
    ensures Breakdown([GROCERIES_ON_A, SALARY_ON_A], SCENARIO_CATEGORIES, Income) == map["Salary" := 200.00]
    ensures Breakdown([GROCERIES_ON_A, SALARY_ON_A], SCENARIO_CATEGORIES, Expense) == map["Groceries" := 100.50]
  {
    var t1, t2 := GROCERIES_ON_A, SALARY_ON_A;
    var categories := SCENARIO_CATEGORIES;
    assert CategoryNameOf(categories, 10) == Some("Groceries");
    assert CategoryNameOf(categories, 11) == Some("Salary");
    BreakdownEmpty(categories, Income);
    BreakdownEmpty(categories, Expense);
    assert [] + [t1] == [t1];
    BreakdownSnoc([], t1, categories, Income);
    BreakdownSnoc([], t1, categories, Expense);
    assert [t1] + [t2] == [t1, t2];
    BreakdownSnoc([t1], t2, categories, Income);
    BreakdownSnoc([t1], t2, categories, Expense);
  }
}
