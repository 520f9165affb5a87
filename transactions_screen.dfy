/** The Transactions screen: the filtered and sorted list with its income and
    expense totals, and multi-selection with bulk deletion. */
module Transactions {
  import opened Wrappers
  import opened Models
  import opened Keyed
  import opened Queries
  import opened Selection
  import opened Store

  class TransactionsScreen {
    const realm: Realm
    var transactions: seq<Transaction>
    var accounts: seq<Account>
    var sortOption: SortOption
    var filterOption: TypeFilter
    var selectedAccount: string
    var incomeTotal: real
    var expenseTotal: real
    var isSelectionMode: bool
    var selectedTransactions: seq<Id>

    /** What the screen shows agrees with the store for the current filters:
        the list, the two totals over that list, and the account picker. */
    ghost predicate ShowsStore()
      reads this, realm
    {
      && transactions == ListTransactions(realm.transactions, realm.accounts, filterOption, selectedAccount, sortOption)
      && incomeTotal == TypeTotal(transactions, Income)
      && expenseTotal == TypeTotal(transactions, Expense)
      && accounts == realm.accounts
    }

    /** The initial state of the hooks, before the first effect. */
    constructor (realm: Realm)
      ensures this.realm == realm
      ensures transactions == [] && accounts == []
      ensures sortOption == ByDate && filterOption == AllTypes && selectedAccount == ALL
      ensures incomeTotal == 0.0 && expenseTotal == 0.0
      ensures !isSelectionMode && selectedTransactions == []
    {
      this.realm := realm;
      transactions, accounts := [], [];
      sortOption, filterOption, selectedAccount := ByDate, AllTypes, ALL;
      incomeTotal, expenseTotal := 0.0, 0.0;
      isSelectionMode, selectedTransactions := false, [];
    }

    /** `fetchAccounts`: the account picker lists the store's accounts. */
    method FetchAccounts()
      modifies this`accounts
      ensures accounts == realm.accounts
    {
      accounts := realm.accounts;
    }

    /** `calculateTotals(results)`: the income and expense totals of the list. */
    method CalculateTotals(results: seq<Transaction>)
      modifies this`incomeTotal, this`expenseTotal
      ensures incomeTotal == TypeTotal(results, Income) && expenseTotal == TypeTotal(results, Expense)
      ensures incomeTotal + expenseTotal + SumAmounts(Untyped(results)) == SumAmounts(results)
    {
      incomeTotal := TypeTotal(results, Income);
      expenseTotal := TypeTotal(results, Expense);
      TotalsPartition(results);
    }

    /** `fetchTransactions`: the store's transactions of the chosen kind and
        account, newest or largest first, with their totals. This is also what
        the change listener on the transaction collection runs. */
    method FetchTransactions()
      modifies this`transactions, this`incomeTotal, this`expenseTotal
      ensures transactions == ListTransactions(realm.transactions, realm.accounts, filterOption, selectedAccount, sortOption)
      ensures incomeTotal == TypeTotal(transactions, Income) && expenseTotal == TypeTotal(transactions, Expense)
      ensures NonIncreasing(transactions, sortOption)
      ensures forall t :: t in transactions <==>
                t in realm.transactions && MatchesType(t, filterOption) && MatchesAccount(t, realm.accounts, selectedAccount)
    {
      var results := ListTransactions(realm.transactions, realm.accounts, filterOption, selectedAccount, sortOption);
      ListTransactionsCorrect(realm.transactions, realm.accounts, filterOption, selectedAccount, sortOption);
      transactions := results;
      CalculateTotals(results);
    }

    /** The effect that runs on mount and whenever a filter or the sort order changes. */
    method Refresh()
      modifies this`accounts, this`transactions, this`incomeTotal, this`expenseTotal
      ensures ShowsStore()
    {
      FetchAccounts();
      FetchTransactions();
    }

    method SetSortOption(o: SortOption)
      modifies this
      ensures sortOption == o && filterOption == old(filterOption) && selectedAccount == old(selectedAccount)
      ensures isSelectionMode == old(isSelectionMode) && selectedTransactions == old(selectedTransactions)
      ensures ShowsStore()
    {
      sortOption := o;
      Refresh();
    }

    method SetFilterOption(f: TypeFilter)
      modifies this
      ensures filterOption == f && sortOption == old(sortOption) && selectedAccount == old(selectedAccount)
      ensures isSelectionMode == old(isSelectionMode) && selectedTransactions == old(selectedTransactions)
      ensures ShowsStore()
    {
      filterOption := f;
      Refresh();
    }

    method SetSelectedAccount(name: string)
      modifies this
      ensures selectedAccount == name && sortOption == old(sortOption) && filterOption == old(filterOption)
      ensures isSelectionMode == old(isSelectionMode) && selectedTransactions == old(selectedTransactions)
      ensures ShowsStore()
    {
      selectedAccount := name;
      Refresh();
    }

    /** A long press: flips selection mode and clears the selection either way. */
    method ToggleSelectionMode()
      modifies this`isSelectionMode, this`selectedTransactions
      ensures isSelectionMode == !old(isSelectionMode) && selectedTransactions == []
    {
      isSelectionMode := !isSelectionMode;
      selectedTransactions := [];
    }

    /** A tap in selection mode: selects or deselects one transaction. */
    method ToggleTransactionSelection(id: Id)
      modifies this`selectedTransactions
      ensures selectedTransactions == Toggle(old(selectedTransactions), id)
      ensures NoDuplicates(old(selectedTransactions)) ==> NoDuplicates(selectedTransactions)
      ensures forall x :: x in selectedTransactions <==> (x in old(selectedTransactions) <==> x != id)
    {
      if NoDuplicates(selectedTransactions) {
        ToggleKeepsNoDuplicates(selectedTransactions, id);
      }
      selectedTransactions := Toggle(selectedTransactions, id);
    }

    /** The write transaction of the bulk delete: for each id in order, the
        transaction with that primary key is deleted if it exists. */
    method WriteDeletions(ids: seq<Id>)
      requires realm.Valid()
      modifies realm
      ensures realm.Valid()
      ensures realm.transactions == Retained(old(realm.transactions), TransactionId, ids)
      ensures forall id :: id in ids ==> realm.FindTransaction(id).None?
      ensures realm.accounts == old(realm.accounts) && realm.categories == old(realm.categories)
      ensures realm.nextId == old(realm.nextId)
      ensures old(realm.Consistent()) ==> realm.Consistent()
    {
      RetainedNone(realm.transactions, TransactionId);
      var i := 0;
      while i < |ids|
        invariant 0 <= i <= |ids|
        invariant realm.Valid()
        invariant realm.transactions == Retained(old(realm.transactions), TransactionId, ids[..i])
        invariant realm.accounts == old(realm.accounts) && realm.categories == old(realm.categories)
        invariant realm.nextId == old(realm.nextId)
      {
        var id := ids[i];
        RetainedThenRemove(old(realm.transactions), TransactionId, ids[..i], id);
        assert ids[..i + 1] == ids[..i] + [id];
        realm.DeleteTransaction(id);
        i := i + 1;
      }
      assert ids[..|ids|] == ids;
      RetainedDropsKeys(old(realm.transactions), TransactionId, ids);
      if old(realm.Consistent()) {
        RetainedTransactionsConsistent(old(realm.State()), ids);
        assert realm.State() == old(realm.State()).(transactions := Retained(old(realm.transactions), TransactionId, ids));
      }
    }

    /** The "Delete" button of the confirmation alert (cancelling it changes
        nothing): the selected transactions that still exist are deleted in one
        write, the list is refreshed and selection mode ends. */
    method DeleteSelectedTransactions()
      requires realm.Valid()
      modifies this, realm
      ensures realm.Valid()
      ensures realm.transactions == Retained(old(realm.transactions), TransactionId, old(selectedTransactions))
      ensures forall id :: id in old(selectedTransactions) ==> realm.FindTransaction(id).None?
      ensures realm.accounts == old(realm.accounts) && realm.categories == old(realm.categories)
      ensures realm.nextId == old(realm.nextId)
      ensures !isSelectionMode && selectedTransactions == []
      ensures sortOption == old(sortOption) && filterOption == old(filterOption) && selectedAccount == old(selectedAccount)
      ensures accounts == old(accounts)
      ensures transactions == ListTransactions(realm.transactions, realm.accounts, filterOption, selectedAccount, sortOption)
      ensures incomeTotal == TypeTotal(transactions, Income) && expenseTotal == TypeTotal(transactions, Expense)
      ensures old(realm.Consistent()) ==> realm.Consistent()
    {
      WriteDeletions(selectedTransactions);
      FetchTransactions();
      isSelectionMode := false;
      selectedTransactions := [];
    }
  }
}
