/** The account selection modal of the Budget overview: a multi-select list of
    accounts whose "Select" button hands the chosen ids to the overview. */
module AccountSelection {
  import opened Models
  import opened Queries
  import opened Selection
  import opened Store
  import opened Overview

  class AccountSelectionModal {
    const realm: Realm
    var accounts: seq<Account>
    var selectedAccounts: seq<Id>

    constructor (realm: Realm)
      ensures this.realm == realm && accounts == [] && selectedAccounts == []
    {
      this.realm := realm;
      accounts, selectedAccounts := [], [];
    }

    /** The mount effect: lists the store's accounts. */
    method FetchAccounts()
      modifies this`accounts
      ensures accounts == realm.accounts
    {
      accounts := realm.accounts;
    }

    /** A tap on an account row: marks or unmarks it as selected. */
    method ToggleAccountSelection(id: Id)
      modifies this`selectedAccounts
      ensures selectedAccounts == Toggle(old(selectedAccounts), id)
      ensures forall x :: x in selectedAccounts <==> (x in old(selectedAccounts) <==> x != id)
      ensures NoDuplicates(old(selectedAccounts)) ==> NoDuplicates(selectedAccounts)
    {
      if NoDuplicates(selectedAccounts) {
        ToggleKeepsNoDuplicates(selectedAccounts, id);
      }
      selectedAccounts := Toggle(selectedAccounts, id);
    }

    /** "Select": `onSelect` with the current selection, which makes the overview
        recompute its totals for it, then `onClose`. The modal keeps its own selection. */
    method HandleSelect(screen: BudgetOverviewScreen)
      requires screen.realm.Valid() && screen.realm.Consistent()
      modifies screen
      ensures screen.selectedAccounts == selectedAccounts && !screen.isModalVisible
      ensures var ts := Considered(screen.realm.transactions, selectedAccounts);
              && screen.income == TypeTotal(ts, Income)
              && screen.expenses == TypeTotal(ts, Expense)
              && screen.incomeCategoryTotals == Breakdown(ts, screen.realm.categories, Income)
              && screen.expenseCategoryTotals == Breakdown(ts, screen.realm.categories, Expense)
    {
      screen.SetSelectedAccounts(selectedAccounts);
      screen.CloseAccountSelection();
    }

    /** "Cancel": `onClose` only; the overview keeps its previous selection and totals. */
    method Cancel(screen: BudgetOverviewScreen)
      modifies screen
      ensures !screen.isModalVisible
      ensures screen.selectedAccounts == old(screen.selectedAccounts)
      ensures screen.income == old(screen.income) && screen.expenses == old(screen.expenses)
      ensures screen.incomeCategoryTotals == old(screen.incomeCategoryTotals)
      ensures screen.expenseCategoryTotals == old(screen.expenseCategoryTotals)
    {
      screen.CloseAccountSelection();
    }
  }
}
