# Budget book: a Dafny model of the Budgeting app's data logic

Budgeting is a React Native app for keeping a personal budget in an embedded
object store. It keeps three kinds of record: accounts, categories (each of
kind income or expense) and transactions. A transaction refers to one
category and one account. This project models what the app's screens do to
that store and what they compute from it, and proves what those screens
promise:

- **The store** (`store.dfy`, `keyed.dfy`, `models.dfy`): class `Store.Realm`.
  It holds three insertion-ordered collections with primary keys and a
  counter that supplies fresh object ids. `Valid()` says primary keys are
  unique and every id is below the counter. `Consistent()` says every
  transaction's category and account exist. Each write states its whole new
  state, keeps `Valid()`, and says when it keeps `Consistent()`.
- **Transactions list** (`queries.dfy`, `selection.dfy`,
  `transactions_screen.dfy`): filters by kind and by account name, sorts
  newest or largest first, and shows income and expense totals. The screen
  also has a multi-select mode and a bulk delete.
- **Budget overview** (`overview.dfy`, `account_selection.dfy`): totals and
  per-category-name breakdowns over the transactions of the selected
  accounts (or of all accounts when none is selected), the balance shown,
  the shares of the progress bar, and the account-selection modal.
- **Management screens** (`categories_screen.dfy`, `accounts_screen.dfy`,
  `text.dfy`):
  - Create, rename and delete categories and accounts.
  - A name that is blank after a JavaScript `trim()` is refused when adding an account or a category
    and when renaming an account; renaming a category accepts any name.
  - A delete is refused while transactions still refer to the record.
- **Add/edit transaction** (`add_transaction.dfy`): the form, its effect
  that reloads pickers and pre-fills an edit, and the save. A save updates
  in place in edit mode and creates in create mode.
- **Provider** (`provider.dfy`, `defaults.dfy`): seeds the eight default
  categories and the default account into an empty store, then exposes the
  store to the screens.

Each screen is a class whose fields are its React state. Each handler is a
method whose `ensures` gives the new state, either outright or as a function
of the store. The pure definitions behind those contracts carry lemmas:
permutation and order of the sorted list, totals that partition the sum, a
breakdown whose entries sum to the kind's total, seeding that is idempotent,
and toggling that keeps a selection free of duplicates.

Amounts are modelled as `real`, so sums are exact. Object ids are opaque
natural numbers. Where a screen stores an id as a hex string, the model
stores the id itself.

Two behaviours are modelled as written, each with a lemma:

- The account filter uses the name `"all"` as its "no filter" sentinel. An
  account actually named `all` therefore cannot be filtered on
  (`Queries.AccountNamedAllShowsEverything`).
- Toggling the same id twice restores the selected *set*. It restores the
  *order* only when the id was absent, or was selected once and last
  (`Selection.ToggleTwiceRestoresLast`); a present id that is not last
  comes back at the end (`Selection.ToggleTwiceMoves`).

The income and expense shares of the overview divide by `income + expenses`
without a guard. The model therefore defines them only for a non-zero total,
rather than as 0 when the total is 0.

## Model

| member | source | states |
|---|---|---|
| Keyed.IndexOf | models/Transaction.ts:34 | the position found holds a record with the key and no earlier one does; it is absent exactly when the key is not among the collection's keys |
| Keyed.Find | components/CategoriesManagementScreen.tsx:53 | the primary-key lookup succeeds exactly when the key is present, and returns a stored record with that key |
| Keyed.IndexOfUnique | models/Transaction.ts:34 | under the primary-key constraint the lookup of a record's key finds that very record |
| Keyed.Retained | components/TransactionsScreen.tsx:96-100 | deleting the records with the given keys never lengthens the collection; its contents are stated by `Keyed.RetainedMembers` and `Keyed.RetainedMultiset` |
| Keyed.RetainedMembers | components/TransactionsScreen.tsx:96-100 | after a deletion a record remains exactly when it was stored and its key was not deleted |
| Keyed.RetainedMultiset | components/TransactionsScreen.tsx:96-100 | a deletion keeps every other record with its multiplicity and removes each deleted-key record entirely |
| Keyed.RetainedUnique | models/Account.ts:10 | deleting records keeps the primary-key constraint |
| Keyed.RetainedThenRemove | components/TransactionsScreen.tsx:96-100 | deleting the selected ids one at a time equals deleting them all at once |
| Keyed.RetainedNone | components/TransactionsScreen.tsx:96-100 | deleting nothing leaves the collection as it is |
| Keyed.RetainedDropsKeys | components/TransactionsScreen.tsx:96-100 | no deleted key remains |
| Keyed.KeysRetained | components/TransactionsScreen.tsx:96-100 | the keys left are the old keys minus the deleted ones |
| Keyed.KeysAppend | components/AccountManagementScreen.tsx:31-34 | creating a record adds exactly its key |
| Keyed.KeysUpdate | models/Category.ts:11 | overwriting a record's fields in place keeps the key set and the primary-key constraint |
| Store.CountByAccount | components/AccountManagementScreen.tsx:64-65 | the count of transactions on an account is zero exactly when no transaction refers to it |
| Store.CountByCategory | components/CategoriesManagementScreen.tsx:70-71 | the count of transactions in a category is zero exactly when no transaction refers to it |
| Store.RetainedTransactionsConsistent | components/TransactionsScreen.tsx:95-102 | deleting transactions keeps every remaining transaction's category and account resolvable |
| Store.Realm.constructor | realm/RealmProvider.tsx:14-15 | a new store is empty, valid and consistent |
| Store.Realm.FindAccount | components/AddTransactionScreen.tsx:59 | the definition of `objectForPrimaryKey(Account, id)` as `Keyed.Find` over the stored accounts; `Keyed.Find` states when it succeeds and what it returns |
| Store.Realm.FindCategory | components/CategoriesManagementScreen.tsx:53 | the definition of `objectForPrimaryKey('Category', id)` as `Keyed.Find` over the stored categories; `Keyed.Find` states when it succeeds and what it returns |
| Store.Realm.FindTransaction | components/TransactionsScreen.tsx:97 | the definition of `objectForPrimaryKey('Transaction', id)` as `Keyed.Find` over the stored transactions; `Keyed.Find` states when it succeeds and what it returns |
| Store.Realm.CreateAccount | components/AccountManagementScreen.tsx:30-35 | appends the account under a fresh id, leaves the other collections alone, keeps validity and consistency |
| Store.Realm.CreateCategory | components/CategoriesManagementScreen.tsx:31-37 | appends the category under a fresh id, leaves the other collections alone, keeps validity and consistency |
| Store.Realm.CreateTransaction | components/AddTransactionScreen.tsx:63-71 | appends the transaction under a fresh id; keeps consistency when its category and account exist |
| Store.Realm.DeleteAccount | components/AccountManagementScreen.tsx:83-85 | the account is gone and nothing else is; consistency is kept when no transaction refers to it |
| Store.Realm.DeleteCategory | components/CategoriesManagementScreen.tsx:80-82 | the category is gone and nothing else is; consistency is kept when no transaction refers to it |
| Store.Realm.DeleteTransaction | components/TransactionsScreen.tsx:97-100 | a resolving id's transaction is deleted and an unresolved id is skipped; validity and consistency are kept |
| Store.Realm.RenameAccount | components/AccountManagementScreen.tsx:53-55 | the account with the id gets the new name at its position, or nothing changes when it is missing |
| Store.Realm.UpdateCategory | components/CategoriesManagementScreen.tsx:52-58 | the category with the id gets the new name and kind at its position, or nothing changes when it is missing |
| Store.Realm.ReplaceTransaction | components/AddTransactionScreen.tsx:54-61 | overwrites one stored transaction in place, keeping its id; consistency is kept when the new links resolve |
| Text.IsJsWhitespace | components/CategoriesManagementScreen.tsx:26 | the characters ECMAScript's `trim` removes: white space and line terminators |
| Text.Trim | components/CategoriesManagementScreen.tsx:26 | `trim()`; `Text.TrimIsInnerSlice` states that it is an inner slice with no white space at either end |
| Text.IsBlank | components/AccountManagementScreen.tsx:25 | the blank-name test; `Text.BlankIffAllWhitespace` states that it holds exactly for all-white-space names |
| Text.TrimStart | components/CategoriesManagementScreen.tsx:26 | the result is a suffix, everything dropped is white space, and it does not start with white space |
| Text.TrimEnd | components/CategoriesManagementScreen.tsx:26 | the result is a prefix, everything dropped is white space, and it does not end with white space |
| Text.BlankIffAllWhitespace | components/AccountManagementScreen.tsx:25 | a name is blank after trimming exactly when every character of it is white space |
| Text.TrimIsInnerSlice | components/AccountManagementScreen.tsx:47 | the trimmed name is a contiguous piece of the name with no white space at either end |
| Queries.MatchesType | components/TransactionsScreen.tsx:43-45 | the definition of the kind filter's test: everything passes the `'all'` filter, otherwise only transactions of that kind; `Queries.FilterByTypeMultiset` states the filter built on it |
| Queries.AccountNameOf | components/TransactionsScreen.tsx:48 | the definition of `transaction.account.name`: the name of the stored account with that id, none when it is missing |
| Queries.MatchesAccount | components/TransactionsScreen.tsx:47-49 | the definition of the account filter's test: everything passes `'all'`, otherwise the account's name must equal the picked name; `Queries.AccountNamedAllShowsEverything` states the sentinel's consequence |
| Queries.FilterByType | components/TransactionsScreen.tsx:43-45 | the kind filter is never longer than its input; its exact contents are stated by `Queries.FilterByTypeMultiset` |
| Queries.FilterByAccountName | components/TransactionsScreen.tsx:47-49 | the account-name filter is never longer than its input; its exact contents are stated by `Queries.FilterByAccountNameMultiset` |
| Queries.FilterByTypeMultiset | components/TransactionsScreen.tsx:43-45 | the kind filter keeps exactly the transactions of that kind, with their multiplicity, or everything for "all" |
| Queries.FilterByAccountNameMultiset | components/TransactionsScreen.tsx:47-49 | the account filter keeps exactly the transactions whose account bears the selected name, or everything for "all" |
| Queries.Insert | components/TransactionsScreen.tsx:51-55 | one insertion step of the descending sort; `Queries.InsertMultiset` and `Queries.InsertSorted` state what it does |
| Queries.Sort | components/TransactionsScreen.tsx:51-55 | the descending sort by date or amount; `Queries.SortMultiset` and `Queries.SortSorted` state that it is an ordered permutation |
| Queries.InsertMultiset | components/TransactionsScreen.tsx:51-55 | one insertion step of the sort adds exactly the inserted transaction |
| Queries.InsertBounded | components/TransactionsScreen.tsx:51-55 | an insertion step keeps every key below a common bound |
| Queries.InsertSorted | components/TransactionsScreen.tsx:51-55 | inserting into a list sorted newest or largest first keeps it sorted |
| Queries.SortMultiset | components/TransactionsScreen.tsx:51-55 | the sort is a permutation of its input |
| Queries.SortSorted | components/TransactionsScreen.tsx:51-55 | the sort orders by date or amount, descending |
| Queries.ListTransactions | components/TransactionsScreen.tsx:40-57 | the list shown: the kind filter, then the account filter, then the sort; `Queries.ListTransactionsCorrect` states what it holds |
| Queries.ListTransactionsCorrect | components/TransactionsScreen.tsx:40-59 | the list shown is sorted descending and holds exactly the stored transactions that pass both filters, each as often as stored |
| Queries.AccountNamedAllShowsEverything | components/TransactionsScreen.tsx:47-49 | choosing an account literally named "all" shows the transactions of every account |
| Queries.SumAmounts | components/TransactionsScreen.tsx:62-63 | the definition of `sum('amount')`, 0 for no transactions; `Queries.SumAmountsAppend` and `Queries.SumAmountsPermutation` state its properties |
| Queries.TypeTotal | components/TransactionsScreen.tsx:62-63 | the sum of amounts of the transactions of one kind, as in `BudgetOverviewScreen.tsx:34-35` too; `Queries.TypeTotalSnoc` and `Queries.TotalsPartition` state its properties |
| Queries.SumAmountsAppend | components/TransactionsScreen.tsx:61-63 | the sum of amounts over a concatenation is the sum of the parts |
| Queries.SumAmountsPermutation | components/TransactionsScreen.tsx:61-63 | the sum of amounts does not depend on the order |
| Queries.FilterByTypeAppend | components/TransactionsScreen.tsx:62-63 | the kind filter distributes over concatenation |
| Queries.TypeTotalSnoc | components/BudgetOverviewScreen.tsx:34-35 | one more transaction adds its amount to its own kind's total only |
| Queries.TypeTotalEmpty | components/BudgetOverviewScreen.tsx:34-35 | with no transactions both totals are 0 |
| Queries.TypeTotalPermutation | components/TransactionsScreen.tsx:61-63 | the totals do not depend on the sort order |
| Queries.TotalsPartition | components/TransactionsScreen.tsx:61-66 | income total plus expense total plus the amounts of untyped transactions is the sum of all amounts |
| Queries.ListTotals | components/TransactionsScreen.tsx:57-58 | the totals of the sorted list equal the totals of the filtered, unsorted transactions |
| Queries.OtherKindTotalIsZero | components/TransactionsScreen.tsx:43-45 | under a kind filter the other kind's total is 0 |
| Selection.RemoveAll | components/TransactionsScreen.tsx:80 | exactly the other ids remain; an absent id changes nothing |
| Selection.Toggle | components/TransactionsScreen.tsx:77-83 | the toggled id's membership flips and every other id's is kept; an absent id is appended |
| Selection.RemoveAllKeepsNoDuplicates | components/TransactionsScreen.tsx:80 | removing an id keeps a selection free of duplicates |
| Selection.ToggleKeepsNoDuplicates | components/AccountSelectionModal.tsx:22-28 | toggling keeps a selection free of duplicates |
| Selection.ToggleTwiceRestoresAbsent | components/AccountSelectionModal.tsx:22-28 | toggling an unselected id twice gives back the same selection |
| Selection.ToggleTwiceRestoresLast | components/TransactionsScreen.tsx:77-83 | toggling twice an id selected once and last gives back the same selection, order included |
| Selection.RemoveAllLast | components/TransactionsScreen.tsx:80-81 | removing an id that was just appended gives back the list before the append |
| Selection.ToggleTwiceRestoresSet | components/TransactionsScreen.tsx:77-83 | toggling twice gives back the same set of selected ids |
| Selection.ToggleTwiceMoves | components/TransactionsScreen.tsx:77-83 | toggling a selected id that is not last twice moves it to the end |
| Transactions.TransactionsScreen.constructor | components/TransactionsScreen.tsx:10-19 | the initial state: sort by date, both filters "all", zero totals, no selection |
| Transactions.TransactionsScreen.FetchAccounts | components/TransactionsScreen.tsx:35-38 | the picker lists the stored accounts |
| Transactions.TransactionsScreen.CalculateTotals | components/TransactionsScreen.tsx:61-66 | the totals are the income and expense sums of the given results, which with the untyped amounts make up their whole sum |
| Transactions.TransactionsScreen.FetchTransactions | components/TransactionsScreen.tsx:40-59 | the list is the filtered, descending-sorted store contents, its members are exactly those passing both filters, and the totals are the list's |
| Transactions.TransactionsScreen.Refresh | components/TransactionsScreen.tsx:21-33 | after the effect the accounts, list and totals show the current store |
| Transactions.TransactionsScreen.SetSortOption | components/TransactionsScreen.tsx:164 | the new sort option takes effect and the screen shows the store under it; the filters and the selection are kept |
| Transactions.TransactionsScreen.SetFilterOption | components/TransactionsScreen.tsx:139 | the new kind filter takes effect and the screen shows the store under it; the rest is kept |
| Transactions.TransactionsScreen.SetSelectedAccount | components/TransactionsScreen.tsx:151 | the new account filter takes effect and the screen shows the store under it; the rest is kept |
| Transactions.TransactionsScreen.ToggleSelectionMode | components/TransactionsScreen.tsx:72-75 | selection mode flips and the selection is cleared |
| Transactions.TransactionsScreen.ToggleTransactionSelection | components/TransactionsScreen.tsx:77-83 | the id's membership flips, the others stay, and a duplicate-free selection stays duplicate-free |
| Transactions.TransactionsScreen.WriteDeletions | components/TransactionsScreen.tsx:95-102 | the write deletes exactly the selected ids' transactions (unresolved ids skipped), touches nothing else, keeps validity and consistency |
| Transactions.TransactionsScreen.DeleteSelectedTransactions | components/TransactionsScreen.tsx:94-106 | on confirmation the selected transactions are gone, the list and totals are refetched, selection mode is off and the selection empty |
| Overview.Considered | components/BudgetOverviewScreen.tsx:28-32 | the considered transactions are all of them when no account is selected, else the stored transactions on a selected account; how often each counts is stated by `Overview.ConsideredMultiset` |
| Overview.OfAccounts | components/BudgetOverviewScreen.tsx:31 | a transaction is kept exactly when it is stored and on a listed account; multiplicity and order are stated by `Overview.OfAccountsMultiset` and `Overview.OfAccountsAppend` |
| Overview.OfAccountsMultiset | components/BudgetOverviewScreen.tsx:31 | each transaction on a selected account is kept exactly as often as it is stored, and no other is kept |
| Overview.OfAccountsAppend | components/BudgetOverviewScreen.tsx:31 | the account filter keeps store order: filtering a concatenation concatenates the filtered parts |
| Overview.ConsideredMultiset | components/BudgetOverviewScreen.tsx:28-32 | every transaction counts exactly as often as it is stored when no account is selected, and otherwise exactly when it is on a selected account |
| Overview.GroupTotal | components/BudgetOverviewScreen.tsx:40-53 | the definition of one breakdown entry: the sum of amounts of the transactions of the kind whose category bears the name; its properties are `Overview.GroupTotalAbsent` and `Overview.SumGroupsIsTypeTotal` |
| Overview.Breakdown | components/BudgetOverviewScreen.tsx:37-63 | the definition of a kind's breakdown as a map from category name to group total; `Overview.BreakdownKeys`, `Overview.BreakdownSnoc` and `Overview.BreakdownSumsToTotal` state what it holds |
| Overview.BreakdownSnoc | components/BudgetOverviewScreen.tsx:40-53 | one more transaction of the kind adds its amount to its category name's entry, creating it at 0 first; any other transaction changes nothing |
| Overview.GroupTotalAbsent | components/BudgetOverviewScreen.tsx:40-53 | a name with no transaction of the kind has total 0 |
| Overview.BreakdownEmpty | components/BudgetOverviewScreen.tsx:37-38 | with no transactions both breakdowns are empty |
| Overview.BreakdownKeys | components/BudgetOverviewScreen.tsx:55-63 | a category name has an entry exactly when some transaction of the kind is in a category of that name |
| Overview.SumGroupsSnoc | components/BudgetOverviewScreen.tsx:46 | over distinct names one more transaction adds its amount once when its name is listed, and nothing otherwise |
| Overview.SumGroupsIsTypeTotal | components/BudgetOverviewScreen.tsx:34-53 | the group totals over any duplicate-free list covering the names sum to the kind's total |
| Overview.SumEntriesOfBreakdown | components/BudgetOverviewScreen.tsx:55-63 | the entries listed from the breakdown are its group totals |
| Overview.BreakdownSumsToTotal | components/BudgetOverviewScreen.tsx:34-63 | the entries of a kind's breakdown, each listed once, sum to that kind's total |
| Overview.Balance | components/BudgetOverviewScreen.tsx:141 | the definition of `income - expenses`; `Overview.BalanceIsNetFlow` states that it is the income minus the expenses of the considered transactions |
| Overview.IncomeShare | components/BudgetOverviewScreen.tsx:86-87 | the definition of `income / total` for a non-zero total; `Overview.SharesSumToOne` and `Overview.SharesBounded` state that the two shares add up to one and lie between zero and one |
| Overview.ExpenseShare | components/BudgetOverviewScreen.tsx:86-88 | the definition of `expenses / total` for a non-zero total; `Overview.SharesSumToOne` and `Overview.SharesBounded` state that the two shares add up to one and lie between zero and one |
| Overview.CategoryNameOf | components/BudgetOverviewScreen.tsx:41 | the definition of `transaction.category.name`: the name of the stored category with that id, none when it is missing |
| Overview.InGroup | components/BudgetOverviewScreen.tsx:41-52 | the definition of a breakdown group: a transaction of that kind whose category has that name; `Overview.BreakdownKeys` and `Overview.BreakdownSnoc` state how the groups build the breakdown |
| Overview.BalanceIsNetFlow | components/BudgetOverviewScreen.tsx:141 | the balance shown is income counted positive minus expenses, untyped transactions not counted |
| Overview.SharesSumToOne | components/BudgetOverviewScreen.tsx:86-88 | for a non-zero total the two progress-bar shares add up to 1 |
| Overview.SharesBounded | components/BudgetOverviewScreen.tsx:86-88 | for non-negative totals, not both 0, each share lies between 0 and 1 |
| Overview.Accumulate | components/BudgetOverviewScreen.tsx:43-46 | the name's entry becomes its old value or 0 plus the amount, and every other entry is kept |
| Overview.BreakdownStep | components/BudgetOverviewScreen.tsx:40-53 | one iteration of the loop turns the breakdown of a prefix into the breakdown of the next prefix |
| Overview.ConsideredResolve | components/BudgetOverviewScreen.tsx:41 | in a consistent store every considered transaction's category resolves |
| Overview.AccumulateByCategory | components/BudgetOverviewScreen.tsx:37-53 | the loop builds exactly the income and the expense breakdown of the transactions |
| Overview.BudgetOverviewScreen.constructor | components/BudgetOverviewScreen.tsx:19-24 | the initial state: no accounts selected, zero totals, empty breakdowns, modal hidden |
| Overview.BudgetOverviewScreen.CalculateTotals | components/BudgetOverviewScreen.tsx:27-69 | the totals and breakdowns are those of the transactions on the selected accounts |
| Overview.BudgetOverviewScreen.SetSelectedAccounts | components/BudgetOverviewScreen.tsx:71-84 | a new selection is stored and the totals and breakdowns are recomputed for it |
| Overview.BudgetOverviewScreen.OpenAccountSelection | components/BudgetOverviewScreen.tsx:102 | the modal becomes visible |
| Overview.BudgetOverviewScreen.CloseAccountSelection | components/BudgetOverviewScreen.tsx:158 | the modal is hidden |
| Overview.ScenarioConsidered | components/BudgetOverviewScreen.tsx:30-32 | selecting one account keeps exactly its transactions, in store order |
| Overview.ScenarioTotals | components/BudgetOverviewScreen.tsx:34-35 | for a salary of 200 and groceries of 100.50 on the selected account the totals are 200 and 100.50 |
| Overview.ScenarioBreakdowns | components/BudgetOverviewScreen.tsx:40-63 | the same selection gives the breakdowns Salary 200 and Groceries 100.50 |
| AccountSelection.AccountSelectionModal.constructor | components/AccountSelectionModal.tsx:14-15 | the modal starts with no accounts listed and none selected |
| AccountSelection.AccountSelectionModal.FetchAccounts | components/AccountSelectionModal.tsx:17-20 | the modal lists the stored accounts |
| AccountSelection.AccountSelectionModal.ToggleAccountSelection | components/AccountSelectionModal.tsx:22-28 | the account's membership flips, the others stay, and a duplicate-free selection stays duplicate-free |
| AccountSelection.AccountSelectionModal.HandleSelect | components/AccountSelectionModal.tsx:30-33 | the overview takes the modal's selection, recomputes its totals and breakdowns for it, and hides the modal |
| AccountSelection.AccountSelectionModal.Cancel | components/AccountSelectionModal.tsx:54 | the modal is hidden and the overview's selection, totals and breakdowns are kept |
| CategoriesScreen.CategoriesOfKind | components/CategoriesManagementScreen.tsx:21 | the categories of one kind, in store order, never more than stored; `CategoriesScreen.CategoriesOfKindMembers` states its contents |
| CategoriesScreen.CategoriesOfKindMembers | components/CategoriesManagementScreen.tsx:20-23 | the list holds exactly the stored categories of the chosen kind |
| CategoriesScreen.CategoriesOfKindAppend | components/CategoriesManagementScreen.tsx:21 | a new category appears at the end of its own kind's list only |
| CategoriesScreen.CategoriesManagementScreen.constructor | components/CategoriesManagementScreen.tsx:10-14 | the initial state: empty name, kind income, not editing |
| CategoriesScreen.CategoriesManagementScreen.FetchCategories | components/CategoriesManagementScreen.tsx:20-23 | the list is the stored categories of the current kind, in store order |
| CategoriesScreen.CategoriesManagementScreen.SetCategoryType | components/CategoriesManagementScreen.tsx:16-18 | switching the kind reloads the list for it |
| CategoriesScreen.CategoriesManagementScreen.SetCategoryName | components/CategoriesManagementScreen.tsx:118 | the input holds the typed name |
| CategoriesScreen.CategoriesManagementScreen.AddCategory | components/CategoriesManagementScreen.tsx:25-41 | a category is added exactly when the name is not blank, under a fresh id with the current kind; then the input is cleared and the list reloaded, else nothing changes |
| CategoriesScreen.CategoriesManagementScreen.EditCategory | components/CategoriesManagementScreen.tsx:43-48 | the form takes the category's name, kind and id; the list reloads only when the kind changed |
| CategoriesScreen.CategoriesManagementScreen.UpdateCategory | components/CategoriesManagementScreen.tsx:50-65 | without an edited id nothing happens; otherwise the category, if still stored, takes the form's name and kind, and the form is reset |
| CategoriesScreen.CategoriesManagementScreen.DeleteCategory | components/CategoriesManagementScreen.tsx:67-86 | an unknown id does nothing, a category with transactions is refused (the outcome's count of them is the model's own addition; the alert shows none), and otherwise it is deleted and the list reloaded |
| AccountsScreen.AccountManagementScreen.constructor | components/AccountManagementScreen.tsx:11-13 | the initial state: no accounts listed, empty name, not editing |
| AccountsScreen.AccountManagementScreen.FetchAccounts | components/AccountManagementScreen.tsx:19-22 | the list is the stored accounts |
| AccountsScreen.AccountManagementScreen.SetAccountName | components/AccountManagementScreen.tsx:115 | the input holds the typed name |
| AccountsScreen.AccountManagementScreen.AddAccount | components/AccountManagementScreen.tsx:24-39 | an account is added exactly when the name is not blank, under a fresh id; then the input is cleared and the list reloaded, else nothing changes |
| AccountsScreen.AccountManagementScreen.EditAccount | components/AccountManagementScreen.tsx:41-44 | the input takes the account's name and the account becomes the one edited |
| AccountsScreen.AccountManagementScreen.UpdateAccount | components/AccountManagementScreen.tsx:46-61 | a blank name is refused first, then nothing happens without an edited account; otherwise it is renamed and the form reset |
| AccountsScreen.AccountManagementScreen.DeleteAccount | components/AccountManagementScreen.tsx:63-92 | an account with transactions is refused (the outcome's count of them is the model's own addition; the alert shows none), a cancelled confirmation changes nothing, and otherwise it is deleted and the list reloaded |
| AddTransaction.Edited | components/AddTransactionScreen.tsx:55-60 | the transaction after an in-place save from the form; `AddTransaction.EditedKeepsRest` states what it keeps and takes |
| AddTransaction.Fresh | components/AddTransactionScreen.tsx:63-71 | the transaction a create-mode save stores; `AddTransaction.FreshRoundTrip` states its round trip with the form |
| AddTransaction.Prefill | components/AddTransactionScreen.tsx:37-46 | the form an edit starts from; `AddTransaction.SaveUntouchedEdit` states that saving it unchanged gives back the transaction |
| AddTransaction.EditedKeepsRest | components/AddTransactionScreen.tsx:54-61 | an in-place save keeps the id, note and repeating fields, and the saved transaction pre-fills the form it was saved from |
| AddTransaction.SaveUntouchedEdit | components/AddTransactionScreen.tsx:37-61 | saving an edit without changes gives back the transaction, except that a missing description becomes empty |
| AddTransaction.FreshRoundTrip | components/AddTransactionScreen.tsx:63-71 | a created transaction pre-fills exactly the form it was created from, and re-saving that form changes nothing |
| AddTransaction.OfferedCategories | components/AddTransactionScreen.tsx:26 | the categories the picker offers for the current kind; `AddTransaction.OfferedCategoriesMembers` states its contents |
| AddTransaction.OfferedCategoriesMembers | components/AddTransactionScreen.tsx:26 | the category picker offers exactly the stored categories of the current kind |
| AddTransaction.AddTransactionScreen.constructor | components/AddTransactionScreen.tsx:13-23 | the kind starts as the route's or expense, the date as now, the amount and description empty, nothing selected, not editing |
| AddTransaction.AddTransactionScreen.Effect | components/AddTransactionScreen.tsx:25-48 | the pickers hold the categories of the kind and the accounts; each first entry is preselected; an edit pre-fills the whole form |
| AddTransaction.AddTransactionScreen.Mount | components/AddTransactionScreen.tsx:25-48 | after mounting, including the re-run caused by an edit's kind, the pickers match the form's kind and an edit is pre-filled |
| AddTransaction.AddTransactionScreen.ChangeType | components/AddTransactionScreen.tsx:129-130 | a new kind reloads the categories for it; in edit mode the effect re-runs and restores the transaction's own values |
| AddTransaction.AddTransactionScreen.SetAmount | components/AddTransactionScreen.tsx:89 | the amount holds the entered value |
| AddTransaction.AddTransactionScreen.SetDescription | components/AddTransactionScreen.tsx:96 | the description holds the entered text |
| AddTransaction.AddTransactionScreen.SetDate | components/AddTransactionScreen.tsx:77-81 | the date holds the picked date |
| AddTransaction.AddTransactionScreen.SelectCategory | components/AddTransactionScreen.tsx:113 | the category picked is selected |
| AddTransaction.AddTransactionScreen.SelectAccount | components/AddTransactionScreen.tsx:122 | the account picked is selected |
| AddTransaction.AddTransactionScreen.SaveTransaction | components/AddTransactionScreen.tsx:50-75 | an edit overwrites the stored transaction in place from the form, or does nothing when it is gone; otherwise a new transaction is created under a fresh id; consistency is kept |
| DefaultData.DefaultCategoriesShape | realm/defaultData.ts:3-13 | the defaults are eight categories, five expense then three income |
| DefaultData.DefaultCategoryNamesDistinct | realm/defaultData.ts:3-13 | the default category names are distinct |
| Provider.SeededCategories | realm/RealmProvider.tsx:18-29 | the i-th seeded category has the i-th default's name and kind and the i-th fresh id |
| Provider.Seed | realm/RealmProvider.tsx:14-40 | the store after the provider's seeding; `Provider.SeedCategories`, `Provider.SeedAccounts` and `Provider.SeedIdempotent` state what it is |
| Provider.SeedCategories | realm/RealmProvider.tsx:18-29 | an empty category collection receives exactly the defaults in order under consecutive fresh ids; a non-empty one is kept |
| Provider.SeedAccounts | realm/RealmProvider.tsx:32-40 | an empty account collection receives the one default account; a non-empty one is kept |
| Provider.SeedIdempotent | realm/RealmProvider.tsx:14-42 | seeding never touches transactions, and seeding a seeded store changes nothing |
| Provider.SeedKeepsInvariants | realm/RealmProvider.tsx:14-42 | seeding keeps unique keys and fresh ids, and keeps consistency |
| Provider.SeededCategoriesSnoc | realm/RealmProvider.tsx:21-27 | seeding one more default appends one category with the next id |
| Provider.CreateCategories | realm/RealmProvider.tsx:20-28 | the loop appends the defaults under consecutive fresh ids and touches nothing else |
| Provider.SeedDefaults | realm/RealmProvider.tsx:14-40 | the store afterwards is the seeded store |
| Provider.RealmProvider.constructor | realm/RealmProvider.tsx:12 | before mounting no store is provided |
| Provider.RealmProvider.Mount | realm/RealmProvider.tsx:14-42 | mounting seeds the store and provides it |
| Provider.RealmProvider.UseRealm | realm/RealmProvider.tsx:60-66 | the store is returned exactly when one is provided, and otherwise the context error |

## Left out

- Rendering, styles, navigation, the help modal, the settings screen, the period header (a constant label) and `navigation.goBack`: no data logic.
- Change listeners are not modelled as callbacks. Their effect is modelled by the methods that re-run the listener's fetch (`Refresh`, `CalculateTotals`). React effect scheduling is modelled by the setters calling the effect directly.
- Opening and closing the on-disk store (`getRealm`, `close`) is not modelled; `Provider.RealmProvider.Mount` takes the opened store as a parameter. realm/index.ts is not part of this model.
- Floating point: amounts are `real`, so sums are exact and `toFixed` rounding is not modelled. `parseFloat` of the amount input, and the `NaN` it can give, is not modelled: the form holds the parsed number.
- Object ids are natural numbers from a counter, so the hex-string round trip (`toHexString` / `new ObjectId`) is not modelled, nor is the exception a malformed string raises.
- Dates are integer timestamps; the date picker and its platform-specific visibility are not modelled.
- Overview.Breakdown: a map from category name to total, so the order in which `Object.keys` lists the entries is not modelled. `Overview.BreakdownSumsToTotal` holds for every duplicate-free listing. A category named like an inherited object property (for example `constructor`) is treated as an ordinary key.
- Overview.IncomeShare: defined only for a non-zero total; a zero total gives `NaN` in the source, which is not modelled (similarly Overview.ExpenseShare).
- AddTransaction.AddTransactionScreen.SaveTransaction: a category or account selection that does not resolve is modelled as `InvalidReference` with no write. In the source an empty selection makes the id constructor throw, which aborts the write; a well-formed but stale id would store a missing link.
- AccountsScreen.AccountManagementScreen.UpdateAccount: an edited account deleted since it was chosen is modelled as a rename that finds nothing. The source would write to an invalidated object and throw.
- AccountsScreen.AccountManagementScreen.DeleteAccount: an account already deleted is modelled as `NotFound`. The source would pass the invalidated object to `delete`.
- Transactions.TransactionsScreen.DeleteSelectedTransactions: only the confirmed path is a method. Cancelling the alert changes nothing.
- The account-selection modal keeps the store's live account collection, so a later re-render can list accounts created since. The model fetches the list once, when the modal mounts, and the live collection is not modelled.
- Transaction `type` is declared as an optional string in the store schema. The model uses the TypeScript type (income, expense or none), so other strings are not modelled.
- The repeating-transaction fields are carried as data; no logic reads them.
- The tests and `clearRealm.js` are not part of this model.
