/** The account management screen: adding, renaming and deleting accounts. */
module AccountsScreen {
  import opened Wrappers
  import opened Models
  import opened Keyed
  import opened Text
  import opened Store

  /** The outcome of "Update Account": a blank name is refused, nothing is being
      edited, or the edited account was renamed. */
  datatype UpdateOutcome = BlankName | NotEditing | Renamed

  class AccountManagementScreen {
    const realm: Realm
    var accounts: seq<Account>
    var accountName: string
    /** The account being edited, held by its primary key. */
    var editingAccount: Option<Id>

    constructor (realm: Realm)
      ensures this.realm == realm && accounts == [] && accountName == "" && editingAccount == None
    {
      this.realm := realm;
      accounts, accountName, editingAccount := [], "", None;
    }

    /** `fetchAccounts`: lists every stored account. */
    method FetchAccounts()
      modifies this`accounts
      ensures accounts == realm.accounts
    {
      accounts := realm.accounts;
    }

    /** The name input. */
    method SetAccountName(name: string)
      modifies this`accountName
      ensures accountName == name
    {
      accountName := name;
    }

    /** "Add Account": a blank name is refused with no write; otherwise one
        account with a fresh id and the name as typed is created, the input is
        cleared and the list refreshed. */
    method AddAccount() returns (added: bool)
      requires realm.Valid()
      modifies this`accountName, this`accounts, realm
      ensures realm.Valid()
      ensures added <==> !IsBlank(old(accountName))
      ensures !added ==> unchanged(realm) && accountName == old(accountName) && accounts == old(accounts)
      ensures added ==>
        && realm.accounts == old(realm.accounts) + [Account(old(realm.nextId), old(accountName))]
        && old(realm.nextId !in Keys(realm.accounts, AccountId))
        && realm.categories == old(realm.categories) && realm.transactions == old(realm.transactions)
        && accountName == "" && accounts == realm.accounts
      ensures old(realm.Consistent()) ==> realm.Consistent()
    {
      if IsBlank(accountName) {
        return false;
      }
      var id := realm.CreateAccount(accountName);
      accountName := "";
      FetchAccounts();
      return true;
    }

    /** "Edit": loads the account's name into the input and marks it as edited. */
    method EditAccount(a: Account)
      modifies this`accountName, this`editingAccount
      ensures accountName == a.name && editingAccount == Some(a.id)
    {
      accountName := a.name;
      editingAccount := Some(a.id);
    }

    /** "Update Account": a blank name is refused first; otherwise the edited
        account (if it still exists) is renamed, keeping its id, and the form is
        reset and the list refreshed. */
    method UpdateAccount() returns (outcome: UpdateOutcome)
      requires realm.Valid()
      modifies this, realm
      ensures realm.Valid()
      ensures outcome == if IsBlank(old(accountName)) then BlankName
                         else if old(editingAccount).None? then NotEditing else Renamed
      ensures !outcome.Renamed? ==> unchanged(this) && unchanged(realm)
      ensures outcome.Renamed? ==>
        && (match old(IndexOf(realm.accounts, AccountId, editingAccount.value))
            case None => realm.accounts == old(realm.accounts)
            case Some(i) => realm.accounts == old(realm.accounts)[i := Account(old(editingAccount.value), old(accountName))])
        && realm.categories == old(realm.categories) && realm.transactions == old(realm.transactions)
        && realm.nextId == old(realm.nextId)
        && accountName == "" && editingAccount.None? && accounts == realm.accounts
      ensures old(realm.Consistent()) ==> realm.Consistent()
    {
      if IsBlank(accountName) {
        return BlankName;
      }
      match editingAccount
      case None =>
        return NotEditing;
      case Some(id) =>
        realm.RenameAccount(id, accountName);
        accountName := "";
        editingAccount := None;
        FetchAccounts();
        return Renamed;
    }

    /** "Delete": refused (the alert) while transactions refer to the account;
        otherwise the confirmation decides; a confirmed delete removes exactly
        that account, and an account that no longer exists is left alone. */
    method DeleteAccount(id: Id, confirmed: bool) returns (outcome: DeleteOutcome)
      requires realm.Valid()
      modifies this`accounts, realm
      ensures realm.Valid()
      ensures outcome ==
        if CountByAccount(old(realm.transactions), id) > 0 then HasDependents(CountByAccount(old(realm.transactions), id))
        else if !confirmed then Cancelled
        else if old(realm.FindAccount(id)).None? then NotFound
        else Deleted
      ensures !outcome.Deleted? ==> unchanged(realm) && accounts == old(accounts)
      ensures outcome.Deleted? ==>
        && realm.accounts == Retained(old(realm.accounts), AccountId, [id])
        && realm.FindAccount(id).None?
        && realm.categories == old(realm.categories) && realm.transactions == old(realm.transactions)
        && realm.nextId == old(realm.nextId)
        && accounts == realm.accounts
      ensures old(realm.Consistent()) ==> realm.Consistent()
    {
      var count := CountByAccount(realm.transactions, id);
      if count > 0 {
        return HasDependents(count);
      }
      if !confirmed {
        return Cancelled;
      }
      if realm.FindAccount(id).None? {
        return NotFound;
      }
      realm.DeleteAccount(id);
      FetchAccounts();
      return Deleted;
    }
  }
}
