/** The add / edit transaction screen: the form's defaults and prefill, and
    saving as an in-place update or as a new transaction. */
module AddTransaction {
  import opened Wrappers
  import opened Models
  import opened Keyed
  import opened Store
  import opened CategoriesScreen

  /** The values the form holds when it is saved; `category` and `account` are
      the selected ids. */
  datatype Form = Form(kind: Option<TxType>, dateTime: int, amount: real, category: Id, account: Id, description: string)

  /** The transaction `t` after an in-place save of the form: type, date, amount,
      category, account and description are assigned, everything else is kept. */
  function Edited(t: Transaction, f: Form): Transaction {
    t.(kind := f.kind, dateTime := f.dateTime, amount := f.amount,
       category := f.category, account := f.account, description := Some(f.description))
  }

  /** The transaction a create-mode save stores; note and repeating fields are not set. */
  function Fresh(id: Id, f: Form): Transaction {
    Transaction(id, f.kind, f.dateTime, f.amount, f.category, f.account, Some(f.description), None, None, None)
  }

  /** The form an edit starts from: the transaction's own values, a missing
      description shown as empty. */
  function Prefill(t: Transaction): Form {
    Form(t.kind, t.dateTime, t.amount, t.category, t.account, t.description.GetOr(""))
  }

  /** An in-place save keeps the id, the note and the repeating fields, and
      takes every edited field from the form. */
  lemma EditedKeepsRest(t: Transaction, f: Form)
    ensures var r := Edited(t, f);
            && r.id == t.id && r.note == t.note
            && r.repeatingFrequency == t.repeatingFrequency && r.repeatingEndDate == t.repeatingEndDate
            && Prefill(r) == f
  {
  }

  /** Saving an edit without touching the form gives back the transaction,
      except that a missing description becomes the empty one. */
  lemma SaveUntouchedEdit(t: Transaction)
    ensures Edited(t, Prefill(t)) == t.(description := Some(t.description.GetOr("")))
    ensures t.description.Some? ==> Edited(t, Prefill(t)) == t
  {
  }

  /** A freshly created transaction reads back as the form it was made from. */
  lemma FreshRoundTrip(id: Id, f: Form)
    ensures Prefill(Fresh(id, f)) == f && Fresh(id, f).id == id
    ensures Edited(Fresh(id, f), f) == Fresh(id, f)
  {
  }

  /** The categories the picker offers: those of the current kind. The query
      text is built from the kind, so with no kind it matches no category. */
  function OfferedCategories(cs: seq<Category>, k: Option<TxType>): seq<Category> {
    match k
    case None => []
    case Some(kind) => CategoriesOfKind(cs, kind)
  }

  /** The picker offers exactly the stored categories of the current kind, and
      none when there is no kind. */
  lemma OfferedCategoriesMembers(cs: seq<Category>, k: Option<TxType>)
    ensures forall c :: c in OfferedCategories(cs, k) <==> c in cs && k == Some(c.kind)
  {
    if k.Some? {
      CategoriesOfKindMembers(cs, k.value);
    }
  }

  /** The result of "Add" / "Update Transaction". */
  datatype SaveOutcome = Updated | Created(id: Id) | StaleEdit | InvalidReference

  class AddTransactionScreen {
    const realm: Realm
    /** The route's `type` parameter, if any. */
    const routeType: Option<TxType>
    /** The route's `transaction` parameter, if any: the transaction to edit. */
    const routeTransaction: Option<Transaction>
    var amount: real
    var description: string
    var kind: Option<TxType>
    var date: int
    var categories: seq<Category>
    var accounts: seq<Account>
    var selectedCategory: Option<Id>
    var selectedAccount: Option<Id>
    var isEditing: bool
    var editingTransactionId: Option<Id>

    /** The initial hook state: the route's type, else expense; the current
        time `now`; empty amount, description and selections. */
    constructor (realm: Realm, routeType: Option<TxType>, routeTransaction: Option<Transaction>, now: int)
      ensures this.realm == realm && this.routeType == routeType && this.routeTransaction == routeTransaction
      ensures kind == Some(routeType.GetOr(Expense)) && date == now
      ensures amount == 0.0 && description == "" && categories == [] && accounts == []
      ensures selectedCategory == None && selectedAccount == None && !isEditing && editingTransactionId == None
    {
      this.realm := realm;
      this.routeType := routeType;
      this.routeTransaction := routeTransaction;
      kind := Some(routeType.GetOr(Expense));
      date := now;
      amount, description := 0.0, "";
      categories, accounts := [], [];
      selectedCategory, selectedAccount := None, None;
      isEditing, editingTransactionId := false, None;
    }

    /** The form's values, once both pickers hold an id. */
    function CurrentForm(): Form
      reads this
      requires selectedCategory.Some? && selectedAccount.Some?
    {
      Form(kind, date, amount, selectedCategory.value, selectedAccount.value, description)
    }

    /** The form shows exactly the values of `f`. */
    predicate Holds(f: Form)
      reads this
    {
      && selectedCategory == Some(f.category) && selectedAccount == Some(f.account)
      && CurrentForm() == f
    }

    /** Both selected ids resolve in the store. */
    predicate SelectionResolves()
      reads this, realm
    {
      && selectedCategory.Some? && realm.FindCategory(selectedCategory.value).Some?
      && selectedAccount.Some? && realm.FindAccount(selectedAccount.value).Some?
    }

    /** The effect: lists the categories of the current kind and all accounts,
        preselects the first of each, and, for an edit, loads the transaction's
        values over them and enters editing mode. */
    method Effect()
      modifies this
      ensures categories == OfferedCategories(realm.categories, old(kind)) && accounts == realm.accounts
      ensures routeTransaction.None? ==>
        && kind == old(kind)
        && selectedCategory == (if |categories| > 0 then Some(categories[0].id) else old(selectedCategory))
        && selectedAccount == (if |accounts| > 0 then Some(accounts[0].id) else old(selectedAccount))
        && amount == old(amount) && description == old(description) && date == old(date)
        && isEditing == old(isEditing) && editingTransactionId == old(editingTransactionId)
      ensures routeTransaction.Some? ==>
        && Holds(Prefill(routeTransaction.value))
        && isEditing && editingTransactionId == Some(routeTransaction.value.id)
    {
      var fetchedCategories := OfferedCategories(realm.categories, kind);
      var fetchedAccounts := realm.accounts;
      categories := fetchedCategories;
      accounts := fetchedAccounts;
      if |fetchedCategories| > 0 {
        selectedCategory := Some(fetchedCategories[0].id);
      }
      if |fetchedAccounts| > 0 {
        selectedAccount := Some(fetchedAccounts[0].id);
      }
      match routeTransaction
      case None =>
      case Some(t) =>
        amount := t.amount;
        description := t.description.GetOr("");
        kind := t.kind;
        date := t.dateTime;
        selectedCategory := Some(t.category);
        selectedAccount := Some(t.account);
        isEditing := true;
        editingTransactionId := Some(t.id);
    }

    /** Mounting: the effect runs, and runs once more when it changed the kind
        (an edit of a transaction of another kind). For a new transaction the
        first category of the kind and the first account are preselected; for
        an edit the form holds the transaction and the picker its kind's categories. */
    method Mount()
      modifies this
      ensures accounts == realm.accounts
      ensures routeTransaction.None? ==>
        && kind == old(kind) && categories == OfferedCategories(realm.categories, kind)
        && selectedCategory == (if |categories| > 0 then Some(categories[0].id) else old(selectedCategory))
        && selectedAccount == (if |accounts| > 0 then Some(accounts[0].id) else old(selectedAccount))
        && amount == old(amount) && description == old(description) && date == old(date)
        && isEditing == old(isEditing) && editingTransactionId == old(editingTransactionId)
      ensures routeTransaction.Some? ==>
        && Holds(Prefill(routeTransaction.value))
        && categories == OfferedCategories(realm.categories, routeTransaction.value.kind)
        && isEditing && editingTransactionId == Some(routeTransaction.value.id)
    {
      var before := kind;
      Effect();
      if kind != before {
        Effect();
      }
    }

    /** The Income / Expense buttons. A change of kind re-runs the effect, which
        for a new transaction re-lists and preselects; for an edit it reloads the
        transaction, so the kind returns to the transaction's own. */
    method ChangeType(k: TxType)
      modifies this
      ensures old(kind) == Some(k) ==> unchanged(this)
      ensures old(kind) != Some(k) ==> accounts == realm.accounts
      ensures old(kind) != Some(k) && routeTransaction.None? ==>
        && kind == Some(k) && categories == OfferedCategories(realm.categories, Some(k))
        && selectedCategory == (if |categories| > 0 then Some(categories[0].id) else old(selectedCategory))
        && selectedAccount == (if |accounts| > 0 then Some(accounts[0].id) else old(selectedAccount))
        && amount == old(amount) && description == old(description) && date == old(date)
        && isEditing == old(isEditing) && editingTransactionId == old(editingTransactionId)
      ensures old(kind) != Some(k) && routeTransaction.Some? ==>
        && Holds(Prefill(routeTransaction.value))
        && categories == OfferedCategories(realm.categories, routeTransaction.value.kind)
        && isEditing && editingTransactionId == Some(routeTransaction.value.id)
    {
      if kind == Some(k) {
        return;
      }
      kind := Some(k);
      Effect();
      if kind != Some(k) {
        Effect();
      }
    }

    method SetAmount(value: real)
      modifies this`amount
      ensures amount == value
    {
      amount := value;
    }

    method SetDescription(value: string)
      modifies this`description
      ensures description == value
    {
      description := value;
    }

    method SetDate(value: int)
      modifies this`date
      ensures date == value
    {
      date := value;
    }

    method SelectCategory(id: Id)
      modifies this`selectedCategory
      ensures selectedCategory == Some(id)
    {
      selectedCategory := Some(id);
    }

    method SelectAccount(id: Id)
      modifies this`selectedAccount
      ensures selectedAccount == Some(id)
    {
      selectedAccount := Some(id);
    }

    /** `saveTransaction`, one write. In editing mode the transaction with the
        editing id, if it still exists, is updated in place from the form; if
        it is gone nothing is written. Otherwise one transaction with a fresh id
        is created from the form. A selection that does not resolve aborts the
        write, leaving the store unchanged. */
    method SaveTransaction() returns (outcome: SaveOutcome)
      requires realm.Valid()
      modifies realm
      ensures realm.Valid()
      ensures realm.accounts == old(realm.accounts) && realm.categories == old(realm.categories)
      ensures outcome ==
        if isEditing && editingTransactionId.Some? then
          (if old(realm.FindTransaction(editingTransactionId.value)).None? then StaleEdit
           else if !old(SelectionResolves()) then InvalidReference
           else Updated)
        else if !old(SelectionResolves()) then InvalidReference
        else Created(old(realm.nextId))
      ensures outcome.StaleEdit? || outcome.InvalidReference? ==> unchanged(realm)
      ensures outcome.Updated? ==>
        && realm.nextId == old(realm.nextId)
        && (match old(IndexOf(realm.transactions, TransactionId, editingTransactionId.value))
            case None => false
            case Some(i) => realm.transactions == old(realm.transactions)[i := Edited(old(realm.transactions)[i], CurrentForm())])
      ensures outcome.Created? ==>
        && outcome.id !in old(Keys(realm.transactions, TransactionId))
        && realm.nextId == old(realm.nextId) + 1
        && realm.transactions == old(realm.transactions) + [Fresh(outcome.id, CurrentForm())]
      ensures old(realm.Consistent()) ==> realm.Consistent()
    {
      if isEditing && editingTransactionId.Some? {
        var id := editingTransactionId.value;
        match IndexOf(realm.transactions, TransactionId, id)
        case None =>
          return StaleEdit;
        case Some(i) =>
          if !SelectionResolves() {
            return InvalidReference;
          }
          var t := Edited(realm.transactions[i], CurrentForm());
          realm.ReplaceTransaction(i, t);
          return Updated;
      } else {
        if !SelectionResolves() {
          return InvalidReference;
        }
        var id := realm.CreateTransaction(Fresh(0, CurrentForm()));
        return Created(id);
      }
    }
  }
}
