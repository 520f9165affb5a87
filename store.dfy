/** The embedded object store, reduced to three insertion-ordered collections
    with primary keys and a source of fresh object ids. Schema validation,
    persistence, write scopes and change listeners are not modelled. */
module Store {
  import opened Wrappers
  import opened Models
  import opened Keyed

  /** A snapshot of the store's contents; `nextId` is the next fresh object id. */
  datatype Db = Db(accounts: seq<Account>, categories: seq<Category>, transactions: seq<Transaction>, nextId: Id)

  /** Primary keys are unique in every collection, and every id in use is below `nextId`. */
  ghost predicate DbValid(db: Db) {
    && UniqueKeys(db.accounts, AccountId)
    && UniqueKeys(db.categories, CategoryId)
    && UniqueKeys(db.transactions, TransactionId)
    && (forall i :: 0 <= i < |db.accounts| ==> db.accounts[i].id < db.nextId)
    && (forall i :: 0 <= i < |db.categories| ==> db.categories[i].id < db.nextId)
    && (forall i :: 0 <= i < |db.transactions| ==> db.transactions[i].id < db.nextId)
  }

  /** Referential integrity: every transaction's category and account exist. */
  ghost predicate DbConsistent(db: Db) {
    forall i :: 0 <= i < |db.transactions| ==>
      && db.transactions[i].account in Keys(db.accounts, AccountId)
      && db.transactions[i].category in Keys(db.categories, CategoryId)
  }

  /** The number of transactions whose account is `id` (`filtered('account._id == $0').length`). */
  function CountByAccount(ts: seq<Transaction>, id: Id): (n: nat)
    ensures n <= |ts|
    ensures n == 0 <==> forall i :: 0 <= i < |ts| ==> ts[i].account != id
  {
    if |ts| == 0 then 0
    else (if ts[0].account == id then 1 else 0) + CountByAccount(ts[1..], id)
  }

  /** The number of transactions whose category is `id` (`filtered('category._id == $0').length`). */
  function CountByCategory(ts: seq<Transaction>, id: Id): (n: nat)
    ensures n <= |ts|
    ensures n == 0 <==> forall i :: 0 <= i < |ts| ==> ts[i].category != id
  {
    if |ts| == 0 then 0
    else (if ts[0].category == id then 1 else 0) + CountByCategory(ts[1..], id)
  }

  /** An id at or above every id in use is not in use. */
  lemma FreshKey<T>(s: seq<T>, key: T -> Id, n: Id)
    requires forall i :: 0 <= i < |s| ==> key(s[i]) < n
    ensures n !in Keys(s, key)
  {
  }

  /** Removing transactions keeps referential integrity. */
  lemma RetainedTransactionsConsistent(db: Db, ids: seq<Id>)
    requires DbConsistent(db)
    ensures DbConsistent(db.(transactions := Retained(db.transactions, TransactionId, ids)))
  {
    var r := Retained(db.transactions, TransactionId, ids);
    RetainedMembers(db.transactions, TransactionId, ids);
    forall i | 0 <= i < |r|
      ensures r[i].account in Keys(db.accounts, AccountId) && r[i].category in Keys(db.categories, CategoryId)
    {
      assert r[i] in db.transactions;
    }
  }

  /** The outcome of a guarded delete: the id did not resolve, the delete was
      refused because transactions refer to the record, the user cancelled the
      confirmation, or the record was deleted. */
  datatype DeleteOutcome = NotFound | HasDependents(count: nat) | Cancelled | Deleted

  class Realm {
    var accounts: seq<Account>
    var categories: seq<Category>
    var transactions: seq<Transaction>
    var nextId: Id

    function State(): Db
      reads this
    {
      Db(accounts, categories, transactions, nextId)
    }

    ghost predicate Valid()
      reads this
    {
      DbValid(State())
    }

    ghost predicate Consistent()
      reads this
    {
      DbConsistent(State())
    }

    constructor ()
      ensures Valid() && Consistent()
      ensures State() == Db([], [], [], 0)
    {
      accounts, categories, transactions, nextId := [], [], [], 0;
    }

    function FindAccount(id: Id): Option<Account>
      reads this
    {
      Find(accounts, AccountId, id)
    }

    function FindCategory(id: Id): Option<Category>
      reads this
    {
      Find(categories, CategoryId, id)
    }

    function FindTransaction(id: Id): Option<Transaction>
      reads this
    {
      Find(transactions, TransactionId, id)
    }

    /** `create('Account', {_id: new ObjectId(), name})`. */
    method CreateAccount(name: string) returns (id: Id)
      requires Valid()
      modifies this
      ensures Valid()
      ensures id == old(nextId) && nextId == id + 1 && old(FindAccount(id)).None?
      ensures accounts == old(accounts) + [Account(id, name)]
      ensures categories == old(categories) && transactions == old(transactions)
      ensures old(Consistent()) ==> Consistent()
    {
      id := nextId;
      FreshKey(accounts, AccountId, nextId);
      KeysAppend(accounts, AccountId, Account(id, name));
      accounts := accounts + [Account(id, name)];
      nextId := nextId + 1;
    }

    /** `create('Category', {_id: new ObjectId(), name, type})`. */
    method CreateCategory(name: string, kind: TxType) returns (id: Id)
      requires Valid()
      modifies this
      ensures Valid()
      ensures id == old(nextId) && nextId == id + 1 && old(FindCategory(id)).None?
      ensures categories == old(categories) + [Category(id, name, kind)]
      ensures accounts == old(accounts) && transactions == old(transactions)
      ensures old(Consistent()) ==> Consistent()
    {
      id := nextId;
      FreshKey(categories, CategoryId, nextId);
      KeysAppend(categories, CategoryId, Category(id, name, kind));
      categories := categories + [Category(id, name, kind)];
      nextId := nextId + 1;
    }

    /** `create('Transaction', {...})`: stores `t` under a fresh id. */
    method CreateTransaction(t: Transaction) returns (id: Id)
      requires Valid()
      modifies this
      ensures Valid()
      ensures id == old(nextId) && nextId == id + 1 && old(FindTransaction(id)).None?
      ensures transactions == old(transactions) + [t.(id := id)]
      ensures accounts == old(accounts) && categories == old(categories)
      ensures old(Consistent()) && t.account in Keys(accounts, AccountId) && t.category in Keys(categories, CategoryId)
              ==> Consistent()
    {
      id := nextId;
      FreshKey(transactions, TransactionId, nextId);
      transactions := transactions + [t.(id := id)];
      nextId := nextId + 1;
    }

    /** `delete(account)`: removes the account with primary key `id`. */
    method DeleteAccount(id: Id)
      requires Valid()
      modifies this
      ensures Valid() && FindAccount(id).None?
      ensures accounts == Retained(old(accounts), AccountId, [id])
      ensures categories == old(categories) && transactions == old(transactions) && nextId == old(nextId)
      ensures old(Consistent()) && CountByAccount(transactions, id) == 0 ==> Consistent()
    {
      RetainedUnique(accounts, AccountId, [id]);
      RetainedMembers(accounts, AccountId, [id]);
      KeysRetained(accounts, AccountId, [id]);
      accounts := Retained(accounts, AccountId, [id]);
    }

    /** `delete(category)`: removes the category with primary key `id`. */
    method DeleteCategory(id: Id)
      requires Valid()
      modifies this
      ensures Valid() && FindCategory(id).None?
      ensures categories == Retained(old(categories), CategoryId, [id])
      ensures accounts == old(accounts) && transactions == old(transactions) && nextId == old(nextId)
      ensures old(Consistent()) && CountByCategory(transactions, id) == 0 ==> Consistent()
    {
      RetainedUnique(categories, CategoryId, [id]);
      RetainedMembers(categories, CategoryId, [id]);
      KeysRetained(categories, CategoryId, [id]);
      categories := Retained(categories, CategoryId, [id]);
    }

    /** `objectForPrimaryKey('Transaction', id)` followed by `delete` when it resolves;
        an id that does not resolve is skipped. */
    method DeleteTransaction(id: Id)
      requires Valid()
      modifies this
      ensures Valid() && FindTransaction(id).None?
      ensures transactions == Retained(old(transactions), TransactionId, [id])
      ensures accounts == old(accounts) && categories == old(categories) && nextId == old(nextId)
      ensures old(Consistent()) ==> Consistent()
    {
      RetainedUnique(transactions, TransactionId, [id]);
      RetainedMembers(transactions, TransactionId, [id]);
      KeysRetained(transactions, TransactionId, [id]);
      transactions := Retained(transactions, TransactionId, [id]);
    }

    /** `account.name = name` on the stored account with primary key `id`, if any. */
    method RenameAccount(id: Id, name: string)
      requires Valid()
      modifies this
      ensures Valid()
      ensures match old(IndexOf(accounts, AccountId, id))
              case None => accounts == old(accounts)
              case Some(i) => accounts == old(accounts)[i := Account(id, name)]
      ensures categories == old(categories) && transactions == old(transactions) && nextId == old(nextId)
      ensures old(Consistent()) ==> Consistent()
    {
      match IndexOf(accounts, AccountId, id)
      case None =>
      case Some(i) =>
        KeysUpdate(accounts, AccountId, i, Account(id, name));
        accounts := accounts[i := Account(id, name)];
    }

    /** `category.name = name; category.type = kind` on the category with primary key `id`, if any. */
    method UpdateCategory(id: Id, name: string, kind: TxType)
      requires Valid()
      modifies this
      ensures Valid()
      ensures match old(IndexOf(categories, CategoryId, id))
              case None => categories == old(categories)
              case Some(i) => categories == old(categories)[i := Category(id, name, kind)]
      ensures accounts == old(accounts) && transactions == old(transactions) && nextId == old(nextId)
      ensures old(Consistent()) ==> Consistent()
    {
      match IndexOf(categories, CategoryId, id)
      case None =>
      case Some(i) =>
        KeysUpdate(categories, CategoryId, i, Category(id, name, kind));
        categories := categories[i := Category(id, name, kind)];
    }

    /** Replaces the stored transaction at position `i` by `t`, which keeps its id. */
    method ReplaceTransaction(i: nat, t: Transaction)
      requires Valid() && i < |transactions| && t.id == transactions[i].id
      modifies this
      ensures Valid()
      ensures transactions == old(transactions)[i := t]
      ensures accounts == old(accounts) && categories == old(categories) && nextId == old(nextId)
      ensures old(Consistent()) && t.account in Keys(accounts, AccountId) && t.category in Keys(categories, CategoryId)
              ==> Consistent()
    {
      KeysUpdate(transactions, TransactionId, i, t);
      transactions := transactions[i := t];
    }
  }
}
