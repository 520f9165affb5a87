/** The store provider: opening the store seeds it with the default categories
    and account when those collections are empty, and screens obtain the store
    through `UseRealm`. */
module Provider {
  import opened Wrappers
  import opened Models
  import opened Keyed
  import opened Store
  import opened DefaultData

  /** The categories created from `seeds` in order, the first with id `n`. */
  function SeededCategories(seeds: seq<CategorySeed>, n: Id): (r: seq<Category>)
    ensures |r| == |seeds|
    ensures forall i :: 0 <= i < |r| ==> r[i] == Category(n + i, seeds[i].name, seeds[i].kind)
  {
    if |seeds| == 0 then []
    else
      var k := |seeds| - 1;
      SeededCategories(seeds[..k], n) + [Category(n + k, seeds[k].name, seeds[k].kind)]
  }

  /** The store after seeding: the default categories when there are no
      categories, then the default account when there are no accounts. */
  function Seed(db: Db): Db {
    var withCategories :=
      if |db.categories| == 0
      then db.(categories := SeededCategories(DEFAULT_CATEGORIES, db.nextId), nextId := db.nextId + |DEFAULT_CATEGORIES|)
      else db;
    if |withCategories.accounts| == 0
    then withCategories.(accounts := [Account(withCategories.nextId, DEFAULT_ACCOUNT)], nextId := withCategories.nextId + 1)
    else withCategories
  }

  /** An empty category collection receives exactly the defaults, in order,
      with consecutive fresh ids; a non-empty one is left as it is. */
  lemma SeedCategories(db: Db)
    ensures |db.categories| == 0 ==>
      && |Seed(db).categories| == |DEFAULT_CATEGORIES|
      && forall i :: 0 <= i < |DEFAULT_CATEGORIES| ==>
           Seed(db).categories[i] == Category(db.nextId + i, DEFAULT_CATEGORIES[i].name, DEFAULT_CATEGORIES[i].kind)
    ensures |db.categories| > 0 ==> Seed(db).categories == db.categories
  {
  }

  /** An empty account collection receives one account named `DEFAULT_ACCOUNT`;
      a non-empty one is left as it is. */
  lemma SeedAccounts(db: Db)
    ensures |db.accounts| == 0 ==> |Seed(db).accounts| == 1 && Seed(db).accounts[0].name == DEFAULT_ACCOUNT
    ensures |db.accounts| > 0 ==> Seed(db).accounts == db.accounts
  {
  }

  /** Seeding never touches transactions, and seeding twice is seeding once. */
  lemma SeedIdempotent(db: Db)
    ensures Seed(db).transactions == db.transactions
    ensures Seed(Seed(db)) == Seed(db)
  {
    DefaultCategoriesShape();
  }

  /** Seeding keeps the primary-key constraint and referential integrity. */
  lemma SeedKeepsInvariants(db: Db)
    requires DbValid(db)
    ensures DbValid(Seed(db))
    ensures DbConsistent(db) ==> DbConsistent(Seed(db))
  {
    var s := Seed(db);
    if |db.categories| == 0 {
      var cs := SeededCategories(DEFAULT_CATEGORIES, db.nextId);
      assert UniqueKeys(cs, CategoryId) by {
        forall i, j | 0 <= i < j < |cs| ensures CategoryId(cs[i]) != CategoryId(cs[j]) {
        }
      }
    }
  }

  /** Adding one more seed appends one category with the next id. */
  lemma SeededCategoriesSnoc(seeds: seq<CategorySeed>, n: Id, i: nat)
    requires i < |seeds|
    ensures SeededCategories(seeds[..i + 1], n) == SeededCategories(seeds[..i], n) + [Category(n + i, seeds[i].name, seeds[i].kind)]
  {
    assert seeds[..i + 1][..i] == seeds[..i];
  }

  /** The default-categories write: creates one category per seed, in order. */
  method CreateCategories(realm: Realm, seeds: seq<CategorySeed>)
    requires realm.Valid()
    modifies realm
    ensures realm.Valid()
    ensures realm.categories == old(realm.categories) + SeededCategories(seeds, old(realm.nextId))
    ensures realm.nextId == old(realm.nextId) + |seeds|
    ensures realm.accounts == old(realm.accounts) && realm.transactions == old(realm.transactions)
  {
    for i := 0 to |seeds|
      invariant realm.Valid()
      invariant realm.categories == old(realm.categories) + SeededCategories(seeds[..i], old(realm.nextId))
      invariant realm.nextId == old(realm.nextId) + i
      invariant realm.accounts == old(realm.accounts) && realm.transactions == old(realm.transactions)
    {
      SeededCategoriesSnoc(seeds, old(realm.nextId), i);
      var _ := realm.CreateCategory(seeds[i].name, seeds[i].kind);
    }
    assert seeds[..|seeds|] == seeds;
  }

  /** The seeding block of the provider's mount effect: one write creating the
      default categories in order when there are none, then one creating the
      default account when there is none. */
  method SeedDefaults(realm: Realm)
    requires realm.Valid()
    modifies realm
    ensures realm.Valid()
    ensures realm.State() == Seed(old(realm.State()))
  {
    if |realm.categories| == 0 {
      CreateCategories(realm, DEFAULT_CATEGORIES);
    }
    if |realm.accounts| == 0 {
      var _ := realm.CreateAccount(DEFAULT_ACCOUNT);
    }
  }

  const CONTEXT_ERROR: string := "Realm context is not available!"

  class RealmProvider {
    /** The opened store, once the mount effect has run. */
    var realm: Realm?

    constructor ()
      ensures realm == null
    {
      realm := null;
    }

    /** The mount effect: seeds the opened store `instance`, then publishes it. */
    method Mount(instance: Realm)
      requires instance.Valid()
      modifies this, instance
      ensures realm == instance && instance.Valid()
      ensures instance.State() == Seed(old(instance.State()))
    {
      SeedDefaults(instance);
      realm := instance;
    }

    /** `useRealm`: the published store, or the error raised when there is none. */
    function UseRealm(): (r: Result<Realm, string>)
      reads this
      ensures r.Success? <==> realm != null
      ensures r.Success? ==> r.value == realm
      ensures r.Failure? ==> r.error == CONTEXT_ERROR
    {
      if realm == null then Failure(CONTEXT_ERROR) else Success(realm)
    }
  }
}
