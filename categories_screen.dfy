/** The category management screen: the categories of one kind, and adding,
    editing and deleting categories. */
module CategoriesScreen {
  import opened Wrappers
  import opened Models
  import opened Keyed
  import opened Text
  import opened Store

  /** `filtered('type == $0', kind)`: the categories of kind `k`, in store order. */
  function CategoriesOfKind(cs: seq<Category>, k: TxType): (r: seq<Category>)
    ensures |r| <= |cs|
  {
    if |cs| == 0 then []
    else
      var n := |cs| - 1;
      CategoriesOfKind(cs[..n], k) + (if cs[n].kind == k then [cs[n]] else [])
  }

  /** The listed categories are exactly the stored ones of kind `k`. */
  lemma {:induction false} CategoriesOfKindMembers(cs: seq<Category>, k: TxType)
    ensures forall c :: c in CategoriesOfKind(cs, k) <==> c in cs && c.kind == k
  {
    if |cs| > 0 {
      var n := |cs| - 1;
      CategoriesOfKindMembers(cs[..n], k);
      assert forall c :: c in cs <==> c in cs[..n] || c == cs[n] by {
        assert cs == cs[..n] + [cs[n]];
      }
    }
  }

  /** Adding a category of kind `k` appends it to the listed categories of kind
      `k` and leaves the listing of the other kind as it was. */
  lemma CategoriesOfKindAppend(cs: seq<Category>, c: Category, k: TxType)
    ensures CategoriesOfKind(cs + [c], k) == CategoriesOfKind(cs, k) + (if c.kind == k then [c] else [])
  {
    assert (cs + [c])[..|cs|] == cs;
  }

  class CategoriesManagementScreen {
    const realm: Realm
    var categories: seq<Category>
    var categoryName: string
    var categoryType: TxType
    var isEditing: bool
    var editingCategoryId: Option<Id>

    constructor (realm: Realm)
      ensures this.realm == realm && categories == [] && categoryName == "" && categoryType == Income
      ensures !isEditing && editingCategoryId == None
    {
      this.realm := realm;
      categories, categoryName, categoryType := [], "", Income;
      isEditing, editingCategoryId := false, None;
    }

    /** `fetchCategories`: lists the store's categories of the current kind. */
    method FetchCategories()
      modifies this`categories
      ensures categories == CategoriesOfKind(realm.categories, categoryType)
      ensures forall c :: c in categories <==> c in realm.categories && c.kind == categoryType
    {
      CategoriesOfKindMembers(realm.categories, categoryType);
      categories := CategoriesOfKind(realm.categories, categoryType);
    }

    /** The Income / Expense toggle, followed by the effect that re-lists. */
    method SetCategoryType(k: TxType)
      modifies this`categoryType, this`categories
      ensures categoryType == k && categories == CategoriesOfKind(realm.categories, k)
    {
      categoryType := k;
      FetchCategories();
    }

    /** The name input. */
    method SetCategoryName(name: string)
      modifies this`categoryName
      ensures categoryName == name
    {
      categoryName := name;
    }

    /** "Add": a blank name is refused with no write; otherwise one category
        with a fresh id, the name as typed (untrimmed) and the current kind is
        created, the input is cleared and the list refreshed. */
    method AddCategory() returns (added: bool)
      requires realm.Valid()
      modifies this`categoryName, this`categories, realm
      ensures realm.Valid()
      ensures added <==> !IsBlank(old(categoryName))
      ensures !added ==> unchanged(realm) && categoryName == old(categoryName) && categories == old(categories)
      ensures added ==>
        && realm.categories == old(realm.categories) + [Category(old(realm.nextId), old(categoryName), categoryType)]
        && old(realm.nextId !in Keys(realm.categories, CategoryId))
        && realm.accounts == old(realm.accounts) && realm.transactions == old(realm.transactions)
        && categoryName == ""
        && categories == CategoriesOfKind(realm.categories, categoryType)
      ensures old(realm.Consistent()) ==> realm.Consistent()
    {
      if IsBlank(categoryName) {
        return false;
      }
      var id := realm.CreateCategory(categoryName, categoryType);
      categoryName := "";
      FetchCategories();
      return true;
    }

    /** "Edit": loads the category into the form; a change of kind re-lists. */
    method EditCategory(c: Category)
      modifies this
      ensures categoryName == c.name && categoryType == c.kind && isEditing && editingCategoryId == Some(c.id)
      ensures old(categoryType) != c.kind ==> categories == CategoriesOfKind(realm.categories, c.kind)
      ensures old(categoryType) == c.kind ==> categories == old(categories)
    {
      var changed := categoryType != c.kind;
      categoryName := c.name;
      categoryType := c.kind;
      isEditing := true;
      editingCategoryId := Some(c.id);
      if changed {
        FetchCategories();
      }
    }

    /** "Update": with an editing id, the category with that id (if it still
        exists) takes the form's name and kind and keeps its id; the name is not
        checked for blankness. The form is then reset and the list refreshed.
        Without an editing id nothing happens. */
    method UpdateCategory()
      requires realm.Valid()
      modifies this, realm
      ensures realm.Valid()
      ensures old(editingCategoryId).None? ==> unchanged(this) && unchanged(realm)
      ensures old(editingCategoryId).Some? ==>
        && (match old(IndexOf(realm.categories, CategoryId, editingCategoryId.value))
            case None => realm.categories == old(realm.categories)
            case Some(i) => realm.categories == old(realm.categories)[i := Category(old(editingCategoryId.value), old(categoryName), old(categoryType))])
        && realm.accounts == old(realm.accounts) && realm.transactions == old(realm.transactions)
        && realm.nextId == old(realm.nextId)
        && categoryName == "" && !isEditing && editingCategoryId.None? && categoryType == old(categoryType)
        && categories == CategoriesOfKind(realm.categories, categoryType)
      ensures old(realm.Consistent()) ==> realm.Consistent()
    {
      match editingCategoryId
      case None =>
      case Some(id) =>
        realm.UpdateCategory(id, categoryName, categoryType);
        categoryName := "";
        isEditing := false;
        editingCategoryId := None;
        FetchCategories();
    }

    /** "Delete": an id that does not resolve does nothing; a category that
        transactions refer to is kept (the alert); otherwise exactly that
        category is removed and the list refreshed. */
    method DeleteCategory(id: Id) returns (outcome: DeleteOutcome)
      requires realm.Valid()
      modifies this`categories, realm
      ensures realm.Valid()
      ensures outcome ==
        if old(realm.FindCategory(id)).None? then NotFound
        else if CountByCategory(old(realm.transactions), id) > 0 then HasDependents(CountByCategory(old(realm.transactions), id))
        else Deleted
      ensures !outcome.Deleted? ==> unchanged(realm) && categories == old(categories)
      ensures outcome.Deleted? ==>
        && realm.categories == Retained(old(realm.categories), CategoryId, [id])
        && realm.FindCategory(id).None?
        && realm.accounts == old(realm.accounts) && realm.transactions == old(realm.transactions)
        && realm.nextId == old(realm.nextId)
        && categories == CategoriesOfKind(realm.categories, categoryType)
      ensures old(realm.Consistent()) ==> realm.Consistent()
    {
      if realm.FindCategory(id).None? {
        return NotFound;
      }
      var count := CountByCategory(realm.transactions, id);
      if count > 0 {
        return HasDependents(count);
      }
      realm.DeleteCategory(id);
      FetchCategories();
      return Deleted;
    }
  }
}
