/** The data a new store is seeded with. */
module DefaultData {
  import opened Models

  /** A category to seed: its name and kind; the id is assigned when it is created. */
  datatype CategorySeed = CategorySeed(name: string, kind: TxType)

  /** Five expense categories, then three income categories. */
  const DEFAULT_CATEGORIES: seq<CategorySeed> := [
    CategorySeed("Groceries", Expense),
    CategorySeed("Bills", Expense),
    CategorySeed("Transportation", Expense),
    CategorySeed("Entertainment", Expense),
    CategorySeed("Miscellaneous", Expense),
    CategorySeed("Salary", Income),
    CategorySeed("Investments", Income),
    CategorySeed("Freelance", Income)
  ]

  const DEFAULT_ACCOUNT: string := "Main Account"

  /** Eight defaults: the first five are expense categories, the last three income. */
  lemma DefaultCategoriesShape()
    ensures |DEFAULT_CATEGORIES| == 8
    ensures forall i :: 0 <= i < 5 ==> DEFAULT_CATEGORIES[i].kind == Expense
    ensures forall i :: 5 <= i < 8 ==> DEFAULT_CATEGORIES[i].kind == Income
  {
  }

  /** No two defaults share a name. */
  lemma DefaultCategoryNamesDistinct()
    ensures forall i, j :: 0 <= i < j < |DEFAULT_CATEGORIES| ==> DEFAULT_CATEGORIES[i].name != DEFAULT_CATEGORIES[j].name
  {
  }
}
