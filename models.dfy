/** The three record types of the store: Account, Category and Transaction.
    Object ids are opaque; a transaction refers to its category and account by id,
    so a rename of either is seen through the reference, as with the store's links. */
module Models {
  import opened Wrappers

  /** An opaque object id (a 12-byte object identifier in the store). */
  type Id = nat

  /** The kinds 'income' and 'expense'. */
  datatype TxType = Income | Expense

  /** An account: primary key and display name; names need not be unique. */
  datatype Account = Account(id: Id, name: string)

  /** A category: primary key, display name (not unique) and kind. */
  datatype Category = Category(id: Id, name: string, kind: TxType)

  /** A transaction. `dateTime` is a timestamp, `amount` the parsed number.
      `kind` and the text fields are optional; the two repeating fields are
      declared data that no logic reads. */
  datatype Transaction = Transaction(
    id: Id,
    kind: Option<TxType>,
    dateTime: int,
    amount: real,
    category: Id,
    account: Id,
    description: Option<string>,
    note: Option<string>,
    repeatingFrequency: Option<string>,
    repeatingEndDate: Option<int>)

  /** Primary-key functions, passed to the generic collection operations. */
  function AccountId(a: Account): Id { a.id }
  function CategoryId(c: Category): Id { c.id }
  function TransactionId(t: Transaction): Id { t.id }
}
