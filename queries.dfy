/** The transaction list query of the Transactions screen: filter by kind,
    filter by account name, sort descending by date or amount, and the income
    and expense totals over the result. */
module Queries {
  import opened Wrappers
  import opened Models
  import opened Keyed

  /** The kind picker: 'all', 'income' or 'expense'. */
  datatype TypeFilter = AllTypes | OnlyType(kind: TxType)

  /** The sort picker: 'date' or 'amount'; both sort descending. */
  datatype SortOption = ByDate | ByAmount

  /** The account-picker value meaning "no account restriction". Account names
      are picker values too, so an account named "all" cannot be singled out. */
  const ALL: string := "all"

  predicate MatchesType(t: Transaction, f: TypeFilter) {
    f.AllTypes? || t.kind == Some(f.kind)
  }

  /** The name of the account a transaction refers to (`transaction.account.name`). */
  function AccountNameOf(accounts: seq<Account>, id: Id): Option<string> {
    match Find(accounts, AccountId, id)
    case None => None
    case Some(a) => Some(a.name)
  }

  /** `account.name == selected`, or no restriction when `selected` is "all";
      the match is by name, so accounts sharing a name are merged. */
  predicate MatchesAccount(t: Transaction, accounts: seq<Account>, selected: string) {
    selected == ALL || AccountNameOf(accounts, t.account) == Some(selected)
  }

  /** `filtered('type == $0', kind)`, or everything for 'all'. */
  function FilterByType(ts: seq<Transaction>, f: TypeFilter): (r: seq<Transaction>)
    ensures |r| <= |ts|
  {
    if |ts| == 0 then []
    else
      var n := |ts| - 1;
      FilterByType(ts[..n], f) + (if MatchesType(ts[n], f) then [ts[n]] else [])
  }

  /** `filtered('account.name == $0', selected)`, or everything for "all". */
  function FilterByAccountName(ts: seq<Transaction>, accounts: seq<Account>, selected: string): (r: seq<Transaction>)
    ensures |r| <= |ts|
  {
    if |ts| == 0 then []
    else
      var n := |ts| - 1;
      FilterByAccountName(ts[..n], accounts, selected) + (if MatchesAccount(ts[n], accounts, selected) then [ts[n]] else [])
  }

  /** The kind filter keeps exactly the matching transactions, each as often as before. */
  lemma {:induction false} FilterByTypeMultiset(ts: seq<Transaction>, f: TypeFilter)
    ensures forall t :: multiset(FilterByType(ts, f))[t] == if MatchesType(t, f) then multiset(ts)[t] else 0
  {
    if |ts| > 0 {
      var n := |ts| - 1;
      assert ts == ts[..n] + [ts[n]];
      FilterByTypeMultiset(ts[..n], f);
    }
  }

  /** The account filter keeps exactly the matching transactions, each as often as before. */
  lemma {:induction false} FilterByAccountNameMultiset(ts: seq<Transaction>, accounts: seq<Account>, selected: string)
    ensures forall t :: multiset(FilterByAccountName(ts, accounts, selected))[t] ==
                        (if MatchesAccount(t, accounts, selected) then multiset(ts)[t] else 0)
  {
    if |ts| > 0 {
      var n := |ts| - 1;
      assert ts == ts[..n] + [ts[n]];
      FilterByAccountNameMultiset(ts[..n], accounts, selected);
    }
  }

  function SortKey(t: Transaction, o: SortOption): real {
    match o
    case ByDate => t.dateTime as real
    case ByAmount => t.amount
  }

  /** Most recent (or largest) first. */
  ghost predicate NonIncreasing(s: seq<Transaction>, o: SortOption) {
    forall i, j :: 0 <= i < j < |s| ==> SortKey(s[i], o) >= SortKey(s[j], o)
  }

  /** Inserts `x` before the first element whose key does not exceed its own. */
  function Insert(x: Transaction, s: seq<Transaction>, o: SortOption): seq<Transaction> {
    if |s| == 0 then [x]
    else if SortKey(s[0], o) > SortKey(x, o) then [s[0]] + Insert(x, s[1..], o)
    else [x] + s
  }

  /** Inserting adds exactly `x`. */
  lemma {:induction false} InsertMultiset(x: Transaction, s: seq<Transaction>, o: SortOption)
    ensures multiset(Insert(x, s, o)) == multiset(s) + multiset{x}
  {
    if |s| > 0 {
      assert s == [s[0]] + s[1..];
      if SortKey(s[0], o) > SortKey(x, o) {
        InsertMultiset(x, s[1..], o);
      }
    }
  }

  /** Inserting keeps every key at or below a bound that `x` and all of `s` respect. */
  lemma {:induction false} InsertBounded(x: Transaction, s: seq<Transaction>, o: SortOption, bound: real)
    requires SortKey(x, o) <= bound
    requires forall i :: 0 <= i < |s| ==> SortKey(s[i], o) <= bound
    ensures forall i :: 0 <= i < |Insert(x, s, o)| ==> SortKey(Insert(x, s, o)[i], o) <= bound
  {
    if |s| > 0 && SortKey(s[0], o) > SortKey(x, o) {
      InsertBounded(x, s[1..], o, bound);
      var r := Insert(x, s, o);
      forall i | 0 <= i < |r| ensures SortKey(r[i], o) <= bound {
        if i > 0 {
          assert r[i] == Insert(x, s[1..], o)[i - 1];
        }
      }
    }
  }

  lemma {:induction false} InsertSorted(x: Transaction, s: seq<Transaction>, o: SortOption)
    requires NonIncreasing(s, o)
    ensures NonIncreasing(Insert(x, s, o), o)
    ensures |s| > 0 ==> Insert(x, s, o)[0] == if SortKey(s[0], o) > SortKey(x, o) then s[0] else x
  {
    if |s| > 0 && SortKey(s[0], o) > SortKey(x, o) {
      var rest := Insert(x, s[1..], o);
      InsertSorted(x, s[1..], o);
      InsertBounded(x, s[1..], o, SortKey(s[0], o));
      var r := [s[0]] + rest;
      forall i, j | 0 <= i < j < |r| ensures SortKey(r[i], o) >= SortKey(r[j], o) {
        assert r[j] == rest[j - 1];
        if i > 0 {
          assert r[i] == rest[i - 1];
        }
      }
    }
  }

  /** `sorted(field, true)`. Ties keep store order; the store itself leaves that order open. */
  function Sort(s: seq<Transaction>, o: SortOption): seq<Transaction> {
    if |s| == 0 then [] else Insert(s[0], Sort(s[1..], o), o)
  }

  /** The sort is a permutation: nothing is added, dropped or duplicated. */
  lemma {:induction false} SortMultiset(s: seq<Transaction>, o: SortOption)
    ensures multiset(Sort(s, o)) == multiset(s)
  {
    if |s| > 0 {
      assert s == [s[0]] + s[1..];
      SortMultiset(s[1..], o);
      InsertMultiset(s[0], Sort(s[1..], o), o);
    }
  }

  /** The sort puts the list in non-increasing order of the chosen field. */
  lemma {:induction false} SortSorted(s: seq<Transaction>, o: SortOption)
    ensures NonIncreasing(Sort(s, o), o)
  {
    if |s| > 0 {
      SortSorted(s[1..], o);
      InsertSorted(s[0], Sort(s[1..], o), o);
    }
  }

  /** `fetchTransactions`: the store's transactions filtered by kind, then by
      account name, then sorted. */
  function ListTransactions(ts: seq<Transaction>, accounts: seq<Account>, f: TypeFilter, selected: string, o: SortOption)
    : seq<Transaction>
  {
    Sort(FilterByAccountName(FilterByType(ts, f), accounts, selected), o)
  }

  /** The listed transactions are exactly the matching ones of the store, each
      as often as in the store (nothing added, dropped or duplicated), most
      recent or largest first. */
  lemma ListTransactionsCorrect(ts: seq<Transaction>, accounts: seq<Account>, f: TypeFilter, selected: string, o: SortOption)
    ensures NonIncreasing(ListTransactions(ts, accounts, f, selected, o), o)
    ensures forall t :: multiset(ListTransactions(ts, accounts, f, selected, o))[t] ==
                        (if MatchesType(t, f) && MatchesAccount(t, accounts, selected) then multiset(ts)[t] else 0)
    ensures forall t :: t in ListTransactions(ts, accounts, f, selected, o) <==>
      t in ts && MatchesType(t, f) && MatchesAccount(t, accounts, selected)
  {
    var byType := FilterByType(ts, f);
    var filtered := FilterByAccountName(byType, accounts, selected);
    FilterByTypeMultiset(ts, f);
    FilterByAccountNameMultiset(byType, accounts, selected);
    SortSorted(filtered, o);
    SortMultiset(filtered, o);
    var r := Sort(filtered, o);
    assert forall t :: t in r <==> t in multiset(r);
    assert forall t :: t in ts <==> t in multiset(ts);
  }

  /** That the account filter is skipped for the value "all" even when an
      account of that name exists. */
  lemma AccountNamedAllShowsEverything()
    ensures var accounts := [Account(0, "all"), Account(1, "Cash")];
            var t := Transaction(7, Some(Expense), 0, 5.0, 3, 1, None, None, None, None);
            ListTransactions([t], accounts, AllTypes, ALL, ByDate) == [t]
  {
  }

  /** `sum('amount')`. */
  function SumAmounts(ts: seq<Transaction>): real {
    if |ts| == 0 then 0.0 else SumAmounts(ts[..|ts| - 1]) + ts[|ts| - 1].amount
  }

  /** `filtered('type == "income"').sum('amount')` and its expense twin. */
  function TypeTotal(ts: seq<Transaction>, k: TxType): real {
    SumAmounts(FilterByType(ts, OnlyType(k)))
  }

  /** Transactions with no kind. */
  function Untyped(ts: seq<Transaction>): seq<Transaction> {
    if |ts| == 0 then []
    else
      var n := |ts| - 1;
      Untyped(ts[..n]) + (if ts[n].kind.None? then [ts[n]] else [])
  }

  lemma {:induction false} SumAmountsAppend(a: seq<Transaction>, b: seq<Transaction>)
    ensures SumAmounts(a + b) == SumAmounts(a) + SumAmounts(b)
  {
    if |b| == 0 {
      assert a + b == a;
    } else {
      var n := |b| - 1;
      var ab := a + b;
      assert ab[..|ab| - 1] == a + b[..n];
      assert ab[|ab| - 1] == b[n];
      SumAmountsAppend(a, b[..n]);
    }
  }

  /** A sum does not depend on the order of the transactions. */
  lemma {:induction false} SumAmountsPermutation(a: seq<Transaction>, b: seq<Transaction>)
    requires multiset(a) == multiset(b)
    ensures SumAmounts(a) == SumAmounts(b)
    decreases |a|
  {
    if |a| == 0 {
      assert |b| == |multiset(b)| == 0;
    } else {
      var n := |a| - 1;
      var x := a[n];
      assert a == a[..n] + [x];
      assert x in multiset(b);
      var j :| 0 <= j < |b| && b[j] == x;
      var rest := b[..j] + b[j + 1..];
      assert b == b[..j] + [x] + b[j + 1..];
      assert multiset(b) == multiset(b[..j]) + multiset{x} + multiset(b[j + 1..]);
      assert multiset(a) == multiset(a[..n]) + multiset{x};
      assert multiset(rest) == multiset(b[..j]) + multiset(b[j + 1..]);
      assert multiset(rest) == multiset(b) - multiset{x};
      assert multiset(a[..n]) == multiset(a) - multiset{x};
      SumAmountsPermutation(a[..n], rest);
      SumAmountsAppend(b[..j], b[j + 1..]);
      SumAmountsAppend(b[..j] + [x], b[j + 1..]);
      SumAmountsAppend(b[..j], [x]);
      assert SumAmounts([x]) == x.amount by {
        assert [x][..0] == [];
      }
    }
  }

  /** The kind filter distributes over concatenation. */
  lemma {:induction false} FilterByTypeAppend(a: seq<Transaction>, b: seq<Transaction>, f: TypeFilter)
    ensures FilterByType(a + b, f) == FilterByType(a, f) + FilterByType(b, f)
  {
    if |b| == 0 {
      assert a + b == a;
    } else {
      var n := |b| - 1;
      var ab := a + b;
      assert ab[..|ab| - 1] == a + b[..n];
      assert ab[|ab| - 1] == b[n];
      FilterByTypeAppend(a, b[..n], f);
    }
  }

  /** Appending one transaction adds its amount to the total of its kind only. */
  lemma TypeTotalSnoc(ts: seq<Transaction>, t: Transaction, k: TxType)
    ensures TypeTotal(ts + [t], k) == TypeTotal(ts, k) + (if t.kind == Some(k) then t.amount else 0.0)
  {
    FilterByTypeAppend(ts, [t], OnlyType(k));
    assert [t][..0] == [];
    SumAmountsAppend(FilterByType(ts, OnlyType(k)), FilterByType([t], OnlyType(k)));
  }

  lemma TypeTotalEmpty(k: TxType)
    ensures TypeTotal([], k) == 0.0
  {
  }

  /** Totals are the same whatever the order: sorting the list does not change them. */
  lemma TypeTotalPermutation(a: seq<Transaction>, b: seq<Transaction>, k: TxType)
    requires multiset(a) == multiset(b)
    ensures TypeTotal(a, k) == TypeTotal(b, k)
  {
    var fa, fb := FilterByType(a, OnlyType(k)), FilterByType(b, OnlyType(k));
    FilterByTypeMultiset(a, OnlyType(k));
    FilterByTypeMultiset(b, OnlyType(k));
    assert forall t :: multiset(fa)[t] == multiset(fb)[t];
    assert multiset(fa) == multiset(fb);
    SumAmountsPermutation(fa, fb);
  }

  /** Income, expense and untyped transactions split the overall sum:
      an untyped transaction counts toward neither total. */
  lemma {:induction false} TotalsPartition(ts: seq<Transaction>)
    ensures TypeTotal(ts, Income) + TypeTotal(ts, Expense) + SumAmounts(Untyped(ts)) == SumAmounts(ts)
  {
    if |ts| > 0 {
      var n := |ts| - 1;
      var t := ts[n];
      assert ts == ts[..n] + [t];
      TotalsPartition(ts[..n]);
      TypeTotalSnoc(ts[..n], t, Income);
      TypeTotalSnoc(ts[..n], t, Expense);
      var last := if t.kind.None? then [t] else [];
      assert Untyped(ts) == Untyped(ts[..n]) + last;
      SumAmountsAppend(Untyped(ts[..n]), last);
      assert SumAmounts([t]) == t.amount by {
        assert [t][..0] == [];
      }
      assert SumAmounts(last) == if t.kind.None? then t.amount else 0.0;
      assert SumAmounts(ts) == SumAmounts(ts[..n]) + t.amount;
      assert TypeTotal(ts, Income) == TypeTotal(ts[..n], Income) + (if t.kind == Some(Income) then t.amount else 0.0);
      assert TypeTotal(ts, Expense) == TypeTotal(ts[..n], Expense) + (if t.kind == Some(Expense) then t.amount else 0.0);
      assert SumAmounts(Untyped(ts)) == SumAmounts(Untyped(ts[..n])) + SumAmounts(last);
      match t.kind {
        case None =>
        case Some(Income) =>
        case Some(Expense) =>
      }
    }
  }

  /** The totals of the Transactions screen are those of the filtered transactions,
      not of the whole store; the sort does not change them. */
  lemma ListTotals(ts: seq<Transaction>, accounts: seq<Account>, f: TypeFilter, selected: string, o: SortOption, k: TxType)
    ensures TypeTotal(ListTransactions(ts, accounts, f, selected, o), k)
         == TypeTotal(FilterByAccountName(FilterByType(ts, f), accounts, selected), k)
  {
    var filtered := FilterByAccountName(FilterByType(ts, f), accounts, selected);
    SortMultiset(filtered, o);
    TypeTotalPermutation(ListTransactions(ts, accounts, f, selected, o), filtered, k);
  }

  /** With the kind filter set to income, the list's expense total is 0, and vice versa. */
  lemma {:induction false} OtherKindTotalIsZero(ts: seq<Transaction>, k: TxType, other: TxType)
    requires other != k
    ensures TypeTotal(FilterByType(ts, OnlyType(k)), other) == 0.0
  {
    if |ts| > 0 {
      var n := |ts| - 1;
      OtherKindTotalIsZero(ts[..n], k, other);
      var prefix := FilterByType(ts[..n], OnlyType(k));
      if MatchesType(ts[n], OnlyType(k)) {
        TypeTotalSnoc(prefix, ts[n], other);
      } else {
        assert FilterByType(ts, OnlyType(k)) == prefix + [];
        assert prefix + [] == prefix;
      }
    }
  }
}
