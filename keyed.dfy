/** Collections of records identified by a primary key, as the object store keeps
    them: insertion-ordered sequences in which the key is given by a named key function. */
module Keyed {
  import opened Wrappers

  /** The keys present in `s`. */
  ghost function Keys<T, K>(s: seq<T>, key: T -> K): set<K> {
    set x | x in s :: key(x)
  }

  /** The primary-key constraint: no two records share a key. */
  ghost predicate UniqueKeys<T, K>(s: seq<T>, key: T -> K) {
    forall i, j :: 0 <= i < j < |s| ==> key(s[i]) != key(s[j])
  }

  lemma KeysMember<T, K>(s: seq<T>, key: T -> K, i: int)
    requires 0 <= i < |s|
    ensures key(s[i]) in Keys(s, key)
  {
    assert s[i] in s;
  }

  /** Position of the first record with key `k`, if any. */
  function IndexOf<T, K(==)>(s: seq<T>, key: T -> K, k: K): (r: Option<nat>)
    ensures r.Some? ==> r.value < |s| && key(s[r.value]) == k
    ensures r.Some? ==> forall i :: 0 <= i < r.value ==> key(s[i]) != k
    ensures r.None? ==> forall i :: 0 <= i < |s| ==> key(s[i]) != k
    ensures r.None? <==> k !in Keys(s, key)
  {
    if |s| == 0 then None
    else if key(s[0]) == k then
      KeysMember(s, key, 0);
      Some(0)
    else
      match IndexOf(s[1..], key, k)
      case None =>
        assert forall i :: 1 <= i < |s| ==> key(s[i]) == key(s[1..][i - 1]);
        None
      case Some(j) =>
        KeysMember(s, key, j + 1);
        Some(j + 1)
  }

  /** Primary-key lookup (the store's `objectForPrimaryKey`). */
  function Find<T, K(==)>(s: seq<T>, key: T -> K, k: K): (r: Option<T>)
    ensures r.Some? <==> k in Keys(s, key)
    ensures r.Some? ==> r.value in s && key(r.value) == k
  {
    match IndexOf(s, key, k)
    case None => None
    case Some(i) => Some(s[i])
  }

  /** Under the primary-key constraint the lookup finds the one record with that key. */
  lemma IndexOfUnique<T, K>(s: seq<T>, key: T -> K, i: int)
    requires UniqueKeys(s, key) && 0 <= i < |s|
    ensures IndexOf(s, key, key(s[i])) == Some(i)
  {
    KeysMember(s, key, i);
  }

  /** `s` without the records whose key is listed in `ks`, in the original order. */
  function Retained<T(!new), K(==)>(s: seq<T>, key: T -> K, ks: seq<K>): (r: seq<T>)
    ensures |r| <= |s|
  {
    if |s| == 0 then []
    else
      var rest := Retained(s[1..], key, ks);
      if key(s[0]) in ks then rest else [s[0]] + rest
  }

  /** A record is kept exactly when it was there and its key is not removed. */
  lemma {:induction false} RetainedMembers<T(!new), K>(s: seq<T>, key: T -> K, ks: seq<K>)
    ensures forall x :: x in Retained(s, key, ks) <==> x in s && key(x) !in ks
  {
    if |s| > 0 {
      RetainedMembers(s[1..], key, ks);
      assert forall x :: x in s <==> x == s[0] || x in s[1..] by {
        assert s == [s[0]] + s[1..];
      }
    }
  }

  /** A removal keeps every other record with its multiplicity: nothing is added or duplicated. */
  lemma {:induction false} RetainedMultiset<T(!new), K>(s: seq<T>, key: T -> K, ks: seq<K>)
    ensures forall x :: multiset(Retained(s, key, ks))[x] == if key(x) in ks then 0 else multiset(s)[x]
  {
    if |s| > 0 {
      RetainedMultiset(s[1..], key, ks);
      assert s == [s[0]] + s[1..];
      assert multiset(s) == multiset{s[0]} + multiset(s[1..]);
    }
  }

  /** A removal keeps the primary-key constraint. */
  lemma {:induction false} RetainedUnique<T(!new), K>(s: seq<T>, key: T -> K, ks: seq<K>)
    requires UniqueKeys(s, key)
    ensures UniqueKeys(Retained(s, key, ks), key)
  {
    if |s| > 0 {
      assert UniqueKeys(s[1..], key) by {
        forall i, j | 0 <= i < j < |s| - 1 ensures key(s[1..][i]) != key(s[1..][j]) {
          assert s[1..][i] == s[i + 1] && s[1..][j] == s[j + 1];
        }
      }
      RetainedUnique(s[1..], key, ks);
      var rest := Retained(s[1..], key, ks);
      RetainedMembers(s[1..], key, ks);
      if key(s[0]) !in ks {
        forall j | 0 <= j < |rest| ensures key(rest[j]) != key(s[0]) {
          assert rest[j] in s[1..];
          var m :| 0 <= m < |s[1..]| && s[1..][m] == rest[j];
          assert s[m + 1] == rest[j];
        }
        var r := [s[0]] + rest;
        forall i, j | 0 <= i < j < |r| ensures key(r[i]) != key(r[j]) {
          if i > 0 {
            assert r[i] == rest[i - 1] && r[j] == rest[j - 1];
          }
        }
      }
    }
  }

  /** Removing the keys `ks` and then the key `k` is removing `ks + [k]` at once. */
  lemma {:induction false} RetainedThenRemove<T(!new), K>(s: seq<T>, key: T -> K, ks: seq<K>, k: K)
    ensures Retained(Retained(s, key, ks), key, [k]) == Retained(s, key, ks + [k])
  {
    if |s| > 0 {
      RetainedThenRemove(s[1..], key, ks, k);
      var rest := Retained(s[1..], key, ks);
      if key(s[0]) !in ks {
        assert ([s[0]] + rest)[1..] == rest;
      }
    }
  }

  lemma {:induction false} RetainedNone<T(!new), K>(s: seq<T>, key: T -> K)
    ensures Retained(s, key, []) == s
  {
    if |s| > 0 {
      RetainedNone(s[1..], key);
    }
  }

  /** No removed key is left. */
  lemma RetainedDropsKeys<T(!new), K>(s: seq<T>, key: T -> K, ks: seq<K>)
    ensures forall k :: k in ks ==> k !in Keys(Retained(s, key, ks), key)
  {
    RetainedMembers(s, key, ks);
  }

  /** The keys left after a removal. */
  lemma KeysRetained<T(!new), K>(s: seq<T>, key: T -> K, ks: seq<K>)
    ensures Keys(Retained(s, key, ks), key) == Keys(s, key) - set k | k in ks
  {
    var r := Retained(s, key, ks);
    RetainedMembers(s, key, ks);
    forall k | k in Keys(s, key) - set k | k in ks ensures k in Keys(r, key) {
      var x :| x in s && key(x) == k;
      assert x in r;
    }
  }

  lemma KeysAppend<T, K>(s: seq<T>, key: T -> K, y: T)
    ensures Keys(s + [y], key) == Keys(s, key) + {key(y)}
  {
    assert y in s + [y];
    forall k | k in Keys(s, key) ensures k in Keys(s + [y], key) {
      var x :| x in s && key(x) == k;
      assert x in s + [y];
    }
  }

  /** Replacing a record by one with the same key keeps the key set and uniqueness. */
  lemma KeysUpdate<T, K>(s: seq<T>, key: T -> K, i: int, y: T)
    requires 0 <= i < |s| && key(y) == key(s[i])
    ensures Keys(s[i := y], key) == Keys(s, key)
    ensures UniqueKeys(s, key) ==> UniqueKeys(s[i := y], key)
  {
    var t := s[i := y];
    forall k | k in Keys(s, key) ensures k in Keys(t, key) {
      var x :| x in s && key(x) == k;
      var j :| 0 <= j < |s| && s[j] == x;
      assert t[j] in t;
    }
    forall k | k in Keys(t, key) ensures k in Keys(s, key) {
      var x :| x in t && key(x) == k;
      var j :| 0 <= j < |t| && t[j] == x;
      assert s[j] in s;
    }
  }
}
