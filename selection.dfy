/** Multi-select toggling, shared by the Transactions screen and the account
    selection modal: a selected id is removed (every occurrence), an unselected
    one is appended at the end. */
module Selection {
  import opened Models

  ghost predicate NoDuplicates(s: seq<Id>) {
    forall i, j :: 0 <= i < j < |s| ==> s[i] != s[j]
  }

  /** `s` without any occurrence of `id`, in the original order. */
  function RemoveAll(s: seq<Id>, id: Id): (r: seq<Id>)
    ensures forall x :: x in r <==> x in s && x != id
    ensures id !in s ==> r == s
  {
    if |s| == 0 then []
    else (if s[0] == id then [] else [s[0]]) + RemoveAll(s[1..], id)
  }

  function Toggle(s: seq<Id>, id: Id): (r: seq<Id>)
    ensures forall x :: x in r <==> (x in s <==> x != id)
    ensures id !in s ==> r == s + [id]
  {
    if id in s then RemoveAll(s, id) else s + [id]
  }

  lemma {:induction false} RemoveAllKeepsNoDuplicates(s: seq<Id>, id: Id)
    requires NoDuplicates(s)
    ensures NoDuplicates(RemoveAll(s, id))
  {
    if |s| > 0 {
      RemoveAllKeepsNoDuplicates(s[1..], id);
      var rest := RemoveAll(s[1..], id);
      var r := RemoveAll(s, id);
      if s[0] != id {
        assert s[0] !in s[1..];
        assert r == [s[0]] + rest;
        forall i, j | 0 <= i < j < |r| ensures r[i] != r[j] {
          if i == 0 {
            assert r[j] in rest;
          } else {
            assert r[i] == rest[i - 1] && r[j] == rest[j - 1];
          }
        }
      }
    }
  }

  /** Toggling keeps a selection free of duplicates. */
  lemma ToggleKeepsNoDuplicates(s: seq<Id>, id: Id)
    requires NoDuplicates(s)
    ensures NoDuplicates(Toggle(s, id))
  {
    if id in s {
      RemoveAllKeepsNoDuplicates(s, id);
    }
  }

  /** Toggling an id that is not selected, and then toggling it again, restores the selection. */
  lemma ToggleTwiceRestoresAbsent(s: seq<Id>, id: Id)
    requires id !in s
    ensures Toggle(Toggle(s, id), id) == s
  {
    RemoveAllLast(s, id);
  }

  lemma {:induction false} RemoveAllLast(s: seq<Id>, id: Id)
    requires id !in s
    ensures RemoveAll(s + [id], id) == s
  {
    if |s| == 0 {
      assert RemoveAll([id], id) == [] + RemoveAll([id][1..], id);
    } else {
      assert (s + [id])[1..] == s[1..] + [id];
      RemoveAllLast(s[1..], id);
      assert s == [s[0]] + s[1..];
    }
  }

  /** Toggling an id selected once and last twice restores the selection. */
  lemma ToggleTwiceRestoresLast(s: seq<Id>, id: Id)
    requires id !in s
    ensures Toggle(Toggle(s + [id], id), id) == s + [id]
  {
    RemoveAllLast(s, id);
  }

  /** Toggling twice restores the selected set. The order is restored only
      when the id was absent, or selected once and last: a present id that
      is not last returns at the end. */
  lemma ToggleTwiceRestoresSet(s: seq<Id>, id: Id)
    ensures forall x :: x in Toggle(Toggle(s, id), id) <==> x in s
  {
  }

  /** Toggling a present id that is not last twice moves it to the end. */
  lemma ToggleTwiceMoves()
    ensures Toggle(Toggle([1, 2], 1), 1) == [2, 1]
  {
    assert Toggle([1, 2], 1) == [2] by {
      assert RemoveAll([1, 2], 1) == [] + RemoveAll([2], 1);
      assert RemoveAll([2], 1) == [2] + RemoveAll([], 1);
    }
  }
}
