/**
 * The list of selected add-on service ids and the checkbox toggle on it: a present id is
 * filtered out, an absent one is appended.
 */
module ServiceSelection {

  /** The list holds every id at most once. */
  predicate NoDuplicates(s: seq<string>)
  {
    forall i, j :: 0 <= i < j < |s| ==> s[i] != s[j]
  }

  /** `filter(x => x !== id)`: drops every occurrence of `id` and keeps everything else. */
  function Remove(s: seq<string>, id: string): (r: seq<string>)
    ensures multiset(r) == multiset(s)[id := 0]
    ensures forall x :: x in r <==> x in s && x != id
    decreases |s|
  {
    if s == [] then []
    else
      assert s == [s[0]] + s[1..];
      (if s[0] == id then [] else [s[0]]) + Remove(s[1..], id)
  }

  /** The new list after the checkbox for `id` is toggled. */
  function Toggled(s: seq<string>, id: string): (r: seq<string>)
    ensures id in r <==> id !in s
    ensures forall x :: x != id ==> (x in r <==> x in s)
  {
    if id in s then Remove(s, id) else s + [id]
  }

  /** Filtering keeps the order of what remains: it distributes over concatenation. */
  lemma {:induction false} RemoveAppend(a: seq<string>, b: seq<string>, id: string)
    ensures Remove(a + b, id) == Remove(a, id) + Remove(b, id)
    decreases |a|
  {
    if a == [] {
      assert a + b == b;
    } else {
      assert (a + b)[1..] == a[1..] + b;
      RemoveAppend(a[1..], b, id);
    }
  }

  /** Filtering out an id that is absent leaves the list exactly as it was. */
  lemma {:induction false} RemoveAbsent(s: seq<string>, id: string)
    requires id !in s
    ensures Remove(s, id) == s
    decreases |s|
  {
    if s != [] {
      RemoveAbsent(s[1..], id);
      assert s == [s[0]] + s[1..];
    }
  }

  /** A list without duplicates holds each id at most once. */
  lemma {:induction false} NoDuplicatesAtMostOnce(s: seq<string>, x: string)
    requires NoDuplicates(s)
    ensures multiset(s)[x] <= 1
    decreases |s|
  {
    if s != [] {
      assert s == [s[0]] + s[1..];
      NoDuplicatesAtMostOnce(s[1..], x);
      if s[0] == x {
        assert x !in s[1..];
      }
    }
  }

  /** Filtering never introduces a duplicate. */
  lemma {:induction false} RemoveKeepsNoDuplicates(s: seq<string>, id: string)
    requires NoDuplicates(s)
    ensures NoDuplicates(Remove(s, id))
    decreases |s|
  {
    if s != [] {
      var rest := Remove(s[1..], id);
      RemoveKeepsNoDuplicates(s[1..], id);
      if s[0] != id {
        assert s[0] !in multiset(s[1..]);
        assert s[0] !in multiset(rest);
        var r := [s[0]] + rest;
        forall i, j | 0 <= i < j < |r| ensures r[i] != r[j] {
          if i == 0 {
            assert r[j] == rest[j - 1] && r[j] in multiset(rest);
          } else {
            assert r[i] == rest[i - 1] && r[j] == rest[j - 1];
          }
        }
      }
    }
  }

  /** The toggle keeps the list free of duplicates. */
  lemma ToggleKeepsNoDuplicates(s: seq<string>, id: string)
    requires NoDuplicates(s)
    ensures NoDuplicates(Toggled(s, id))
  {
    if id in s {
      RemoveKeepsNoDuplicates(s, id);
    }
  }

  /** Toggling twice restores the membership of every id. */
  lemma ToggleTwiceMembership(s: seq<string>, id: string, x: string)
    ensures x in Toggled(Toggled(s, id), id) <==> x in s
  {
  }

  /** Toggling an absent id twice restores the list exactly. */
  lemma ToggleTwiceAbsent(s: seq<string>, id: string)
    requires id !in s
    ensures Toggled(Toggled(s, id), id) == s
  {
    assert id in s + [id];
    RemoveAppend(s, [id], id);
    RemoveAbsent(s, id);
    assert Remove([id], id) == [] by {
      assert [id][1..] == [];
    }
  }

  /** Toggling a present id twice moves it to the end: on a list without duplicates the result
      holds the same ids, each once. */
  lemma ToggleTwicePermutes(s: seq<string>, id: string)
    requires NoDuplicates(s)
    ensures multiset(Toggled(Toggled(s, id), id)) == multiset(s)
    ensures NoDuplicates(Toggled(Toggled(s, id), id))
  {
    ToggleKeepsNoDuplicates(s, id);
    ToggleKeepsNoDuplicates(Toggled(s, id), id);
    if id in s {
      NoDuplicatesAtMostOnce(s, id);
      var r := Remove(s, id);
      assert id !in r by {
        assert multiset(r)[id] == 0;
      }
      assert Toggled(Toggled(s, id), id) == r + [id];
      assert multiset(s)[id] == 1;
      assert multiset(r + [id]) == multiset(s)[id := 0] + multiset{id};
    } else {
      ToggleTwiceAbsent(s, id);
    }
  }
}
