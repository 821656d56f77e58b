/**
 * The favorites slice of app/store/favoritesSlice.ts: an array of product ids
 * that the reducers change in place with `push` and `splice` after an
 * `indexOf` search.
 */
module FavoritesSlice {

  /** JavaScript's `Array.prototype.indexOf`: the first position of `id`, or -1. */
  function IndexOf(ids: seq<int>, id: int): (i: int)
    ensures -1 <= i < |ids|
    ensures i == -1 <==> id !in ids
    ensures i >= 0 ==> ids[i] == id && id !in ids[..i]
  {
    if ids == [] then -1
    else if ids[0] == id then 0
    else
      var j := IndexOf(ids[1..], id);
      assert j >= 0 ==> ids[..j + 1] == [ids[0]] + ids[1..][..j];
      if j == -1 then -1 else j + 1
  }

  predicate NoDuplicates(ids: seq<int>) {
    forall i, j :: 0 <= i < j < |ids| ==> ids[i] != ids[j]
  }

  /** `ids` with every occurrence of `id` taken out: the relative order of the other ids. */
  function Without(ids: seq<int>, id: int): (r: seq<int>)
    ensures id !in r
    ensures id !in ids ==> r == ids
  {
    if ids == [] then []
    else (if ids[0] == id then [] else [ids[0]]) + Without(ids[1..], id)
  }

  /** removeFavorite: `ids` with its first occurrence of `id` deleted, if any (reference definition, by recursion). */
  function RemoveFirst(ids: seq<int>, id: int): (r: seq<int>)
    ensures |r| == if id in ids then |ids| - 1 else |ids|
    ensures forall x :: x != id ==> (x in r <==> x in ids)
  {
    if ids == [] then []
    else if ids[0] == id then ids[1..]
    else [ids[0]] + RemoveFirst(ids[1..], id)
  }

  /** toggleFavorite: drop the id's first occurrence if it is there, else append it. */
  function Toggled(ids: seq<int>, id: int): (r: seq<int>)
    ensures id !in ids ==> id in r && |r| == |ids| + 1
    ensures id in ids ==> |r| == |ids| - 1
    ensures forall x :: x != id ==> (x in r <==> x in ids)
  {
    if id in ids then RemoveFirst(ids, id) else ids + [id]
  }

  /** addFavorite: append the id unless it is already there. */
  function Added(ids: seq<int>, id: int): (r: seq<int>)
    ensures id in r
    ensures forall x :: x in r <==> x in ids || x == id
    ensures |r| == if id in ids then |ids| else |ids| + 1
  {
    if id in ids then ids else ids + [id]
  }

  // ---------------------------------------------------------------------------
  // Properties

  /** `splice(indexOf(id), 1)` deletes exactly the first occurrence. */
  lemma {:induction false} SpliceIsRemoveFirst(ids: seq<int>, id: int)
    requires id in ids
    ensures var k := IndexOf(ids, id); ids[..k] + ids[k + 1..] == RemoveFirst(ids, id)
  {
    if ids[0] != id {
      SpliceIsRemoveFirst(ids[1..], id);
      var k := IndexOf(ids[1..], id);
      assert ids[..k + 1] == [ids[0]] + ids[1..][..k];
      assert ids[k + 2..] == ids[1..][k + 1..];
      assert IndexOf(ids, id) == k + 1;
      assert RemoveFirst(ids, id) == [ids[0]] + RemoveFirst(ids[1..], id);
    }
  }

  /** Removing the first occurrence takes one copy of the id and keeps everything else in order. */
  lemma RemoveFirstEffect(ids: seq<int>, id: int)
    ensures id in ids ==> multiset(RemoveFirst(ids, id)) == multiset(ids) - multiset{id}
    ensures id !in ids ==> RemoveFirst(ids, id) == ids
    ensures Without(RemoveFirst(ids, id), id) == Without(ids, id)
  {
    if id in ids {
      RemoveFirstCount(ids, id);
    } else {
      RemoveFirstAbsent(ids, id);
    }
    RemoveFirstWithout(ids, id);
  }

  lemma {:induction false} RemoveFirstCount(ids: seq<int>, id: int)
    requires id in ids
    ensures multiset(RemoveFirst(ids, id)) == multiset(ids) - multiset{id}
  {
    assert ids == [ids[0]] + ids[1..];
    if ids[0] != id {
      RemoveFirstCount(ids[1..], id);
    }
  }

  lemma {:induction false} RemoveFirstAbsent(ids: seq<int>, id: int)
    requires id !in ids
    ensures RemoveFirst(ids, id) == ids
  {
    if ids != [] {
      assert ids[0] != id;
      RemoveFirstAbsent(ids[1..], id);
      assert ids == [ids[0]] + ids[1..];
    }
  }

  lemma {:induction false} RemoveFirstWithout(ids: seq<int>, id: int)
    ensures Without(RemoveFirst(ids, id), id) == Without(ids, id)
  {
    if ids != [] {
      if ids[0] == id {
        WithoutHead(ids, id);
      } else {
        RemoveFirstWithout(ids[1..], id);
        var r := RemoveFirst(ids, id);
        assert r[0] == ids[0] && r[1..] == RemoveFirst(ids[1..], id);
      }
    }
  }

  lemma WithoutHead(ids: seq<int>, id: int)
    requires ids != [] && ids[0] == id
    ensures Without(ids, id) == Without(ids[1..], id)
  {
  }

  lemma {:induction false} WithoutAppend(ids: seq<int>, id: int)
    ensures Without(ids + [id], id) == Without(ids, id)
  {
    if ids != [] {
      WithoutAppend(ids[1..], id);
      assert (ids + [id])[1..] == ids[1..] + [id];
    } else {
      assert [id][1..] == [];
    }
  }

  /**
   * Toggling an absent id appends it at the end; toggling a present one drops its
   * first occurrence. Either way the other ids keep their relative order.
   */
  lemma ToggleEffect(ids: seq<int>, id: int)
    ensures id !in ids ==> Toggled(ids, id) == ids + [id]
    ensures id in ids ==> multiset(Toggled(ids, id)) == multiset(ids) - multiset{id}
    ensures Without(Toggled(ids, id), id) == Without(ids, id)
  {
    RemoveFirstEffect(ids, id);
    WithoutAppend(ids, id);
  }

  /** Removing from a duplicate-free list leaves the id absent. */
  lemma RemoveFirstFromDistinct(ids: seq<int>, id: int)
    requires NoDuplicates(ids)
    ensures id !in RemoveFirst(ids, id)
    ensures NoDuplicates(RemoveFirst(ids, id))
  {
    RemoveFirstEffect(ids, id);
    var r := RemoveFirst(ids, id);
    if id in ids {
      assert multiset(ids)[id] == 1 by { DistinctCount(ids, id); }
      assert id !in multiset(r);
      forall i, j | 0 <= i < j < |r| ensures r[i] != r[j] {
        if r[i] == r[j] {
          assert multiset(r)[r[i]] >= 2 by { TwoCopies(r, i, j); }
          DistinctCount(ids, r[i]);
          assert false;
        }
      }
    }
  }

  /** A duplicate-free list holds each of its ids exactly once. */
  lemma {:induction false} DistinctCount(ids: seq<int>, id: int)
    requires NoDuplicates(ids)
    ensures multiset(ids)[id] <= 1
  {
    if ids != [] {
      assert ids == [ids[0]] + ids[1..];
      assert NoDuplicates(ids[1..]) by {
        forall i, j | 0 <= i < j < |ids[1..]| ensures ids[1..][i] != ids[1..][j] {
          assert ids[1..][i] == ids[i + 1] && ids[1..][j] == ids[j + 1];
        }
      }
      DistinctCount(ids[1..], id);
      if ids[0] == id {
        assert id !in ids[1..] by {
          forall j | 0 <= j < |ids[1..]| ensures ids[1..][j] != id {
            assert ids[1..][j] == ids[j + 1];
          }
        }
      }
    }
  }

  /** Two positions holding the same id give it two copies. */
  lemma TwoCopies(s: seq<int>, i: int, j: int)
    requires 0 <= i < j < |s| && s[i] == s[j]
    ensures multiset(s)[s[i]] >= 2
  {
    assert s == s[..j] + s[j..];
    assert s[i] in s[..j];
    assert s[j] in s[j..];
  }

  /** toggle, add and remove keep a duplicate-free list duplicate-free. */
  lemma OperationsKeepNoDuplicates(ids: seq<int>, id: int)
    requires NoDuplicates(ids)
    ensures NoDuplicates(Toggled(ids, id))
    ensures NoDuplicates(Added(ids, id))
    ensures NoDuplicates(RemoveFirst(ids, id))
  {
    RemoveFirstFromDistinct(ids, id);
  }

  /**
   * On a duplicate-free list, toggling twice restores membership. The id's own
   * membership needs the requires: with two copies, two toggles remove both.
   */
  lemma ToggleTwice(ids: seq<int>, id: int)
    requires NoDuplicates(ids)
    ensures (id in Toggled(Toggled(ids, id), id)) == (id in ids)
    ensures forall x :: x in Toggled(Toggled(ids, id), id) <==> x in ids
  {
    if id !in ids {
      ToggleTwiceFromAbsent(ids, id);
    } else {
      RemoveFirstFromDistinct(ids, id);
      RemoveFirstEffect(ids, id);
      var r := RemoveFirst(ids, id);
      forall x ensures x in r + [id] <==> x in ids {
        assert x in r <==> x in multiset(r);
      }
    }
  }

  /** On any list, toggling an absent id twice gives the exact list back. */
  lemma ToggleTwiceFromAbsent(ids: seq<int>, id: int)
    requires id !in ids
    ensures Toggled(Toggled(ids, id), id) == ids
  {
    RemoveAppended(ids, id);
  }

  /** Whatever the list, toggling twice leaves every other id's membership as it was. */
  lemma ToggleTwiceKeepsOtherIds(ids: seq<int>, id: int)
    ensures forall x :: x != id ==> (x in Toggled(Toggled(ids, id), id) <==> x in ids)
  {
  }

  /** Removing an id just appended to a list without it gives the list back. */
  lemma {:induction false} RemoveAppended(ids: seq<int>, id: int)
    requires id !in ids
    ensures RemoveFirst(ids + [id], id) == ids
  {
    if ids != [] {
      assert (ids + [id])[1..] == ids[1..] + [id];
      RemoveAppended(ids[1..], id);
    }
  }

  /** Adding twice is adding once; adding a present id changes nothing. */
  lemma AddIsIdempotent(ids: seq<int>, id: int)
    ensures id in ids ==> Added(ids, id) == ids
    ensures id !in ids ==> Added(ids, id) == ids + [id]
    ensures Added(Added(ids, id), id) == Added(ids, id)
  {
  }

  /** Removing an absent id changes nothing; on a duplicate-free list, removing twice is removing once. */
  lemma RemoveIsIdempotent(ids: seq<int>, id: int)
    ensures id !in ids ==> RemoveFirst(ids, id) == ids
    ensures NoDuplicates(ids) ==> id !in RemoveFirst(ids, id)
    ensures NoDuplicates(ids) ==> RemoveFirst(RemoveFirst(ids, id), id) == RemoveFirst(ids, id)
  {
    RemoveFirstEffect(ids, id);
    if NoDuplicates(ids) {
      RemoveFirstFromDistinct(ids, id);
      RemoveFirstEffect(RemoveFirst(ids, id), id);
    }
  }

  // ---------------------------------------------------------------------------
  // The mutable state

  /** `state.favorites`, changed in place by the four reducers. */
  class FavoritesStore {
    var favoriteIds: seq<int>

    constructor ()
      ensures favoriteIds == []
    {
      favoriteIds := [];
    }

    method ToggleFavorite(productId: int)
      modifies this
      ensures favoriteIds == Toggled(old(favoriteIds), productId)
      ensures NoDuplicates(old(favoriteIds)) ==> NoDuplicates(favoriteIds)
    {
      var index := IndexOf(favoriteIds, productId);
      if index > -1 {
        SpliceIsRemoveFirst(favoriteIds, productId);
        favoriteIds := favoriteIds[..index] + favoriteIds[index + 1..];
      } else {
        favoriteIds := favoriteIds + [productId];
      }
      if NoDuplicates(old(favoriteIds)) {
        OperationsKeepNoDuplicates(old(favoriteIds), productId);
      }
    }

    method AddFavorite(productId: int)
      modifies this
      ensures favoriteIds == Added(old(favoriteIds), productId)
      ensures NoDuplicates(old(favoriteIds)) ==> NoDuplicates(favoriteIds)
    {
      if productId !in favoriteIds {
        favoriteIds := favoriteIds + [productId];
      }
      if NoDuplicates(old(favoriteIds)) {
        OperationsKeepNoDuplicates(old(favoriteIds), productId);
      }
    }

    method RemoveFavorite(productId: int)
      modifies this
      ensures favoriteIds == RemoveFirst(old(favoriteIds), productId)
      ensures NoDuplicates(old(favoriteIds)) ==> NoDuplicates(favoriteIds)
    {
      var index := IndexOf(favoriteIds, productId);
      if index > -1 {
        SpliceIsRemoveFirst(favoriteIds, productId);
        favoriteIds := favoriteIds[..index] + favoriteIds[index + 1..];
      } else {
        RemoveFirstEffect(favoriteIds, productId);
      }
      if NoDuplicates(old(favoriteIds)) {
        OperationsKeepNoDuplicates(old(favoriteIds), productId);
      }
    }

    method ClearFavorites()
      modifies this
      ensures favoriteIds == []
    {
      favoriteIds := [];
    }
  }
}
