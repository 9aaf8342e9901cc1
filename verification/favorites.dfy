/** The list operation behind `toggleFavorite`: find the first article with
    the same id; remove it with `splice` if there is one, or else `push` the
    article at the end. */
module Favorites {
  import opened NewsTypes

  predicate HasId(list: seq<Article>, id: string) {
    exists i :: 0 <= i < |list| && list[i].id == id
  }

  /** `list.findIndex(a => a.id === id)`: the index of the first article with
      that id, or -1 when there is none. */
  function FindIndex(list: seq<Article>, id: string): (r: int)
    ensures -1 <= r < |list|
    ensures r == -1 <==> !HasId(list, id)
    ensures r >= 0 ==> list[r].id == id
    ensures r >= 0 ==> forall j :: 0 <= j < r ==> list[j].id != id
  {
    if list == [] then -1
    else if list[0].id == id then 0
    else
      var k := FindIndex(list[1..], id);
      if k < 0 then -1
      else
        assert forall j :: 1 <= j <= k ==> list[j] == list[1..][j - 1];
        k + 1
  }

  /** The list with its first article of the given id left out; a reference
      definition by recursion, independent of index arithmetic. */
  function RemoveFirst(list: seq<Article>, id: string): seq<Article> {
    if list == [] then []
    else if list[0].id == id then list[1..]
    else [list[0]] + RemoveFirst(list[1..], id)
  }

  /** `splice(existingIndex, 1)` at the index `findIndex` returns removes the
      first article with that id. */
  lemma {:induction false} SpliceAtFindIndex(list: seq<Article>, id: string)
    requires HasId(list, id)
    ensures var i := FindIndex(list, id);
            list[..i] + list[i + 1..] == RemoveFirst(list, id)
  {
    if list[0].id != id {
      var tail := list[1..];
      assert HasId(tail, id) by {
        var i :| 0 <= i < |list| && list[i].id == id;
        assert tail[i - 1] == list[i];
      }
      SpliceAtFindIndex(tail, id);
      var i := FindIndex(list, id);
      assert i == FindIndex(tail, id) + 1;
      assert list[..i] == [list[0]] + tail[..i - 1];
      assert list[i + 1..] == tail[i..];
    }
  }

  /** The toggle: removes the first article with the same id when there is
      one, and otherwise appends the article. Every other article stays, and
      nothing but the given article is ever added. */
  function Toggle(list: seq<Article>, a: Article): (r: seq<Article>)
    ensures HasId(list, a.id) ==> r == RemoveFirst(list, a.id) && |r| == |list| - 1
    ensures !HasId(list, a.id) ==> r == list + [a]
    ensures forall x :: x in list && x.id != a.id ==> x in r
    ensures forall x :: x in r ==> x in list || x == a
  {
    var i := FindIndex(list, a.id);
    if i >= 0 then
      SpliceAtFindIndex(list, a.id);
      assert forall x :: x in list && x.id != a.id ==> x in list[..i] + list[i + 1..] by {
        forall x | x in list && x.id != a.id
          ensures x in list[..i] + list[i + 1..]
        {
          var j :| 0 <= j < |list| && list[j] == x;
          if j < i { assert (list[..i] + list[i + 1..])[j] == x; }
          else { assert j != i; assert (list[..i] + list[i + 1..])[j - 1] == x; }
        }
      }
      assert forall x :: x in list[..i] + list[i + 1..] ==> x in list by {
        forall x | x in list[..i] + list[i + 1..] ensures x in list {
          if x in list[..i] { } else { assert x in list[i + 1..]; }
        }
      }
      list[..i] + list[i + 1..]
    else
      list + [a]
  }

  // ---------------------------------------------------------------- lemmas

  /** On a list with distinct ids, the toggle flips whether the id is present. */
  lemma ToggleFlipsMembership(list: seq<Article>, a: Article)
    requires DistinctIds(list)
    ensures HasId(Toggle(list, a), a.id) <==> !HasId(list, a.id)
  {
    if HasId(list, a.id) {
      var i := FindIndex(list, a.id);
      SpliceAtFindIndex(list, a.id);
      assert Toggle(list, a) == list[..i] + list[i + 1..];
    } else {
      assert Toggle(list, a)[|list|] == a;
    }
  }

  /** Toggling an article that is not in the list, then toggling it again,
      gives back the list unchanged: add then remove. */
  lemma ToggleTwiceRestores(list: seq<Article>, a: Article)
    requires !HasId(list, a.id)
    ensures Toggle(Toggle(list, a), a) == list
  {
    var added := list + [a];
    assert added[|list|] == a;
    var i := FindIndex(added, a.id);
    SpliceAtFindIndex(added, a.id);
    assert added[..i] == list;
  }

  /** Toggling an article whose id is already present, then toggling it
      again, takes the stored copy out and puts the given copy at the end. */
  lemma ToggleTwiceMovesToEnd(list: seq<Article>, a: Article)
    requires DistinctIds(list) && HasId(list, a.id)
    ensures Toggle(Toggle(list, a), a) == RemoveFirst(list, a.id) + [a]
  {
    ToggleFlipsMembership(list, a);
  }

  /** Taking one article out of a list with distinct ids keeps them distinct. */
  lemma SpliceKeepsIdsDistinct(list: seq<Article>, i: nat)
    requires DistinctIds(list) && i < |list|
    ensures DistinctIds(list[..i] + list[i + 1..])
  {
    var r := list[..i] + list[i + 1..];
    forall p, q | 0 <= p < q < |r| ensures r[p].id != r[q].id {
      var p' := if p < i then p else p + 1;
      var q' := if q < i then q else q + 1;
      assert r[p] == list[p'] && r[q] == list[q'];
    }
  }

  /** Appending an article whose id is absent keeps the ids distinct. */
  lemma AppendKeepsIdsDistinct(list: seq<Article>, a: Article)
    requires DistinctIds(list) && !HasId(list, a.id)
    ensures DistinctIds(list + [a])
  {
    var r := list + [a];
    forall p, q | 0 <= p < q < |r| ensures r[p].id != r[q].id {
      if q == |list| {
        assert r[p] == list[p];
      } else {
        assert r[p] == list[p] && r[q] == list[q];
      }
    }
  }

  /** A list with distinct ids keeps distinct ids after any toggle. */
  lemma ToggleKeepsIdsDistinct(list: seq<Article>, a: Article)
    requires DistinctIds(list)
    ensures DistinctIds(Toggle(list, a))
  {
    if HasId(list, a.id) {
      SpliceAtFindIndex(list, a.id);
      SpliceKeepsIdsDistinct(list, FindIndex(list, a.id));
    } else {
      AppendKeepsIdsDistinct(list, a);
    }
  }
}
