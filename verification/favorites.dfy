/** Favorites: a list of trend ids toggled from any list or detail screen, and
    the Favorites tab that shows the snapshot's favorited trends. */
module FavoriteList {
  import opened Trends
  import Seqs

  /** `isFav(id)`: `favorites.includes(id)`. */
  predicate IsFav(favorites: seq<string>, id: string): (r: bool)
    ensures r <==> exists k :: 0 <= k < |favorites| && favorites[k] == id
  {
    id in favorites
  }

  /** The test `f => f !== id`. */
  function NotId(id: string): string -> bool {
    f => f != id
  }

  /** The list `toggleFav(id)` stores: without `id` if it was a favorite,
      otherwise with `id` appended. */
  function Toggled(favorites: seq<string>, id: string): (next: seq<string>)
    ensures !IsFav(favorites, id) ==> next == favorites + [id]
    ensures IsFav(favorites, id) ==> !IsFav(next, id) && Seqs.IsSubsequence(next, favorites)
    ensures IsFav(favorites, id) ==>
      forall f :: f != id ==> multiset(next)[f] == multiset(favorites)[f]
    ensures IsFav(next, id) <==> !IsFav(favorites, id)
    ensures forall f :: f != id ==> (IsFav(next, f) <==> IsFav(favorites, f))
  {
    if IsFav(favorites, id) then
      Seqs.FilterMembers(favorites, NotId(id));
      Seqs.FilterIsSubsequence(favorites, NotId(id));
      Seqs.Filter(favorites, NotId(id))
    else favorites + [id]
  }

  /** The test `t => favorites.includes(t.id)`. */
  function InFavorites(favorites: seq<string>): Trend -> bool {
    (t: Trend) => IsFav(favorites, t.id)
  }

  /** The Favorites tab: the snapshot's trends whose id is a favorite, in snapshot order. */
  function FavoriteTrends(trends: seq<Trend>, favorites: seq<string>): (shown: seq<Trend>)
    ensures Seqs.IsSubsequence(shown, trends)
    ensures forall t :: t in shown <==> t in trends && IsFav(favorites, t.id)
    ensures forall t :: multiset(shown)[t] == if IsFav(favorites, t.id) then multiset(trends)[t] else 0
  {
    Seqs.FilterMembers(trends, InFavorites(favorites));
    Seqs.FilterIsSubsequence(trends, InFavorites(favorites));
    Seqs.Filter(trends, InFavorites(favorites))
  }

  // ---------------------------------------------------------------------------
  // Properties

  /** Toggling an id that is not a favorite twice restores the list exactly. */
  lemma ToggleTwiceRestores(favorites: seq<string>, id: string)
    requires !IsFav(favorites, id)
    ensures Toggled(Toggled(favorites, id), id) == favorites
  {
    Seqs.FilterAppend(favorites, [id], NotId(id));
    Seqs.FilterKeepsAll(favorites, NotId(id));
  }

  /** Toggling any id twice restores which ids are favorites. */
  lemma ToggleTwiceSameMembers(favorites: seq<string>, id: string)
    ensures forall f :: IsFav(Toggled(Toggled(favorites, id), id), f) <==> IsFav(favorites, f)
  {
  }

  /** The Favorites tab depends only on which ids are favorites, not on their order or repetition. */
  lemma FavoriteTrendsByMembership(trends: seq<Trend>, f1: seq<string>, f2: seq<string>)
    requires forall f :: IsFav(f1, f) <==> IsFav(f2, f)
    ensures FavoriteTrends(trends, f1) == FavoriteTrends(trends, f2)
  {
    Seqs.FilterAgree(trends, InFavorites(f1), InFavorites(f2));
  }

  /** A favorite id that no trend of the snapshot carries adds nothing to the Favorites tab. */
  lemma StaleFavoriteShowsNothing(trends: seq<Trend>, favorites: seq<string>, stale: string)
    requires stale !in Ids(trends)
    ensures FavoriteTrends(trends, favorites + [stale]) == FavoriteTrends(trends, favorites)
  {
    forall i | 0 <= i < |trends|
      ensures InFavorites(favorites + [stale])(trends[i]) == InFavorites(favorites)(trends[i])
    {
      assert Ids(trends)[i] == trends[i].id;
    }
    Seqs.FilterAgree(trends, InFavorites(favorites + [stale]), InFavorites(favorites));
  }

  /** With distinct ids, favoriting one id shows exactly the trend that carries it,
      and nothing when no trend of the snapshot carries it. */
  lemma {:induction false} SingleFavoriteShowsItsTrend(trends: seq<Trend>, id: string)
    requires UniqueIds(trends)
    ensures id !in Ids(trends) ==> FavoriteTrends(trends, [id]) == []
    ensures forall k :: 0 <= k < |trends| && trends[k].id == id ==> FavoriteTrends(trends, [id]) == [trends[k]]
    decreases |trends|
  {
    if trends != [] {
      var rest := trends[1..];
      assert UniqueIds(rest);
      SingleFavoriteShowsItsTrend(rest, id);
      assert Ids(trends) == [trends[0].id] + Ids(rest);
      assert FavoriteTrends(trends, [id]) ==
        (if trends[0].id == id then [trends[0]] else []) + FavoriteTrends(rest, [id]);
      if trends[0].id == id {
        forall j | 0 <= j < |rest| ensures Ids(rest)[j] != id {
          assert rest[j] == trends[j + 1];
        }
      }
      forall k | 0 <= k < |trends| && trends[k].id == id
        ensures FavoriteTrends(trends, [id]) == [trends[k]]
      {
        if k > 0 {
          assert rest[k - 1] == trends[k];
        }
      }
    }
  }
}
