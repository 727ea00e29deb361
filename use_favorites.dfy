/**
 * The favorites hook (hooks/useFavorites.ts): a list of saved movies kept in
 * browser storage. Each updater is a pure list expression; the store holds the
 * list, loads it once from storage and writes it back after every change once
 * loading has finished. Storage is reduced to the list it holds: the load
 * reads an optional list, and each save is recorded in `saved`.
 */
module UseFavorites {

  import opened Wrappers
  import opened Types
  import Seqs

  /** The storage key the list is kept under. */
  const StorageKey := "moodflix-favorites"

  datatype FavoriteItem = FavoriteItem(movieId: int, title: string, posterPath: Option<string>, addedAt: string)

  /** `favorites.map((f) => f.movieId)`. */
  function FavoriteIds(fs: seq<FavoriteItem>): (ids: seq<int>)
    ensures |ids| == |fs|
    ensures forall i :: 0 <= i < |fs| ==> ids[i] == fs[i].movieId
  {
    if fs == [] then [] else [fs[0].movieId] + FavoriteIds(fs[1..])
  }

  /** `isFavorite(id)`: `favoriteIds.includes(id)`. */
  predicate IsFavorite(fs: seq<FavoriteItem>, id: int) {
    id in FavoriteIds(fs)
  }

  /** `prev.some((f) => f.movieId === id)`, the test `addFavorite` makes. */
  predicate SomeHasId(fs: seq<FavoriteItem>, id: int) {
    fs != [] && (fs[0].movieId == id || SomeHasId(fs[1..], id))
  }

  /** The two membership tests agree, and both mean that some entry has the id. */
  lemma {:induction false} SomeHasIdIsFavorite(fs: seq<FavoriteItem>, id: int)
    ensures SomeHasId(fs, id) <==> IsFavorite(fs, id)
    ensures IsFavorite(fs, id) <==> exists i :: 0 <= i < |fs| && fs[i].movieId == id
  {
    if fs != [] {
      SomeHasIdIsFavorite(fs[1..], id);
      assert FavoriteIds(fs) == [fs[0].movieId] + FavoriteIds(fs[1..]);
      assert forall i :: 1 <= i < |fs| ==> fs[i] == fs[1..][i - 1];
      if IsFavorite(fs[1..], id) {
        var i :| 0 <= i < |fs| - 1 && fs[1..][i].movieId == id;
        assert fs[i + 1].movieId == id;
      }
    }
  }

  /** The entry `addFavorite` makes for a movie. */
  function NewItem(movie: Movie, addedAt: string): FavoriteItem {
    FavoriteItem(movie.id, movie.title, movie.posterPath, addedAt)
  }

  /** The update of `addFavorite`. */
  function WithAdded(fs: seq<FavoriteItem>, movie: Movie, addedAt: string): (r: seq<FavoriteItem>)
    ensures IsFavorite(fs, movie.id) ==> r == fs
    ensures !IsFavorite(fs, movie.id) ==> r == fs + [NewItem(movie, addedAt)]
  {
    SomeHasIdIsFavorite(fs, movie.id);
    if SomeHasId(fs, movie.id) then fs else fs + [NewItem(movie, addedAt)]
  }

  /** The update of `removeFavorite`: `prev.filter((f) => f.movieId !== id)`. */
  function WithoutId(fs: seq<FavoriteItem>, id: int): (r: seq<FavoriteItem>)
    ensures forall f :: f in r <==> f in fs && f.movieId != id
    ensures forall f :: multiset(r)[f] == if f.movieId != id then multiset(fs)[f] else 0
    ensures Seqs.IsSubsequence(r, fs)
  {
    if fs == [] then []
    else
      var rest := WithoutId(fs[1..], id);
      assert fs == [fs[0]] + fs[1..];
      if fs[0].movieId != id then
        assert ([fs[0]] + rest)[1..] == rest;
        [fs[0]] + rest
      else
        Seqs.SubsequenceOfTail(rest, fs);
        rest
  }

  /** The update of `toggleFavorite`: remove when present, add when absent. */
  function Toggled(fs: seq<FavoriteItem>, movie: Movie, addedAt: string): seq<FavoriteItem> {
    if IsFavorite(fs, movie.id) then WithoutId(fs, movie.id) else WithAdded(fs, movie, addedAt)
  }

  /** No movie id appears twice. */
  predicate Unique(fs: seq<FavoriteItem>) {
    forall i, j :: 0 <= i < j < |fs| ==> fs[i].movieId != fs[j].movieId
  }

  /** `isFavorite` over the ids, stated per entry. */
  lemma IsFavoriteMeans(fs: seq<FavoriteItem>, id: int)
    ensures IsFavorite(fs, id) <==> exists f :: f in fs && f.movieId == id
  {
    SomeHasIdIsFavorite(fs, id);
  }

  /** Adding a movie already listed leaves the list as it was, and adding it twice is adding it once. */
  lemma AddIdempotent(fs: seq<FavoriteItem>, movie: Movie, addedAt: string, laterAt: string)
    ensures WithAdded(WithAdded(fs, movie, addedAt), movie, laterAt) == WithAdded(fs, movie, addedAt)
    ensures IsFavorite(WithAdded(fs, movie, addedAt), movie.id)
  {
    var once := WithAdded(fs, movie, addedAt);
    if !IsFavorite(fs, movie.id) {
      assert once[|fs|].movieId == movie.id;
      IsFavoriteMeans(once, movie.id);
    }
  }

  /** Adding a new movie appends one entry with the movie's id, title and
      poster; every earlier entry keeps its place. */
  lemma AddAppends(fs: seq<FavoriteItem>, movie: Movie, addedAt: string)
    requires !IsFavorite(fs, movie.id)
    ensures var r := WithAdded(fs, movie, addedAt);
      && |r| == |fs| + 1 && r[..|fs|] == fs
      && r[|fs|].movieId == movie.id && r[|fs|].title == movie.title
      && r[|fs|].posterPath == movie.posterPath && r[|fs|].addedAt == addedAt
  {
    var r := WithAdded(fs, movie, addedAt);
    assert r[..|fs|] == fs;
  }

  /** Removing drops every entry with the id and nothing else; an id that is not listed changes nothing. */
  lemma RemoveFilters(fs: seq<FavoriteItem>, id: int)
    ensures !IsFavorite(WithoutId(fs, id), id)
    ensures !IsFavorite(fs, id) ==> WithoutId(fs, id) == fs
  {
    IsFavoriteMeans(WithoutId(fs, id), id);
    if !IsFavorite(fs, id) {
      IsFavoriteMeans(fs, id);
      RemoveAbsent(fs, id);
    }
  }

  lemma {:induction false} RemoveAbsent(fs: seq<FavoriteItem>, id: int)
    requires forall f :: f in fs ==> f.movieId != id
    ensures WithoutId(fs, id) == fs
  {
    if fs != [] {
      assert fs[0] in fs;
      assert forall f :: f in fs[1..] ==> f in fs;
      RemoveAbsent(fs[1..], id);
      assert [fs[0]] + fs[1..] == fs;
    }
  }

  /** A subsequence of a list without repeated ids has none either. */
  lemma {:induction false} UniqueSubsequence(a: seq<FavoriteItem>, b: seq<FavoriteItem>)
    requires Seqs.IsSubsequence(a, b) && Unique(b)
    ensures Unique(a)
  {
    if a != [] && b != [] {
      if a[0] == b[0] {
        UniqueSubsequence(a[1..], b[1..]);
        SubsequenceMembers(a[1..], b[1..]);
        forall j | 0 < j < |a| ensures a[0].movieId != a[j].movieId {
          assert a[j] == a[1..][j - 1];
          var k :| 0 <= k < |b| - 1 && b[1..][k] == a[j];
          assert b[k + 1] == a[j];
        }
      } else {
        UniqueSubsequence(a, b[1..]);
      }
    }
  }

  lemma {:induction false} SubsequenceMembers(a: seq<FavoriteItem>, b: seq<FavoriteItem>)
    requires Seqs.IsSubsequence(a, b)
    ensures forall j :: 0 <= j < |a| ==> exists k :: 0 <= k < |b| && b[k] == a[j]
  {
    if a != [] && b != [] {
      if a[0] == b[0] {
        SubsequenceMembers(a[1..], b[1..]);
        forall j | 0 < j < |a| ensures exists k :: 0 <= k < |b| && b[k] == a[j] {
          assert a[j] == a[1..][j - 1];
          var k :| 0 <= k < |b| - 1 && b[1..][k] == a[1..][j - 1];
          assert b[k + 1] == a[j];
        }
        assert b[0] == a[0];
      } else {
        SubsequenceMembers(a, b[1..]);
        forall j | 0 <= j < |a| ensures exists k :: 0 <= k < |b| && b[k] == a[j] {
          var k :| 0 <= k < |b| - 1 && b[1..][k] == a[j];
          assert b[k + 1] == a[j];
        }
      }
    }
  }

  /** Add, remove, toggle and clear never list an id twice when it was not listed twice before. */
  lemma UniquePreserved(fs: seq<FavoriteItem>, movie: Movie, addedAt: string, id: int)
    requires Unique(fs)
    ensures Unique(WithAdded(fs, movie, addedAt))
    ensures Unique(WithoutId(fs, id))
    ensures Unique(Toggled(fs, movie, addedAt))
    ensures Unique([])
  {
    UniqueSubsequence(WithoutId(fs, id), fs);
    UniqueSubsequence(WithoutId(fs, movie.id), fs);
    if !IsFavorite(fs, movie.id) {
      IsFavoriteMeans(fs, movie.id);
      var r := WithAdded(fs, movie, addedAt);
      forall i, j | 0 <= i < j < |r| ensures r[i].movieId != r[j].movieId {
        if j == |fs| {
          assert r[i] == fs[i] && fs[i] in fs;
        }
      }
    }
  }

  /** A toggle flips whether the movie is listed. */
  lemma ToggleFlips(fs: seq<FavoriteItem>, movie: Movie, addedAt: string)
    ensures IsFavorite(Toggled(fs, movie, addedAt), movie.id) <==> !IsFavorite(fs, movie.id)
  {
    if IsFavorite(fs, movie.id) {
      RemoveFilters(fs, movie.id);
    } else {
      AddIdempotent(fs, movie, addedAt, addedAt);
    }
  }

  /** Toggling twice restores whether the movie is listed; when it was not
      listed, the list itself comes back. */
  lemma ToggleTwice(fs: seq<FavoriteItem>, movie: Movie, addedAt: string, laterAt: string)
    ensures IsFavorite(Toggled(Toggled(fs, movie, addedAt), movie, laterAt), movie.id) == IsFavorite(fs, movie.id)
    ensures !IsFavorite(fs, movie.id) ==> Toggled(Toggled(fs, movie, addedAt), movie, laterAt) == fs
  {
    var once := Toggled(fs, movie, addedAt);
    if IsFavorite(fs, movie.id) {
      RemoveFilters(fs, movie.id);
      AddIdempotent(once, movie, laterAt, laterAt);
    } else {
      AddIdempotent(fs, movie, addedAt, addedAt);
      assert once == fs + [NewItem(movie, addedAt)];
      IsFavoriteMeans(fs, movie.id);
      RemoveAbsent(fs, movie.id);
      RemoveAppended(fs, NewItem(movie, addedAt));
    }
  }

  lemma {:induction false} RemoveAppended(fs: seq<FavoriteItem>, item: FavoriteItem)
    requires WithoutId(fs, item.movieId) == fs
    ensures WithoutId(fs + [item], item.movieId) == fs
  {
    if fs != [] {
      assert (fs + [item])[1..] == fs[1..] + [item];
      assert fs[0] in WithoutId(fs, item.movieId);
      RemoveAbsent(fs[1..], item.movieId);
      RemoveAppended(fs[1..], item);
      assert [fs[0]] + fs[1..] == fs;
    }
  }

  /** With no id listed twice, a movie added once appears exactly once. */
  lemma AddedOnce(fs: seq<FavoriteItem>, movie: Movie, addedAt: string, laterAt: string)
    requires Unique(fs)
    ensures var r := WithAdded(WithAdded(fs, movie, addedAt), movie, laterAt);
      exists i :: 0 <= i < |r| && r[i].movieId == movie.id &&
        forall j :: 0 <= j < |r| && j != i ==> r[j].movieId != movie.id
  {
    AddIdempotent(fs, movie, addedAt, laterAt);
    UniquePreserved(fs, movie, addedAt, movie.id);
    var r := WithAdded(fs, movie, addedAt);
    IsFavoriteMeans(r, movie.id);
    var f :| f in r && f.movieId == movie.id;
    var i :| 0 <= i < |r| && r[i] == f;
    assert forall j :: 0 <= j < |r| && j != i ==> r[j].movieId != movie.id;
  }

  /** The store: the list, whether the initial load is still pending, and
      what was last written to storage. */
  class FavoritesStore {
    var favorites: seq<FavoriteItem>
    var isLoading: bool
    var saved: Option<seq<FavoriteItem>>

    /** Once loading is over, storage holds the current list. */
    predicate Valid()
      reads this
    {
      !isLoading ==> saved == Some(favorites)
    }

    /** The first render: an empty list, loading, nothing written. */
    constructor ()
      ensures favorites == [] && isLoading && saved == None
      ensures Valid()
    {
      favorites := [];
      isLoading := true;
      saved := None;
    }

    /** The load on mount: a list read from storage replaces the current one;
        when there is none, or it cannot be parsed, the list stays. Loading
        ends either way, and the list is then written back. */
    method Load(stored: Option<seq<FavoriteItem>>)
      modifies this
      ensures favorites == (if stored.Some? then stored.value else old(favorites))
      ensures !isLoading && saved == Some(favorites)
      ensures Valid()
    {
      if stored.Some? {
        favorites := stored.value;
      }
      isLoading := false;
      saved := Some(favorites);
    }

    /** The save effect: writes the list, but only after loading. */
    method Save()
      modifies this`saved
      ensures saved == if isLoading then old(saved) else Some(favorites)
    {
      if !isLoading {
        saved := Some(favorites);
      }
    }

    method AddFavorite(movie: Movie, addedAt: string)
      modifies this
      ensures favorites == WithAdded(old(favorites), movie, addedAt)
      ensures isLoading == old(isLoading)
      ensures saved == if isLoading then old(saved) else Some(favorites)
      ensures Valid()
    {
      favorites := WithAdded(favorites, movie, addedAt);
      Save();
    }

    method RemoveFavorite(movieId: int)
      modifies this
      ensures favorites == WithoutId(old(favorites), movieId)
      ensures isLoading == old(isLoading)
      ensures saved == if isLoading then old(saved) else Some(favorites)
      ensures Valid()
    {
      favorites := WithoutId(favorites, movieId);
      Save();
    }

    method ToggleFavorite(movie: Movie, addedAt: string)
      modifies this
      ensures favorites == Toggled(old(favorites), movie, addedAt)
      ensures isLoading == old(isLoading)
      ensures saved == if isLoading then old(saved) else Some(favorites)
      ensures Valid()
    {
      if IsFavorite(favorites, movie.id) {
        RemoveFavorite(movie.id);
      } else {
        AddFavorite(movie, addedAt);
      }
    }

    method ClearFavorites()
      modifies this
      ensures favorites == []
      ensures isLoading == old(isLoading)
      ensures saved == if isLoading then old(saved) else Some([])
      ensures Valid()
    {
      favorites := [];
      Save();
    }
  }
}
