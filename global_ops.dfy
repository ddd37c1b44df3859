/**
 * ui/viewmodel/GlobalRecipeOperationsViewModel.kt: the favorites and
 * recently-viewed state shared across screens.
 */
module GlobalOps {
  import opened Results
  import opened Recipes
  import opened Entities
  import opened MealDtos
  import Dao
  import Repository

  /** How many recipes the recently-viewed list keeps. */
  const MaxRecent: nat := 5

  /** `xs.filter { it.id != id }`. */
  function RemoveId(xs: seq<Recipe>, id: string): (r: seq<Recipe>)
    ensures |r| <= |xs|
  {
    if xs == [] then []
    else (if xs[0].id != id then [xs[0]] else []) + RemoveId(xs[1..], id)
  }

  /** The filter keeps exactly the entries with another id and never lengthens the list. */
  lemma {:induction false} RemoveIdMembers(xs: seq<Recipe>, id: string)
    ensures |RemoveId(xs, id)| <= |xs|
    ensures forall x :: x in RemoveId(xs, id) <==> x in xs && x.id != id
  {
    if xs != [] {
      RemoveIdMembers(xs[1..], id);
      assert xs == [xs[0]] + xs[1..];
    }
  }

  /** The filter works entry by entry, so the kept entries stay in their original order. */
  lemma {:induction false} RemoveIdAppend(a: seq<Recipe>, b: seq<Recipe>, id: string)
    ensures RemoveId(a + b, id) == RemoveId(a, id) + RemoveId(b, id)
  {
    if a == [] {
      assert a + b == b;
    } else {
      var ab, head := a + b, if a[0].id != id then [a[0]] else [];
      RemoveIdAppend(a[1..], b, id);
      assert ab[1..] == a[1..] + b && ab[0] == a[0];
      assert RemoveId(ab, id) == head + RemoveId(a[1..] + b, id);
      assert RemoveId(a, id) == head + RemoveId(a[1..], id);
    }
  }

  /** Removing an id nobody carries changes nothing. */
  lemma {:induction false} RemoveIdAbsent(xs: seq<Recipe>, id: string)
    requires id !in Ids(xs)
    ensures RemoveId(xs, id) == xs
  {
    if xs != [] {
      assert xs[0].id in Ids(xs);
      assert Ids(xs[1..]) <= Ids(xs) by {
        forall k | k in Ids(xs[1..]) ensures k in Ids(xs) {
          var i :| 0 <= i < |xs[1..]| && xs[1..][i].id == k;
          assert xs[i + 1].id == k;
        }
      }
      RemoveIdAbsent(xs[1..], id);
      assert xs == [xs[0]] + xs[1..];
    }
  }

  /** Filtering a list with distinct ids leaves distinct ids. */
  lemma {:induction false} RemoveIdUnique(xs: seq<Recipe>, id: string)
    requires UniqueIds(xs)
    ensures UniqueIds(RemoveId(xs, id))
  {
    if xs != [] {
      var rest := RemoveId(xs[1..], id);
      assert UniqueIds(xs[1..]) by {
        forall i, j | 0 <= i < j < |xs[1..]| ensures xs[1..][i].id != xs[1..][j].id {
          assert xs[1..][i] == xs[i + 1] && xs[1..][j] == xs[j + 1];
        }
      }
      RemoveIdUnique(xs[1..], id);
      RemoveIdMembers(xs[1..], id);
      forall k | 0 <= k < |rest| ensures rest[k].id != xs[0].id {
        assert rest[k] in xs[1..];
        var j :| 0 <= j < |xs[1..]| && xs[1..][j] == rest[k];
        assert xs[j + 1] == rest[k];
      }
    }
  }

  /** `xs.take(n)`: the first `n` entries, or all of them when there are fewer. */
  function Take(xs: seq<Recipe>, n: nat): (r: seq<Recipe>)
    ensures |r| == if |xs| <= n then |xs| else n
    ensures r == xs[..|r|]
  {
    if |xs| <= n then xs else xs[..n]
  }

  /** `(listOf(recipe) + recent.filter { it.id != recipe.id }).take(5)`. */
  function RecentlyViewedAfter(recent: seq<Recipe>, recipe: Recipe): (r: seq<Recipe>)
    ensures 1 <= |r| <= MaxRecent && r[0] == recipe
  {
    Take([recipe] + RemoveId(recent, recipe.id), MaxRecent)
  }

  /**
   * The recipe moves to the front, no later entry carries its id, the rest is
   * the old list without that id truncated to four, and nothing else enters.
   */
  lemma RecentlyViewedProperties(recent: seq<Recipe>, recipe: Recipe)
    ensures var r := RecentlyViewedAfter(recent, recipe);
      && 1 <= |r| <= MaxRecent && r[0] == recipe
      && (forall k :: 1 <= k < |r| ==> r[k].id != recipe.id)
      && r[1..] == Take(RemoveId(recent, recipe.id), MaxRecent - 1)
      && (forall x :: x in r ==> x == recipe || x in recent)
      && (UniqueIds(recent) ==> UniqueIds(r))
  {
    var rest := RemoveId(recent, recipe.id);
    RemoveIdMembers(recent, recipe.id);
    if UniqueIds(recent) {
      RemoveIdUnique(recent, recipe.id);
    }
    var r := RecentlyViewedAfter(recent, recipe);
    assert r[1..] == Take(rest, MaxRecent - 1);
    forall k | 1 <= k < |r| ensures r[k].id != recipe.id {
      assert r[k] == rest[k - 1];
      assert rest[k - 1] in rest;
    }
    forall x | x in r ensures x == recipe || x in recent {
      var k :| 0 <= k < |r| && r[k] == x;
      if k > 0 {
        assert r[k] == rest[k - 1];
        assert rest[k - 1] in rest;
      }
    }
    if UniqueIds(recent) {
      forall i, j | 0 <= i < j < |r| ensures r[i].id != r[j].id {
        if i > 0 {
          assert r[i] == rest[i - 1] && r[j] == rest[j - 1];
        }
      }
    }
  }

  /** Viewing the same recipe twice in a row leaves the list as one view did. */
  lemma RecentlyViewedIdempotent(recent: seq<Recipe>, recipe: Recipe)
    ensures RecentlyViewedAfter(RecentlyViewedAfter(recent, recipe), recipe) == RecentlyViewedAfter(recent, recipe)
  {
    var once := RecentlyViewedAfter(recent, recipe);
    RecentlyViewedProperties(recent, recipe);
    var tail := once[1..];
    assert recipe.id !in Ids(tail) by {
      forall i | 0 <= i < |tail| ensures tail[i].id != recipe.id {
        assert tail[i] == once[i + 1];
      }
    }
    RemoveIdAbsent(tail, recipe.id);
    assert once == [recipe] + tail;
    assert RemoveId(once, recipe.id) == RemoveId(tail, recipe.id);
  }

  /** GlobalRecipeOperationsViewModel's state: the collected favorites and the recently-viewed list. */
  class GlobalRecipeOperationsViewModel {
    const repository: Repository.RecipeRepositoryImpl
    var favoriteRecipes: seq<Recipe>
    var recentlyViewed: seq<Recipe>

    /** The recently-viewed list is short and never shows one recipe twice. */
    ghost predicate Valid()
      reads this
    {
      |recentlyViewed| <= MaxRecent && UniqueIds(recentlyViewed)
    }

    constructor (repository: Repository.RecipeRepositoryImpl)
      ensures this.repository == repository
      ensures favoriteRecipes == [] && recentlyViewed == [] && Valid()
    {
      this.repository := repository;
      favoriteRecipes := [];
      recentlyViewed := [];
    }

    /** One emission of the favorites flow collected in `init`: the stored rows as favorite recipes. */
    method CollectFavorites()
      requires repository.dao.Valid()
      modifies this
      ensures UniqueIds(favoriteRecipes) && Ids(favoriteRecipes) == repository.dao.rows.Keys
      ensures forall i :: 0 <= i < |favoriteRecipes| ==> favoriteRecipes[i].isFavorite
      ensures |favoriteRecipes| == |repository.dao.rows|
      ensures forall i :: 0 <= i < |favoriteRecipes| ==>
        favoriteRecipes[i].id in repository.dao.rows &&
        repository.dao.rows[favoriteRecipes[i].id] == Entities.ToRecipeEntity(favoriteRecipes[i])
      ensures recentlyViewed == old(recentlyViewed)
    {
      favoriteRecipes := repository.GetFavoriteRecipes();
    }

    /** `fetchRandomRecipe(onResult)`: the values handed to `onResult`, in order. */
    method FetchRandomRecipe(response: Repository.ApiOutcome<MealListDto>) returns (delivered: seq<Result<Recipe>>)
      ensures |delivered| == 2 && delivered[0].Loading?
      ensures delivered[1] == Repository.GetRandomRecipe(response) && !delivered[1].Loading?
    {
      delivered := [Loading];
      var result := Repository.GetRandomRecipe(response);
      delivered := delivered + [result];
    }

    /** `addFavorite(recipe)`: forwarded unchanged to the repository. */
    method AddFavorite(recipe: Recipe)
      requires repository.dao.Valid()
      modifies repository.dao
      ensures repository.dao.Valid() && repository.dao.rows == Dao.Insert(old(repository.dao.rows), ToRecipeEntity(recipe))
    {
      repository.AddFavorite(recipe);
    }

    /** `removeFavorite(recipeId)`: forwarded unchanged to the repository. */
    method RemoveFavorite(recipeId: string)
      requires repository.dao.Valid()
      modifies repository.dao
      ensures repository.dao.Valid() && repository.dao.rows == Dao.Delete(old(repository.dao.rows), recipeId)
    {
      repository.RemoveFavorite(recipeId);
    }

    /** `addRecentlyViewedRecipe(recipe)`. */
    method AddRecentlyViewedRecipe(recipe: Recipe)
      requires Valid()
      modifies this
      ensures Valid() && recentlyViewed == RecentlyViewedAfter(old(recentlyViewed), recipe)
      ensures recentlyViewed[0] == recipe
      ensures favoriteRecipes == old(favoriteRecipes)
    {
      RecentlyViewedProperties(recentlyViewed, recipe);
      recentlyViewed := RecentlyViewedAfter(recentlyViewed, recipe);
    }
  }
}
