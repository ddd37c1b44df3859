/** The domain records (domain/model/Recipe.kt) and the list helpers the view models share. */
module Recipes {
  import opened Wrappers

  datatype Ingredient = Ingredient(name: string, measure: string)

  /** A recipe; `isFavorite` is transient and defaults to false. */
  datatype Recipe = Recipe(
    id: string,
    title: string,
    imageUrl: Option<string>,
    instructions: Option<string>,
    ingredients: seq<Ingredient>,
    category: Option<string>,
    area: Option<string>,
    isFavorite: bool := false)

  /** The set of ids in a list of recipes (`map { it.id }.toSet()`). */
  function Ids(xs: seq<Recipe>): set<string> {
    set i | 0 <= i < |xs| :: xs[i].id
  }

  /** The ids of a concatenation are the ids of its parts. */
  lemma IdsAppend(a: seq<Recipe>, b: seq<Recipe>)
    ensures Ids(a + b) == Ids(a) + Ids(b)
  {
    var ab := a + b;
    forall id | id in Ids(a) + Ids(b) ensures id in Ids(ab) {
      if id in Ids(a) {
        var i :| 0 <= i < |a| && a[i].id == id;
        assert ab[i].id == id;
      } else {
        var i :| 0 <= i < |b| && b[i].id == id;
        assert ab[|a| + i].id == id;
      }
    }
  }

  /** No two entries share an id. */
  predicate UniqueIds(xs: seq<Recipe>) {
    forall i, j :: 0 <= i < j < |xs| ==> xs[i].id != xs[j].id
  }

  /** Two recipes that agree on every field except the favorite flag. */
  predicate SameButFavorite(a: Recipe, b: Recipe) {
    a.(isFavorite := false) == b.(isFavorite := false)
  }

  /**
   * `recipes.map { it.copy(isFavorite = favoriteIds.contains(it.id)) }`:
   * the same recipes in the same order, each flagged by membership of its id.
   */
  function WithFavoriteFlags(xs: seq<Recipe>, favoriteIds: set<string>): (r: seq<Recipe>)
    ensures |r| == |xs|
    ensures forall i :: 0 <= i < |r| ==> SameButFavorite(r[i], xs[i]) && r[i].id == xs[i].id
    ensures forall i :: 0 <= i < |r| ==> (r[i].isFavorite <==> r[i].id in favoriteIds)
  {
    seq(|xs|, i requires 0 <= i < |xs| => xs[i].(isFavorite := xs[i].id in favoriteIds))
  }

  /** Flagging keeps the ids, so duplicate-freeness and the id set survive it. */
  lemma WithFavoriteFlagsKeepsIds(xs: seq<Recipe>, favoriteIds: set<string>)
    ensures Ids(WithFavoriteFlags(xs, favoriteIds)) == Ids(xs)
    ensures UniqueIds(xs) ==> UniqueIds(WithFavoriteFlags(xs, favoriteIds))
  {
    var r := WithFavoriteFlags(xs, favoriteIds);
    assert forall i :: 0 <= i < |xs| ==> r[i].id == xs[i].id;
    forall id | id in Ids(xs) ensures id in Ids(r) {
      var i :| 0 <= i < |xs| && xs[i].id == id;
      assert r[i].id == id;
    }
  }
}
