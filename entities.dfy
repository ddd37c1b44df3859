/**
 * The favorites table row (data/local/RecipeEntity.kt) and the two
 * conversions between it and the domain Recipe.  `Recipe.toRecipeEntity`
 * (domain/model/Recipe.kt) lives here too, since the two modules would
 * otherwise import each other.
 */
module Entities {
  import opened Wrappers
  import opened Recipes

  /** One row; `id` is the primary key.  The ingredient list is stored as is. */
  datatype RecipeEntity = RecipeEntity(
    id: string,
    title: string,
    imageUrl: Option<string>,
    instructions: Option<string>,
    ingredients: seq<Ingredient>,
    category: Option<string>,
    area: Option<string>)

  /** `RecipeEntity.toRecipe`: the favorite flag is not passed, so it takes its default. */
  function ToRecipe(e: RecipeEntity): (r: Recipe)
    ensures !r.isFavorite
  {
    Recipe(e.id, e.title, e.imageUrl, e.instructions, e.ingredients, e.category, e.area)
  }

  /** `Recipe.toRecipeEntity`: every stored field, the favorite flag dropped. */
  function ToRecipeEntity(r: Recipe): (e: RecipeEntity)
    ensures e.id == r.id
  {
    RecipeEntity(r.id, r.title, r.imageUrl, r.instructions, r.ingredients, r.category, r.area)
  }

  /** Reading back a stored row gives the stored row. */
  lemma EntityRoundTrip(e: RecipeEntity)
    ensures ToRecipeEntity(ToRecipe(e)) == e
  {
  }

  /** Storing and reading back a recipe gives the recipe, with the flag reset to false. */
  lemma RecipeRoundTrip(r: Recipe)
    ensures ToRecipe(ToRecipeEntity(r)) == r.(isFavorite := false)
  {
  }

  /** The favorite flag is the only thing storage forgets. */
  lemma ToRecipeEntityIgnoresFavorite(a: Recipe, b: Recipe)
    ensures ToRecipeEntity(a) == ToRecipeEntity(b) <==> SameButFavorite(a, b)
  {
    if ToRecipeEntity(a) == ToRecipeEntity(b) {
      RecipeRoundTrip(a);
      RecipeRoundTrip(b);
    }
  }
}
