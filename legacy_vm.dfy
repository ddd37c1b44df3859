/** ui/RecipeViewModel.kt: the older view model with search, details and favorites. */
module RecipeViewModelLegacy {
  import opened Wrappers
  import opened Strings
  import opened Results
  import opened Recipes
  import opened Entities
  import opened MealDtos
  import Dao
  import Repository

  /** RecipeViewModel's state. */
  class RecipeViewModel {
    const repository: Repository.RecipeRepositoryImpl
    var recipes: seq<Recipe>
    var searchQuery: string
    var isLoading: bool
    var errorMessage: Option<string>
    var favoriteRecipes: seq<Recipe>

    constructor (repository: Repository.RecipeRepositoryImpl)
      ensures this.repository == repository
      ensures recipes == [] && searchQuery == "" && !isLoading && errorMessage == None && favoriteRecipes == []
    {
      this.repository := repository;
      recipes := [];
      searchQuery := "";
      isLoading := false;
      errorMessage := None;
      favoriteRecipes := [];
    }

    /** One emission of the favorites flow collected in `init`. */
    method CollectFavorites()
      requires repository.dao.Valid()
      modifies this
      ensures UniqueIds(favoriteRecipes) && Ids(favoriteRecipes) == repository.dao.rows.Keys
      ensures forall i :: 0 <= i < |favoriteRecipes| ==> favoriteRecipes[i].isFavorite
      ensures |favoriteRecipes| == |repository.dao.rows|
      ensures forall i :: 0 <= i < |favoriteRecipes| ==>
        favoriteRecipes[i].id in repository.dao.rows &&
        repository.dao.rows[favoriteRecipes[i].id] == Entities.ToRecipeEntity(favoriteRecipes[i])
      ensures recipes == old(recipes) && searchQuery == old(searchQuery) && isLoading == old(isLoading)
      ensures errorMessage == old(errorMessage)
    {
      favoriteRecipes := repository.GetFavoriteRecipes();
    }

    /** `onSearchQueryChanged(query)`. */
    method OnSearchQueryChanged(query: string)
      modifies this
      ensures searchQuery == query
      ensures recipes == old(recipes) && isLoading == old(isLoading) && errorMessage == old(errorMessage)
      ensures favoriteRecipes == old(favoriteRecipes)
    {
      searchQuery := query;
    }

    /**
     * `searchRecipes()`: nothing for a blank query; otherwise the error is
     * reset and the name search's result is shown, flagged by the current
     * favorites.
     */
    method SearchRecipes(backend: Repository.RecipeSource)
      modifies this
      ensures IsBlank(old(searchQuery)) ==> unchanged(this)
      ensures !IsBlank(old(searchQuery)) ==>
        var result := backend(Repository.SearchByName(searchQuery));
        && !isLoading && searchQuery == old(searchQuery) && favoriteRecipes == old(favoriteRecipes)
        && (result.Success? ==> recipes == WithFavoriteFlags(result.data, Ids(favoriteRecipes)) && errorMessage == None)
        && (result.Error? ==> recipes == [] && errorMessage == Some(result.message))
        && (result.Loading? ==> recipes == old(recipes) && errorMessage == None)
    {
      if IsBlank(searchQuery) {
        return;
      }
      isLoading := true;
      errorMessage := None;
      var result := backend(Repository.SearchByName(searchQuery));
      match result {
        case Success(data) =>
          var currentFavorites := Ids(favoriteRecipes);
          recipes := WithFavoriteFlags(data, currentFavorites);
        case Error(message) =>
          recipes := [];
          errorMessage := Some(message);
        case Loading =>
      }
      isLoading := false;
    }

    /** `addFavorite(recipe)`: forwarded unchanged to the repository. */
    method AddFavorite(recipe: Recipe)
      requires repository.dao.Valid()
      modifies repository.dao
      ensures repository.dao.Valid() && repository.dao.rows == Dao.Insert(old(repository.dao.rows), ToRecipeEntity(recipe))
    {
      repository.AddFavorite(recipe);
    }

    /** `removeFavorite(recipeId)`: forwarded unchanged to the repository. */
    method RemoveFavorite(recipeId: string)
      requires repository.dao.Valid()
      modifies repository.dao
      ensures repository.dao.Valid() && repository.dao.rows == Dao.Delete(old(repository.dao.rows), recipeId)
    {
      repository.RemoveFavorite(recipeId);
    }

    /** `getRecipeDetails(recipeId, onResult)`: `onResult` gets Loading, then exactly the repository's result. */
    method GetRecipeDetails(recipeId: string, response: Repository.ApiOutcome<MealListDto>)
      returns (delivered: seq<Result<Recipe>>)
      ensures |delivered| == 2 && delivered[0].Loading?
      ensures delivered[1] == Repository.GetRecipeDetails(recipeId, response) && !delivered[1].Loading?
    {
      delivered := [Loading];
      var result := Repository.GetRecipeDetails(recipeId, response);
      delivered := delivered + [result];
    }
  }
}
