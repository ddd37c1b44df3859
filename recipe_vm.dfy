/**
 * ui/viewmodel/RecipeViewModel.kt: search, filter dispatch, details with the
 * recently-viewed update, and the favorites delegation.
 */
module RecipeViewModelMain {
  import opened Wrappers
  import opened Strings
  import opened Results
  import opened Recipes
  import opened Entities
  import opened Lookups
  import opened MealDtos
  import Dao
  import Repository
  import GlobalOps

  /** The `when (filterType)` of `filterAndDisplayRecipes`: anything unrecognised runs the name search. */
  function FilterRequest(filterType: string, query: string): (req: Repository.RecipeRequest)
    ensures req == Repository.ByCategory(query) <==> filterType == "category"
    ensures req == Repository.ByArea(query) <==> filterType == "area"
    ensures req == Repository.ByIngredient(query) <==> filterType == "ingredient"
    ensures req == Repository.SearchByName(query) <==> filterType !in {"category", "area", "ingredient"}
  {
    if filterType == "category" then Repository.ByCategory(query)
    else if filterType == "area" then Repository.ByArea(query)
    else if filterType == "ingredient" then Repository.ByIngredient(query)
    else Repository.SearchByName(query)
  }

  /** RecipeViewModel's state. */
  class RecipeViewModel {
    const repository: Repository.RecipeRepositoryImpl
    var recipes: seq<Recipe>
    var searchQuery: string
    var isLoading: bool
    var errorMessage: Option<string>
    var favoriteRecipes: seq<Recipe>
    var recentlyViewed: seq<Recipe>
    var categories: Result<seq<Category>>
    var areas: Result<seq<Name>>

    /** The recently-viewed list is short and never shows one recipe twice. */
    ghost predicate Valid()
      reads this
    {
      |recentlyViewed| <= GlobalOps.MaxRecent && UniqueIds(recentlyViewed)
    }

    /** The `init` block, with both lookups fetched; favorites arrive through CollectFavorites. */
    constructor (repository: Repository.RecipeRepositoryImpl,
                 categoriesResponse: Repository.ApiOutcome<CategoryListDto>,
                 areasResponse: Repository.ApiOutcome<NameListDto>)
      ensures this.repository == repository && Valid()
      ensures recipes == [] && searchQuery == "" && !isLoading && errorMessage == None
      ensures favoriteRecipes == [] && recentlyViewed == []
      ensures categories == Repository.GetCategories(categoriesResponse)
      ensures areas == Repository.ListAreas(areasResponse)
    {
      this.repository := repository;
      recipes := [];
      searchQuery := "";
      isLoading := false;
      errorMessage := None;
      favoriteRecipes := [];
      recentlyViewed := [];
      categories := Repository.GetCategories(categoriesResponse);
      areas := Repository.ListAreas(areasResponse);
    }

    /** One emission of the favorites flow collected in `init`. */
    method CollectFavorites()
      requires repository.dao.Valid()
      modifies this
      ensures UniqueIds(favoriteRecipes) && Ids(favoriteRecipes) == repository.dao.rows.Keys
      ensures forall i :: 0 <= i < |favoriteRecipes| ==> favoriteRecipes[i].isFavorite
      ensures |favoriteRecipes| == |repository.dao.rows|
      ensures forall i :: 0 <= i < |favoriteRecipes| ==>
        favoriteRecipes[i].id in repository.dao.rows &&
        repository.dao.rows[favoriteRecipes[i].id] == Entities.ToRecipeEntity(favoriteRecipes[i])
      ensures recipes == old(recipes) && searchQuery == old(searchQuery) && isLoading == old(isLoading)
      ensures errorMessage == old(errorMessage) && recentlyViewed == old(recentlyViewed)
      ensures categories == old(categories) && areas == old(areas)
    {
      favoriteRecipes := repository.GetFavoriteRecipes();
    }

    /** `onSearchQueryChanged(query)`. */
    method OnSearchQueryChanged(query: string)
      modifies this
      ensures searchQuery == query
      ensures recipes == old(recipes) && isLoading == old(isLoading) && errorMessage == old(errorMessage)
      ensures favoriteRecipes == old(favoriteRecipes) && recentlyViewed == old(recentlyViewed)
      ensures categories == old(categories) && areas == old(areas)
    {
      searchQuery := query;
    }

    /** The `when (result)` that ends a search or filter: favorites flagged by the ids of `favoriteRecipes`. */
    method ShowResult(result: Result<seq<Recipe>>)
      modifies this
      ensures result.Success? ==> recipes == WithFavoriteFlags(result.data, Ids(favoriteRecipes)) && errorMessage == old(errorMessage)
      ensures result.Error? ==> recipes == [] && errorMessage == Some(result.message)
      ensures result.Loading? ==> recipes == old(recipes) && errorMessage == old(errorMessage)
      ensures searchQuery == old(searchQuery) && isLoading == old(isLoading)
      ensures favoriteRecipes == old(favoriteRecipes) && recentlyViewed == old(recentlyViewed)
      ensures categories == old(categories) && areas == old(areas)
    {
      match result {
        case Success(data) =>
          var currentFavorites := Ids(favoriteRecipes);
          recipes := WithFavoriteFlags(data, currentFavorites);
        case Error(message) =>
          recipes := [];
          errorMessage := Some(message);
        case Loading =>
      }
    }

    /** `searchRecipes()`: nothing for a blank query, otherwise the name search's result is shown. */
    method SearchRecipes(backend: Repository.RecipeSource)
      modifies this
      ensures IsBlank(old(searchQuery)) ==> unchanged(this)
      ensures !IsBlank(old(searchQuery)) ==>
        var result := backend(Repository.SearchByName(searchQuery));
        && !isLoading && searchQuery == old(searchQuery)
        && favoriteRecipes == old(favoriteRecipes) && recentlyViewed == old(recentlyViewed)
        && categories == old(categories) && areas == old(areas)
        && (result.Success? ==> recipes == WithFavoriteFlags(result.data, Ids(favoriteRecipes)) && errorMessage == None)
        && (result.Error? ==> recipes == [] && errorMessage == Some(result.message))
        && (result.Loading? ==> recipes == old(recipes) && errorMessage == None)
    {
      if IsBlank(searchQuery) {
        return;
      }
      isLoading := true;
      errorMessage := None;
      var result := backend(Repository.SearchByName(searchQuery));
      ShowResult(result);
      isLoading := false;
    }

    /** `filterAndDisplayRecipes(filterType, query)`: the dispatched request's result is shown. */
    method FilterAndDisplayRecipes(filterType: string, query: string, backend: Repository.RecipeSource)
      modifies this
      ensures var result := backend(FilterRequest(filterType, query));
        && !isLoading && searchQuery == old(searchQuery)
        && favoriteRecipes == old(favoriteRecipes) && recentlyViewed == old(recentlyViewed)
        && categories == old(categories) && areas == old(areas)
        && (result.Success? ==> recipes == WithFavoriteFlags(result.data, Ids(favoriteRecipes)) && errorMessage == None)
        && (result.Error? ==> recipes == [] && errorMessage == Some(result.message))
        && (result.Loading? ==> recipes == old(recipes) && errorMessage == None)
    {
      isLoading := true;
      errorMessage := None;
      var result := backend(FilterRequest(filterType, query));
      ShowResult(result);
      isLoading := false;
    }

    /** `addFavorite(recipe)`: forwarded unchanged to the repository. */
    method AddFavorite(recipe: Recipe)
      requires repository.dao.Valid()
      modifies repository.dao
      ensures repository.dao.Valid() && repository.dao.rows == Dao.Insert(old(repository.dao.rows), ToRecipeEntity(recipe))
    {
      repository.AddFavorite(recipe);
    }

    /** `removeFavorite(recipeId)`: forwarded unchanged to the repository. */
    method RemoveFavorite(recipeId: string)
      requires repository.dao.Valid()
      modifies repository.dao
      ensures repository.dao.Valid() && repository.dao.rows == Dao.Delete(old(repository.dao.rows), recipeId)
    {
      repository.RemoveFavorite(recipeId);
    }

    /** `addRecentlyViewedRecipe(recipe)`: the same update as the shared view model's. */
    method AddRecentlyViewedRecipe(recipe: Recipe)
      requires Valid()
      modifies this
      ensures Valid() && recentlyViewed == GlobalOps.RecentlyViewedAfter(old(recentlyViewed), recipe)
      ensures recentlyViewed[0] == recipe
      ensures recipes == old(recipes) && searchQuery == old(searchQuery) && isLoading == old(isLoading)
      ensures errorMessage == old(errorMessage) && favoriteRecipes == old(favoriteRecipes)
      ensures categories == old(categories) && areas == old(areas)
    {
      GlobalOps.RecentlyViewedProperties(recentlyViewed, recipe);
      recentlyViewed := GlobalOps.RecentlyViewedAfter(recentlyViewed, recipe);
    }

    /**
     * `getRecipeDetails(recipeId, onResult)`: `onResult` gets Loading, then the
     * repository's result; a success is then recorded as recently viewed.
     */
    method GetRecipeDetails(recipeId: string, response: Repository.ApiOutcome<MealListDto>)
      returns (delivered: seq<Result<Recipe>>)
      requires Valid()
      modifies this
      ensures delivered == [Loading, Repository.GetRecipeDetails(recipeId, response)]
      ensures Valid()
      ensures delivered[1].Success? ==> recentlyViewed == GlobalOps.RecentlyViewedAfter(old(recentlyViewed), delivered[1].data)
      ensures !delivered[1].Success? ==> recentlyViewed == old(recentlyViewed)
      ensures recipes == old(recipes) && searchQuery == old(searchQuery) && isLoading == old(isLoading)
      ensures errorMessage == old(errorMessage) && favoriteRecipes == old(favoriteRecipes)
      ensures categories == old(categories) && areas == old(areas)
    {
      delivered := [Loading];
      var result := Repository.GetRecipeDetails(recipeId, response);
      delivered := delivered + [result];
      if result.Success? {
        AddRecentlyViewedRecipe(result.data);
      }
    }

    /** `fetchCategories()`, after its Loading step. */
    method FetchCategories(response: Repository.ApiOutcome<CategoryListDto>)
      modifies this
      ensures categories == Repository.GetCategories(response)
      ensures recipes == old(recipes) && searchQuery == old(searchQuery) && isLoading == old(isLoading)
      ensures errorMessage == old(errorMessage) && favoriteRecipes == old(favoriteRecipes)
      ensures recentlyViewed == old(recentlyViewed) && areas == old(areas)
    {
      categories := Loading;
      categories := Repository.GetCategories(response);
    }

    /** `fetchAreas()`, after its Loading step. */
    method FetchAreas(response: Repository.ApiOutcome<NameListDto>)
      modifies this
      ensures areas == Repository.ListAreas(response)
      ensures recipes == old(recipes) && searchQuery == old(searchQuery) && isLoading == old(isLoading)
      ensures errorMessage == old(errorMessage) && favoriteRecipes == old(favoriteRecipes)
      ensures recentlyViewed == old(recentlyViewed) && categories == old(categories)
    {
      areas := Loading;
      areas := Repository.ListAreas(response);
    }

    /** `fetchRandomRecipe(onResult)`: the values handed to `onResult`, in order. */
    method FetchRandomRecipe(response: Repository.ApiOutcome<MealListDto>) returns (delivered: seq<Result<Recipe>>)
      ensures |delivered| == 2 && delivered[0].Loading?
      ensures delivered[1] == Repository.GetRandomRecipe(response) && !delivered[1].Loading?
    {
      delivered := [Loading];
      var result := Repository.GetRandomRecipe(response);
      delivered := delivered + [result];
    }
  }
}
