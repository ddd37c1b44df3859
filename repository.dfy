/**
 * data/repository/RecipeRepositoryImpl.kt: each remote call's outcome mapped
 * to a Result, and the favorites operations delegated to the DAO.
 */
module Repository {
  import opened Wrappers
  import opened Strings
  import opened Results
  import opened Recipes
  import opened Entities
  import opened MealDtos
  import opened Lookups
  import Dao

  /**
   * What one remote call did: returned a body, threw an `IOException`, or
   * threw another exception.  `detail` is the exception's message as Kotlin
   * renders it in a string template.
   */
  datatype ApiOutcome<T> = Ok(body: T) | IOFail(detail: string) | OtherFail(detail: string)

  /** `response.meals ?: emptyList()`. */
  function MealsOf(dto: MealListDto): seq<MealDto> {
    dto.meals.GetOr([])
  }

  /** `meals.map { it.toRecipe() }`. */
  function MapMeals(meals: seq<MealDto>): (r: seq<Recipe>)
    ensures |r| == |meals|
    ensures forall i :: 0 <= i < |meals| ==> r[i] == MealRecipe(meals[i])
  {
    seq(|meals|, i requires 0 <= i < |meals| => MealRecipe(meals[i]))
  }

  /** The message for an empty name search. */
  function NoRecipesFound(query: string): string {
    "No recipes found for '" + query + "'"
  }

  const NoRecipesForFilter: string := "No recipes found for this filter."

  /** `searchRecipes(query)`. */
  function SearchRecipes(query: string, response: ApiOutcome<MealListDto>): (r: Result<seq<Recipe>>)
    ensures r.Success? <==> response.Ok? && MealsOf(response.body) != []
    ensures r.Success? ==> r.data == MapMeals(MealsOf(response.body))
    ensures response.Ok? && MealsOf(response.body) == [] ==> r == Error(NoRecipesFound(query))
    ensures response.IOFail? ==> r == Error("Network error: " + response.detail)
    ensures response.OtherFail? ==> r == Error("Failed to fetch recipes: " + response.detail)
  {
    match response
    case Ok(dto) =>
      var meals := MealsOf(dto);
      if meals == [] then Error(NoRecipesFound(query)) else Success(MapMeals(meals))
    case IOFail(d) => Error("Network error: " + d)
    case OtherFail(d) => Error("Failed to fetch recipes: " + d)
  }

  /** `getRecipeDetails(id)`: the first meal of the response, mapped. */
  function GetRecipeDetails(id: string, response: ApiOutcome<MealListDto>): (r: Result<Recipe>)
    ensures r.Success? <==> response.Ok? && MealsOf(response.body) != []
    ensures r.Success? ==> r.data == MealRecipe(MealsOf(response.body)[0])
    ensures response.Ok? && MealsOf(response.body) == [] ==> r == Error("Recipe not found for ID: " + id)
    ensures response.IOFail? ==> r == Error("Network error: " + response.detail)
    ensures response.OtherFail? ==> r == Error("Failed to get recipe details: " + response.detail)
  {
    match response
    case Ok(dto) =>
      var meals := MealsOf(dto);
      if meals == [] then Error("Recipe not found for ID: " + id) else Success(MealRecipe(meals[0]))
    case IOFail(d) => Error("Network error: " + d)
    case OtherFail(d) => Error("Failed to get recipe details: " + d)
  }

  /** `getRandomRecipe()`: the first meal of the response, mapped. */
  function GetRandomRecipe(response: ApiOutcome<MealListDto>): (r: Result<Recipe>)
    ensures r.Success? <==> response.Ok? && MealsOf(response.body) != []
    ensures r.Success? ==> r.data == MealRecipe(MealsOf(response.body)[0])
    ensures response.Ok? && MealsOf(response.body) == [] ==> r == Error("No random recipe found.")
    ensures response.IOFail? ==> r == Error("Network error fetching random recipe: " + response.detail)
    ensures response.OtherFail? ==> r == Error("Failed to fetch random recipe: " + response.detail)
  {
    match response
    case Ok(dto) =>
      var meals := MealsOf(dto);
      if meals == [] then Error("No random recipe found.") else Success(MealRecipe(meals[0]))
    case IOFail(d) => Error("Network error fetching random recipe: " + d)
    case OtherFail(d) => Error("Failed to fetch random recipe: " + d)
  }

  /** `getCategories()`: every category mapped, in order; an empty list is a success. */
  function GetCategories(response: ApiOutcome<CategoryListDto>): (r: Result<seq<Category>>)
    ensures r.Success? <==> response.Ok?
    ensures r.Success? ==> |r.data| == |response.body.categories|
    ensures r.Success? ==> forall i :: 0 <= i < |r.data| ==> r.data[i] == ToDomain(response.body.categories[i])
    ensures response.IOFail? ==> r == Error("Network error fetching categories: " + response.detail)
    ensures response.OtherFail? ==> r == Error("Failed to fetch categories: " + response.detail)
  {
    match response
    case Ok(dto) =>
      var categories := dto.categories;
      Success(seq(|categories|, i requires 0 <= i < |categories| => ToDomain(categories[i])))
    case IOFail(d) => Error("Network error fetching categories: " + d)
    case OtherFail(d) => Error("Failed to fetch categories: " + d)
  }

  /** Which NameDto field a lookup list filters on. */
  datatype NameField = IngredientField | AreaField

  function FieldOf(dto: NameDto, field: NameField): (r: Option<string>) {
    match field
    case IngredientField => dto.strIngredient
    case AreaField => dto.strArea
  }

  /** What one entry contributes: its mapped name when the field is set and non-blank, nothing otherwise. */
  function Kept(dto: NameDto, field: NameField, kind: string): (r: seq<Name>) {
    if !IsNullOrBlank(FieldOf(dto, field)) then [ToDomainName(dto, kind)] else []
  }

  /** `names.filter { !it.<field>.isNullOrBlank() }.map { it.toDomainName(type = kind) }`. */
  function NamesWith(names: seq<NameDto>, field: NameField, kind: string): (r: seq<Name>)
    ensures |r| <= |names|
  {
    if names == [] then [] else Kept(names[0], field, kind) + NamesWith(names[1..], field, kind)
  }

  /**
   * The lookup list keeps, in order, exactly the entries whose field is set
   * and non-blank, each mapped with the given tag.
   */
  lemma {:induction false} NamesWithProperties(names: seq<NameDto>, field: NameField, kind: string)
    ensures var r := NamesWith(names, field, kind);
      && |r| <= |names|
      && (forall n :: n in r ==> n.kind == kind)
      && (forall n :: n in r <==> exists dto :: dto in names && !IsNullOrBlank(FieldOf(dto, field)) && n == ToDomainName(dto, kind))
  {
    if names != [] {
      NamesWithProperties(names[1..], field, kind);
      assert names == [names[0]] + names[1..];
    }
  }

  /** The lookup filter works entry by entry, so the kept names keep the order of the response. */
  lemma {:induction false} NamesWithAppend(a: seq<NameDto>, b: seq<NameDto>, field: NameField, kind: string)
    ensures NamesWith(a + b, field, kind) == NamesWith(a, field, kind) + NamesWith(b, field, kind)
  {
    if a == [] {
      assert a + b == b;
    } else {
      NamesWithAppend(a[1..], b, field, kind);
      assert (a + b)[1..] == a[1..] + b && (a + b)[0] == a[0];
      var h, x, y := Kept(a[0], field, kind), NamesWith(a[1..], field, kind), NamesWith(b, field, kind);
      assert h + (x + y) == (h + x) + y;
    }
  }

  /** `listIngredients()`; a null list is an empty success. */
  function ListIngredients(response: ApiOutcome<NameListDto>): (r: Result<seq<Name>>)
    ensures r.Success? <==> response.Ok?
    ensures r.Success? ==> r.data == NamesWith(response.body.names.GetOr([]), IngredientField, "Ingredient")
    ensures response.IOFail? ==> r == Error("Network error fetching ingredients: " + response.detail)
    ensures response.OtherFail? ==> r == Error("Failed to fetch ingredients: " + response.detail)
  {
    match response
    case Ok(dto) =>
      (match dto.names
       case None => Success([])
       case Some(names) => Success(NamesWith(names, IngredientField, "Ingredient")))
    case IOFail(d) => Error("Network error fetching ingredients: " + d)
    case OtherFail(d) => Error("Failed to fetch ingredients: " + d)
  }

  /** `listAreas()`; a null list is an empty success. */
  function ListAreas(response: ApiOutcome<NameListDto>): (r: Result<seq<Name>>)
    ensures r.Success? <==> response.Ok?
    ensures r.Success? ==> r.data == NamesWith(response.body.names.GetOr([]), AreaField, "Area")
    ensures response.IOFail? ==> r == Error("Network error fetching areas: " + response.detail)
    ensures response.OtherFail? ==> r == Error("Failed to fetch areas: " + response.detail)
  {
    match response
    case Ok(dto) =>
      (match dto.names
       case None => Success([])
       case Some(names) => Success(NamesWith(names, AreaField, "Area")))
    case IOFail(d) => Error("Network error fetching areas: " + d)
    case OtherFail(d) => Error("Failed to fetch areas: " + d)
  }

  /** Every listed ingredient is named by its own non-blank `strIngredient`. */
  lemma IngredientNamesNonBlank(response: ApiOutcome<NameListDto>)
    requires response.Ok?
    ensures forall n :: n in ListIngredients(response).data ==> n.kind == "Ingredient" && !IsBlank(n.name)
  {
    NamesWithProperties(response.body.names.GetOr([]), IngredientField, "Ingredient");
  }

  /**
   * An area entry is kept by its `strArea` but named by `strIngredient` first:
   * an entry carrying both shows the ingredient's text, even a blank one.
   */
  lemma AreaNamedByIngredientField()
    ensures ListAreas(Ok(NameListDto(Some([NameDto(Some(""), Some("Italian"))])))) ==
      Success([Name("", "Area")])
  {
    var dto := NameDto(Some(""), Some("Italian"));
    var italian := "Italian";
    assert !IsWhitespace(italian[0]);
    assert !IsNullOrBlank(FieldOf(dto, AreaField));
    assert [dto][1..] == [];
    assert NamesWith([dto], AreaField, "Area") == [Name("", "Area")];
  }

  /** `filterMeals(call)`, shared by filterByCategory, filterByArea and filterByIngredient. */
  function FilterMeals(response: ApiOutcome<MealListDto>): (r: Result<seq<Recipe>>)
    ensures r.Success? <==> response.Ok? && MealsOf(response.body) != []
    ensures r.Success? ==> r.data == MapMeals(MealsOf(response.body))
    ensures response.Ok? && MealsOf(response.body) == [] ==> r == Error(NoRecipesForFilter)
    ensures response.IOFail? ==> r == Error("Network error during filtering: " + response.detail)
    ensures response.OtherFail? ==> r == Error("Failed to filter recipes: " + response.detail)
  {
    match response
    case Ok(dto) =>
      var meals := MealsOf(dto);
      if meals == [] then Error(NoRecipesForFilter) else Success(MapMeals(meals))
    case IOFail(d) => Error("Network error during filtering: " + d)
    case OtherFail(d) => Error("Failed to filter recipes: " + d)
  }

  /** A list request a view model sends to the repository. */
  datatype RecipeRequest =
    | SearchByName(query: string)
    | ByCategory(category: string)
    | ByArea(area: string)
    | ByIngredient(ingredient: string)

  /**
   * The repository's answer to a request, given the outcome of the remote
   * call it makes: the three filters all go through filterMeals.
   */
  function Respond(request: RecipeRequest, response: ApiOutcome<MealListDto>): (r: Result<seq<Recipe>>)
    ensures !r.Loading?
    ensures r.Success? ==> response.Ok? && r.data != [] && r.data == MapMeals(MealsOf(response.body))
    ensures !request.SearchByName? ==> r == FilterMeals(response)
  {
    match request
    case SearchByName(q) => SearchRecipes(q, response)
    case ByCategory(_) => FilterMeals(response)
    case ByArea(_) => FilterMeals(response)
    case ByIngredient(_) => FilterMeals(response)
  }

  /**
   * The repository as the view models see it: the awaited result of each
   * list request.  The real one answers `Respond(request, network(request))`.
   */
  type RecipeSource = RecipeRequest -> Result<seq<Recipe>>

  /** `getFavoriteRecipes()`, one emission: every stored row as a recipe flagged favorite. */
  function FavoriteRecipes(entities: seq<RecipeEntity>): (r: seq<Recipe>)
    ensures |r| == |entities|
    ensures forall i :: 0 <= i < |r| ==> r[i] == Entities.ToRecipe(entities[i]).(isFavorite := true)
    ensures forall i :: 0 <= i < |r| ==> r[i].isFavorite && ToRecipeEntity(r[i]) == entities[i]
  {
    seq(|entities|, i requires 0 <= i < |entities| => Entities.ToRecipe(entities[i]).(isFavorite := true))
  }

  /** The repository test case: one stored row reads back as the expected recipe, flagged favorite. */
  lemma FavoriteRecipesOfTestRow()
    ensures FavoriteRecipes([ToRecipeEntity(MealRecipe(SugarMeal()))]) == [MealRecipe(SugarMeal()).(isFavorite := true)]
  {
    RecipeRoundTrip(MealRecipe(SugarMeal()));
  }

  /** Test cases: a found meal maps to the expected recipe, an empty or null response to the not-found errors. */
  lemma RepositoryTestCases()
    ensures SearchRecipes("test", Ok(MealListDto(Some([SugarMeal()])))) == Success([MealRecipe(SugarMeal())])
    ensures SearchRecipes("no results", Ok(MealListDto(Some([])))) == Error("No recipes found for 'no results'")
    ensures GetRecipeDetails("999", Ok(MealListDto(None))) == Error("Recipe not found for ID: 999")
    ensures GetRecipeDetails("100", Ok(MealListDto(Some([SugarMeal()])))) == Success(MealRecipe(SugarMeal()))
  {
    assert MapMeals([SugarMeal()]) == [MealRecipe(SugarMeal())];
  }

  /** RecipeRepositoryImpl: its state is the DAO it writes favorites to. */
  class RecipeRepositoryImpl {
    const dao: Dao.RecipeDao

    constructor (dao: Dao.RecipeDao)
      ensures this.dao == dao
    {
      this.dao := dao;
    }

    /** `addFavorite(recipe)`: one `insertRecipe(recipe.toRecipeEntity())`. */
    method AddFavorite(recipe: Recipe)
      requires dao.Valid()
      modifies dao
      ensures dao.Valid() && dao.rows == Dao.Insert(old(dao.rows), ToRecipeEntity(recipe))
    {
      dao.InsertRecipe(ToRecipeEntity(recipe));
    }

    /** `removeFavorite(recipeId)`: one `deleteRecipeById(recipeId)`. */
    method RemoveFavorite(recipeId: string)
      requires dao.Valid()
      modifies dao
      ensures dao.Valid() && dao.rows == Dao.Delete(old(dao.rows), recipeId)
    {
      dao.DeleteRecipeById(recipeId);
    }

    /** `getFavoriteRecipes()`, one emission: the current rows, in scan order, as favorite recipes. */
    method GetFavoriteRecipes() returns (favorites: seq<Recipe>)
      requires dao.Valid()
      ensures |favorites| == |dao.rows| && UniqueIds(favorites) && Ids(favorites) == dao.rows.Keys
      ensures forall i :: 0 <= i < |favorites| ==>
        favorites[i].isFavorite && favorites[i].id in dao.rows && dao.rows[favorites[i].id] == ToRecipeEntity(favorites[i])
    {
      var entities := dao.GetAllFavoriteRecipes();
      favorites := FavoriteRecipes(entities);
      assert forall i :: 0 <= i < |favorites| ==> favorites[i].id == entities[i].id;
      assert Ids(favorites) == Dao.KeysOf(entities);
    }
  }
}
