# RecipeApp core in Dafny

A model of the logic of RecipeApp, an Android recipe browser written in Kotlin over TheMealDB. It covers these parts:

- The DTO-to-domain mappings: `MealDto.toRecipe` with its 20 ingredient/measure slots, `toDomain` and `toDomainName`.
- The conversions between `Recipe` and the Room entity `RecipeEntity`.
- The favorites table behind `RecipeDao`: insert-or-replace, delete by id, existence, scan.
- `RecipeRepositoryImpl`, which maps each remote call's outcome to `Result.Success` or `Result.Error` with fixed messages, and delegates favorites to the DAO.
- The view models:
  - `RecipeListViewModel`: the dual search merge and the single-selection filter chips.
  - `GlobalRecipeOperationsViewModel`: the recently-viewed list, capped at 5, and favorites delegation.
  - The two `RecipeViewModel` classes, in `ui/viewmodel` and the older one in `ui`.
- The pure helpers of the detail screen: instruction steps, favorite status, the favorite button's action and the ingredient line.

Modules follow the Kotlin files:

| module | file |
|---|---|
| `Wrappers`, `Results` | Kotlin nullables as `Option`; `util/Result.kt` |
| `Strings` | `isWhitespace`, `isBlank`, `trim`, `split` |
| `Recipes` | `domain/model/Recipe.kt` records and the id-set helpers |
| `Entities` | `data/local/RecipeEntity.kt`, plus `Recipe.toRecipeEntity` (the two files convert into each other) |
| `Lookups` | category/name DTOs and `data/model/DataMappingExtensions.kt` |
| `MealDtos` | `data/model/MealDto.kt` |
| `Dao` | `data/local/RecipeDao.kt` |
| `Repository` | `data/repository/RecipeRepositoryImpl.kt` |
| `GlobalOps` | `ui/viewmodel/GlobalRecipeOperationsViewModel.kt` |
| `RecipeList` | `ui/viewmodel/RecipeListViewModel.kt` |
| `RecipeViewModelMain` | `ui/viewmodel/RecipeViewModel.kt` |
| `RecipeViewModelLegacy` | `ui/RecipeViewModel.kt` |
| `RecipeDetail` | `ui/detail/RecipeDetailScreen.kt` (pure helpers only) |

Each remote call is an input value `ApiOutcome<T> = Ok(body) | IOFail(detail) | OtherFail(detail)`. These stand for a returned body, an `IOException`, and any other exception; `detail` is the exception's message.

The view models receive the repository's awaited answer for each list request as a function `RecipeSource = RecipeRequest -> Result<seq<Recipe>>`. So each contract names the exact request a method issues: the ingredient chip of the list screen sends the name search. The real repository answers `Repository.Respond(request, outcome)`.

State that the Kotlin code keeps in `mutableStateOf`/`MutableStateFlow` fields is held in Dafny classes with `modifies` frames. Each coroutine body is treated as running to completion. The favorites table is a `map` field of the class `Dao.RecipeDao`. The merge loop of the dual search and the slot loop of `toRecipe` are methods with loop invariants, proved against the reference functions `RecipeList.DedupById` and `MealDtos.MealRecipe`.

## Model

| member | source | states |
|---|---|---|
| Recipes.WithFavoriteFlags | app/src/main/java/com/csugprojects/recipeapp/ui/viewmodel/RecipeListViewModel.kt:110-112 | same recipes in the same order, each flag true iff its id is in the favorite ids |
| Recipes.WithFavoriteFlagsKeepsIds | app/src/main/java/com/csugprojects/recipeapp/ui/viewmodel/RecipeViewModel.kt:70-73 | flagging keeps the id set and keeps ids distinct |
| Entities.ToRecipe | app/src/main/java/com/csugprojects/recipeapp/data/local/RecipeEntity.kt:28-37 | the converted recipe is never flagged favorite (the flag defaults to false) |
| Entities.ToRecipeEntity | app/src/main/java/com/csugprojects/recipeapp/domain/model/Recipe.kt:24-33 | the entity keeps the recipe's id, the table's primary key |
| Entities.EntityRoundTrip | app/src/main/java/com/csugprojects/recipeapp/data/local/RecipeEntity.kt:28-37 | e.toRecipe().toRecipeEntity() == e for every entity |
| Entities.RecipeRoundTrip | app/src/main/java/com/csugprojects/recipeapp/domain/model/Recipe.kt:19-33 | r.toRecipeEntity().toRecipe() == r with isFavorite false |
| Entities.ToRecipeEntityIgnoresFavorite | app/src/main/java/com/csugprojects/recipeapp/domain/model/Recipe.kt:24-33 | two recipes give the same entity iff they differ at most in isFavorite |
| Lookups.ToDomain | app/src/main/java/com/csugprojects/recipeapp/data/model/DataMappingExtensions.kt:14-21 | each category field is the corresponding DTO field: id, name, thumbnail, description |
| Lookups.ToDomainInjective | app/src/main/java/com/csugprojects/recipeapp/data/model/DataMappingExtensions.kt:14-21 | the category mapping is a field renaming: equal results iff equal DTOs |
| Lookups.ToDomainName | app/src/main/java/com/csugprojects/recipeapp/data/model/DataMappingExtensions.kt:26-31 | type is the argument; name is strIngredient when non-null, else strArea when non-null, else "" |
| Strings.Trim | app/src/main/java/com/csugprojects/recipeapp/data/model/MealDto.kt:125-126 | `trim()`: whitespace removed at both ends; never longer than the input |
| Strings.IsWhitespace | app/src/main/java/com/csugprojects/recipeapp/data/model/MealDto.kt:125-126 | the whitespace `trim()` and `isBlank()` use: space, tab, newline and carriage return count; letters, digits and '.' do not |
| Strings.IsBlank | app/src/main/java/com/csugprojects/recipeapp/ui/viewmodel/RecipeListViewModel.kt:63 | `isBlank()`: the empty query is blank, a query starting with a non-whitespace character is not |
| Strings.TrimProperties | app/src/main/java/com/csugprojects/recipeapp/data/model/MealDto.kt:125-127 | trim is no longer than its input, keeps only input characters, is empty iff the input is blank, and starts and ends with non-whitespace |
| Strings.TrimIdempotent | app/src/main/java/com/csugprojects/recipeapp/data/model/MealDto.kt:125-127 | trimming twice is trimming once; blankness survives trimming |
| Strings.Split | app/src/main/java/com/csugprojects/recipeapp/ui/detail/RecipeDetailScreen.kt:310 | `split` on one delimiter with no limit: at least one piece, none containing the delimiter |
| Strings.SplitCons | app/src/main/java/com/csugprojects/recipeapp/ui/detail/RecipeDetailScreen.kt:310 | a non-delimiter character extends the first piece |
| Strings.SplitPrefix | app/src/main/java/com/csugprojects/recipeapp/ui/detail/RecipeDetailScreen.kt:310 | a delimiter-free prefix extends the first piece of what follows it |
| Strings.SplitJoin | app/src/main/java/com/csugprojects/recipeapp/ui/detail/RecipeDetailScreen.kt:310 | joining the pieces of split gives back the text; one piece more than delimiters |
| Strings.SplitOfJoin | app/src/main/java/com/csugprojects/recipeapp/ui/detail/RecipeDetailScreen.kt:310 | split undoes join when no piece contains the delimiter |
| MealDtos.MealRecipe | app/src/main/java/com/csugprojects/recipeapp/data/model/MealDto.kt:109-142 | the reference mapping: id and title copied from the DTO, not a favorite (its ingredients are pinned down by MealRecipeProperties) |
| MealDtos.ToRecipe | app/src/main/java/com/csugprojects/recipeapp/data/model/MealDto.kt:109-142 | the slot loop builds exactly MealRecipe(m) |
| MealDtos.SlotOutcomeRaw | app/src/main/java/com/csugprojects/recipeapp/data/model/MealDto.kt:125-128 | slot i contributes iff its raw name and measure are non-null and non-blank, and then contributes the trimmed pair |
| MealDtos.CollectBySlot | app/src/main/java/com/csugprojects/recipeapp/data/model/MealDto.kt:124-130 | kept ingredients correspond one-to-one, in increasing slot order, to the contributing slots |
| MealDtos.MealRecipeProperties | app/src/main/java/com/csugprojects/recipeapp/data/model/MealDto.kt:109-142 | at most 20 ingredients, slot i kept iff both fields non-blank, each kept ingredient the trimmed pair of its own slot, in slot order; other fields copied, isFavorite false |
| MealDtos.SingleSlotMeal | app/src/main/java/com/csugprojects/recipeapp/data/model/MealDto.kt:124-130 | a meal with only slot 1 filled yields just that slot's trimmed pair |
| MealDtos.SugarMealMapping | app/src/main/java/com/csugprojects/recipeapp/data/model/MealDto.kt:109-142 | the test DTO with slot 1 ("Sugar", "1 cup") maps to exactly the expected recipe |
| MealDtos.TrimOpt | app/src/main/java/com/csugprojects/recipeapp/data/model/MealDto.kt:125-126 | `?.trim()`: null stays null; a present string comes back trimmed, already a fixed point of trim, never longer |
| MealDtos.IsNullOrBlank | app/src/main/java/com/csugprojects/recipeapp/data/model/MealDto.kt:127 | `isNullOrBlank()` holds exactly for null or a string whose trim is empty |
| Dao.Insert | app/src/main/java/com/csugprojects/recipeapp/data/local/RecipeDao.kt:20-21 | REPLACE: the row for the id becomes the entity, other rows unchanged, count +1 iff the id was new |
| Dao.Delete | app/src/main/java/com/csugprojects/recipeapp/data/local/RecipeDao.kt:26-27 | only the row with that id goes; other rows unchanged; an absent id leaves the table unchanged |
| Dao.InsertIdempotent | app/src/main/java/com/csugprojects/recipeapp/data/local/RecipeDao.kt:20-21 | inserting the same entity twice equals inserting it once |
| Dao.DeleteAfterInsert | app/src/main/java/com/csugprojects/recipeapp/data/local/RecipeDao.kt:20-27 | deleting a freshly inserted new id restores the table |
| Dao.UniqueKeysCount | app/src/main/java/com/csugprojects/recipeapp/data/local/RecipeDao.kt:33-34 | a key-unique row list has as many rows as keys |
| Dao.RecipeDao.constructor | app/src/main/java/com/csugprojects/recipeapp/data/local/RecipeDao.kt:13-14 | a fresh table is empty |
| Dao.RecipeDao.InsertRecipe | app/src/main/java/com/csugprojects/recipeapp/data/local/RecipeDao.kt:20-21 | rows become Insert(old rows, recipe); rows stay keyed by id |
| Dao.RecipeDao.DeleteRecipeById | app/src/main/java/com/csugprojects/recipeapp/data/local/RecipeDao.kt:26-27 | rows become Delete(old rows, id) |
| Dao.RecipeDao.IsFavorite | app/src/main/java/com/csugprojects/recipeapp/data/local/RecipeDao.kt:40-41 | true iff a row with that id exists |
| Dao.RecipeDao.GetAllFavoriteRecipes | app/src/main/java/com/csugprojects/recipeapp/data/local/RecipeDao.kt:33-34 | every row exactly once (count, keys, contents), order unspecified |
| Repository.MapMeals | app/src/main/java/com/csugprojects/recipeapp/data/repository/RecipeRepositoryImpl.kt:41 | same length and order, each meal mapped by toRecipe |
| Repository.SearchRecipes | app/src/main/java/com/csugprojects/recipeapp/data/repository/RecipeRepositoryImpl.kt:33-52 | success iff the body has meals, with all of them mapped; null/empty gives "No recipes found for '<query>'"; an IOException gives "Network error: <message>", any other exception "Failed to fetch recipes: <message>" |
| Repository.GetRecipeDetails | app/src/main/java/com/csugprojects/recipeapp/data/repository/RecipeRepositoryImpl.kt:57-73 | the first meal mapped, "Recipe not found for ID: <id>" when none, and the call's own IOException and other-exception messages |
| Repository.GetRandomRecipe | app/src/main/java/com/csugprojects/recipeapp/data/repository/RecipeRepositoryImpl.kt:108-124 | the first meal mapped, "No random recipe found." when none, and the call's own IOException and other-exception messages |
| Repository.GetCategories | app/src/main/java/com/csugprojects/recipeapp/data/repository/RecipeRepositoryImpl.kt:129-141 | success iff the call returned, with every category mapped in order; the call's own IOException and other-exception messages |
| Repository.NamesWith | app/src/main/java/com/csugprojects/recipeapp/data/repository/RecipeRepositoryImpl.kt:150-152 | the filter-then-map of a lookup list; never longer than the response |
| Repository.NamesWithProperties | app/src/main/java/com/csugprojects/recipeapp/data/repository/RecipeRepositoryImpl.kt:150-152 | the list keeps exactly the entries whose field is non-null and non-blank, each mapped with the tag |
| Repository.NamesWithAppend | app/src/main/java/com/csugprojects/recipeapp/data/repository/RecipeRepositoryImpl.kt:150-152 | the filter-then-map distributes over concatenation, so the names keep the response order |
| Repository.ListIngredients | app/src/main/java/com/csugprojects/recipeapp/data/repository/RecipeRepositoryImpl.kt:146-160 | the ingredient-field filter tagged "Ingredient"; a null list is an empty success; the call's own IOException and other-exception messages |
| Repository.ListAreas | app/src/main/java/com/csugprojects/recipeapp/data/repository/RecipeRepositoryImpl.kt:165-179 | the area-field filter tagged "Area"; a null list is an empty success; the call's own IOException and other-exception messages |
| Repository.IngredientNamesNonBlank | app/src/main/java/com/csugprojects/recipeapp/data/repository/RecipeRepositoryImpl.kt:150-152 | every listed ingredient is tagged "Ingredient" and has a non-blank name |
| Repository.AreaNamedByIngredientField | app/src/main/java/com/csugprojects/recipeapp/data/repository/RecipeRepositoryImpl.kt:169-171 | an area entry is kept by strArea but named by strIngredient first |
| Repository.FilterMeals | app/src/main/java/com/csugprojects/recipeapp/data/repository/RecipeRepositoryImpl.kt:185-202 | success iff meals present, all mapped; "No recipes found for this filter." when none; the call's own IOException and other-exception messages |
| Repository.Respond | app/src/main/java/com/csugprojects/recipeapp/data/repository/RecipeRepositoryImpl.kt:204-214 | the three filters all give filterMeals' result; a success is never empty |
| Repository.FavoriteRecipes | app/src/main/java/com/csugprojects/recipeapp/data/repository/RecipeRepositoryImpl.kt:79-83 | one entry per entity, in order, each toRecipe() flagged favorite and converting back to its entity |
| Repository.FavoriteRecipesOfTestRow | app/src/main/java/com/csugprojects/recipeapp/data/repository/RecipeRepositoryImpl.kt:80-82 | a stored test recipe reads back as itself flagged favorite |
| Repository.RepositoryTestCases | app/src/main/java/com/csugprojects/recipeapp/data/repository/RecipeRepositoryImpl.kt:36-65 | the test responses give the expected successes and not-found messages |
| Repository.RecipeRepositoryImpl.AddFavorite | app/src/main/java/com/csugprojects/recipeapp/data/repository/RecipeRepositoryImpl.kt:88-92 | the table becomes Insert(old, recipe.toRecipeEntity()) |
| Repository.RecipeRepositoryImpl.RemoveFavorite | app/src/main/java/com/csugprojects/recipeapp/data/repository/RecipeRepositoryImpl.kt:97-101 | the table becomes Delete(old, id) |
| Repository.RecipeRepositoryImpl.GetFavoriteRecipes | app/src/main/java/com/csugprojects/recipeapp/data/repository/RecipeRepositoryImpl.kt:79-83 | one emission: one favorite-flagged recipe per stored row, ids distinct and equal to the table's keys |
| Repository.RecipeRepositoryImpl.constructor | app/src/main/java/com/csugprojects/recipeapp/data/repository/RecipeRepositoryImpl.kt:24-27 | the repository is built over the given DAO |
| GlobalOps.RemoveId | app/src/main/java/com/csugprojects/recipeapp/ui/viewmodel/GlobalRecipeOperationsViewModel.kt:58 | `filter { it.id != id }`; never longer than the input |
| GlobalOps.RemoveIdMembers | app/src/main/java/com/csugprojects/recipeapp/ui/viewmodel/GlobalRecipeOperationsViewModel.kt:58 | the filter keeps exactly the entries with another id |
| GlobalOps.RemoveIdAppend | app/src/main/java/com/csugprojects/recipeapp/ui/viewmodel/GlobalRecipeOperationsViewModel.kt:58 | the filter distributes over concatenation, so kept entries keep their relative order |
| GlobalOps.RemoveIdAbsent | app/src/main/java/com/csugprojects/recipeapp/ui/viewmodel/GlobalRecipeOperationsViewModel.kt:58 | filtering out an id nobody has changes nothing |
| GlobalOps.RemoveIdUnique | app/src/main/java/com/csugprojects/recipeapp/ui/viewmodel/GlobalRecipeOperationsViewModel.kt:58 | filtering keeps ids distinct |
| GlobalOps.Take | app/src/main/java/com/csugprojects/recipeapp/ui/viewmodel/GlobalRecipeOperationsViewModel.kt:60 | the prefix of length min(n, size) |
| GlobalOps.RecentlyViewedAfter | app/src/main/java/com/csugprojects/recipeapp/ui/viewmodel/GlobalRecipeOperationsViewModel.kt:58-60 | the new recently-viewed list: between 1 and 5 entries, the viewed recipe first |
| GlobalOps.RecentlyViewedProperties | app/src/main/java/com/csugprojects/recipeapp/ui/viewmodel/GlobalRecipeOperationsViewModel.kt:55-61 | head is the recipe, at most 5 entries, no later entry has its id, tail is the old list without that id truncated to 4, nothing new enters, distinct ids stay distinct |
| GlobalOps.RecentlyViewedIdempotent | app/src/main/java/com/csugprojects/recipeapp/ui/viewmodel/GlobalRecipeOperationsViewModel.kt:55-61 | viewing the same recipe twice equals viewing it once |
| GlobalOps.GlobalRecipeOperationsViewModel.constructor | app/src/main/java/com/csugprojects/recipeapp/ui/viewmodel/GlobalRecipeOperationsViewModel.kt:16-21 | both lists start empty |
| GlobalOps.GlobalRecipeOperationsViewModel.CollectFavorites | app/src/main/java/com/csugprojects/recipeapp/ui/viewmodel/GlobalRecipeOperationsViewModel.kt:23-29 | one favorite per stored row, flagged favorite and converting back to exactly that row; ids distinct and equal to the table keys |
| GlobalOps.GlobalRecipeOperationsViewModel.FetchRandomRecipe | app/src/main/java/com/csugprojects/recipeapp/ui/viewmodel/GlobalRecipeOperationsViewModel.kt:33-39 | onResult gets Loading, then the repository's random-recipe result |
| GlobalOps.GlobalRecipeOperationsViewModel.AddFavorite | app/src/main/java/com/csugprojects/recipeapp/ui/viewmodel/GlobalRecipeOperationsViewModel.kt:42-46 | forwards unchanged: the table becomes Insert(old, recipe.toRecipeEntity()) |
| GlobalOps.GlobalRecipeOperationsViewModel.RemoveFavorite | app/src/main/java/com/csugprojects/recipeapp/ui/viewmodel/GlobalRecipeOperationsViewModel.kt:48-52 | forwards unchanged: the table becomes Delete(old, id) |
| GlobalOps.GlobalRecipeOperationsViewModel.AddRecentlyViewedRecipe | app/src/main/java/com/csugprojects/recipeapp/ui/viewmodel/GlobalRecipeOperationsViewModel.kt:55-61 | the list becomes RecentlyViewedAfter(old, recipe) and keeps at most 5 distinct ids |
| RecipeList.DedupById | app/src/main/java/com/csugprojects/recipeapp/ui/viewmodel/RecipeListViewModel.kt:79-98 | the reference merge; never longer than its input |
| RecipeList.DedupPositions | app/src/main/java/com/csugprojects/recipeapp/ui/viewmodel/RecipeListViewModel.kt:79-98 | entry k of the merge is the input at an increasing position ks[k] |
| RecipeList.DedupFirstOccurrences | app/src/main/java/com/csugprojects/recipeapp/ui/viewmodel/RecipeListViewModel.kt:84-95 | a position is kept iff no earlier entry has its id |
| RecipeList.DedupByIndex | app/src/main/java/com/csugprojects/recipeapp/ui/viewmodel/RecipeListViewModel.kt:79-98 | the merge keeps exactly the first occurrence of every id, in input order |
| RecipeList.DedupIds | app/src/main/java/com/csugprojects/recipeapp/ui/viewmodel/RecipeListViewModel.kt:79-98 | the merge has distinct ids and the same id set as its input |
| RecipeList.AddUnseen | app/src/main/java/com/csugprojects/recipeapp/ui/viewmodel/RecipeListViewModel.kt:84-88 | one forEach pass with seenIds.add extends the merge and the seen set by the batch |
| RecipeList.MergeById | app/src/main/java/com/csugprojects/recipeapp/ui/viewmodel/RecipeListViewModel.kt:79-98 | the combined list is the first-occurrence merge of the name results followed by the ingredient results |
| RecipeList.SearchOutcome | app/src/main/java/com/csugprojects/recipeapp/ui/viewmodel/RecipeListViewModel.kt:101-106 | the final result of the dual search: never Loading, and a success is never empty |
| RecipeList.DualSearchOutcome | app/src/main/java/com/csugprojects/recipeapp/ui/viewmodel/RecipeListViewModel.kt:101-106 | success iff either answer is a non-empty success, with the union of their ids, each once; otherwise the name error, then the ingredient error, then "No recipes found for '<query>'" |
| RecipeList.DedupRepeatedSecond | app/src/main/java/com/csugprojects/recipeapp/ui/viewmodel/RecipeListViewModel.kt:84-95 | an entry whose id was already seen is skipped, the others are kept in order |
| RecipeList.DualSearchTestMerge | app/src/main/java/com/csugprojects/recipeapp/ui/viewmodel/RecipeListViewModel.kt:79-98 | the duplicate "2" from the ingredient search is dropped from the merge |
| RecipeList.DualSearchTestCase | app/src/main/java/com/csugprojects/recipeapp/ui/viewmodel/RecipeListViewModel.kt:79-112 | name results [1,2] and ingredient results [2,3] show 1, 2, 3 in that order, with 2 and 3 flagged favorite |
| RecipeList.GroupOf | app/src/main/java/com/csugprojects/recipeapp/ui/viewmodel/RecipeListViewModel.kt:139-144 | "category", "area" and "ingredient" select their group; any other type selects none |
| RecipeList.RequestFor | app/src/main/java/com/csugprojects/recipeapp/ui/viewmodel/RecipeListViewModel.kt:159-164 | the chip's request: never the ingredient filter; the name search exactly for the ingredient chip |
| RecipeList.ChipClicked | app/src/main/java/com/csugprojects/recipeapp/ui/viewmodel/RecipeListViewModel.kt:147-153 | the selections after a click: at most one chip selected |
| RecipeList.ChipClickedProperties | app/src/main/java/com/csugprojects/recipeapp/ui/viewmodel/RecipeListViewModel.kt:147-153 | after a click at most one chip is selected; the clicked chip is selected iff it was not before; other groups are cleared |
| RecipeList.ChipClickedTwice | app/src/main/java/com/csugprojects/recipeapp/ui/viewmodel/RecipeListViewModel.kt:147-153 | clicking an unselected chip twice clears every selection |
| RecipeList.ChipClickedOtherGroup | app/src/main/java/com/csugprojects/recipeapp/ui/viewmodel/RecipeListViewModel.kt:147-153 | a click in another group replaces the earlier selection |
| RecipeList.RecipeListViewModel.constructor | app/src/main/java/com/csugprojects/recipeapp/ui/viewmodel/RecipeListViewModel.kt:19-51 | initial state, with categories and areas fetched by init |
| RecipeList.RecipeListViewModel.FetchCategories | app/src/main/java/com/csugprojects/recipeapp/ui/viewmodel/RecipeListViewModel.kt:187-192 | categories become the repository's answer; nothing else changes |
| RecipeList.RecipeListViewModel.FetchAreas | app/src/main/java/com/csugprojects/recipeapp/ui/viewmodel/RecipeListViewModel.kt:194-199 | areas become the repository's answer; nothing else changes |
| RecipeList.RecipeListViewModel.OnSearchQueryChanged | app/src/main/java/com/csugprojects/recipeapp/ui/viewmodel/RecipeListViewModel.kt:55-57 | only the query changes |
| RecipeList.RecipeListViewModel.ClearAllFilters | app/src/main/java/com/csugprojects/recipeapp/ui/viewmodel/RecipeListViewModel.kt:125-129 | all three selections become null; nothing else changes |
| RecipeList.RecipeListViewModel.ShowResult | app/src/main/java/com/csugprojects/recipeapp/ui/viewmodel/RecipeListViewModel.kt:166-177 | success shows the flagged list, error empties it and sets the message, Loading changes nothing |
| RecipeList.RecipeListViewModel.SearchRecipes | app/src/main/java/com/csugprojects/recipeapp/ui/viewmodel/RecipeListViewModel.kt:62-123 | a blank query changes nothing; otherwise the selections are cleared, both searches are issued, the outcome is shown, loading ends false |
| RecipeList.RecipeListViewModel.FilterAndDisplayRecipes | app/src/main/java/com/csugprojects/recipeapp/ui/viewmodel/RecipeListViewModel.kt:134-185 | unknown type: loading true, error null, selections untouched; otherwise ChipClicked on the selections, the chip's request result shown, or an empty list when toggled off; the ingredient chip issues the name search |
| RecipeViewModelMain.FilterRequest | app/src/main/java/com/csugprojects/recipeapp/ui/viewmodel/RecipeViewModel.kt:145-150 | "category", "area" and "ingredient" dispatch to their filters; anything else runs the name search |
| RecipeViewModelMain.RecipeViewModel.constructor | app/src/main/java/com/csugprojects/recipeapp/ui/viewmodel/RecipeViewModel.kt:18-55 | initial state, with categories and areas fetched by init |
| RecipeViewModelMain.RecipeViewModel.CollectFavorites | app/src/main/java/com/csugprojects/recipeapp/ui/viewmodel/RecipeViewModel.kt:46-51 | one favorite per stored row, flagged favorite and converting back to exactly that row; ids distinct and equal to the table keys |
| RecipeViewModelMain.RecipeViewModel.OnSearchQueryChanged | app/src/main/java/com/csugprojects/recipeapp/ui/viewmodel/RecipeViewModel.kt:58-60 | only the query changes |
| RecipeViewModelMain.RecipeViewModel.ShowResult | app/src/main/java/com/csugprojects/recipeapp/ui/viewmodel/RecipeViewModel.kt:68-80 | success shows the list flagged by the ids of favoriteRecipes; error empties it and sets the message |
| RecipeViewModelMain.RecipeViewModel.SearchRecipes | app/src/main/java/com/csugprojects/recipeapp/ui/viewmodel/RecipeViewModel.kt:62-83 | a blank query changes nothing; otherwise error reset, the name search's result shown, loading ends false |
| RecipeViewModelMain.RecipeViewModel.FilterAndDisplayRecipes | app/src/main/java/com/csugprojects/recipeapp/ui/viewmodel/RecipeViewModel.kt:141-167 | the dispatched request's result is shown as in the search |
| RecipeViewModelMain.RecipeViewModel.AddFavorite | app/src/main/java/com/csugprojects/recipeapp/ui/viewmodel/RecipeViewModel.kt:85-89 | forwards unchanged to the repository |
| RecipeViewModelMain.RecipeViewModel.RemoveFavorite | app/src/main/java/com/csugprojects/recipeapp/ui/viewmodel/RecipeViewModel.kt:91-95 | forwards unchanged to the repository |
| RecipeViewModelMain.RecipeViewModel.AddRecentlyViewedRecipe | app/src/main/java/com/csugprojects/recipeapp/ui/viewmodel/RecipeViewModel.kt:111-118 | the list becomes RecentlyViewedAfter(old, recipe) |
| RecipeViewModelMain.RecipeViewModel.GetRecipeDetails | app/src/main/java/com/csugprojects/recipeapp/ui/viewmodel/RecipeViewModel.kt:97-108 | onResult gets Loading then the repository's result; only a success is added to recently viewed |
| RecipeViewModelMain.RecipeViewModel.FetchCategories | app/src/main/java/com/csugprojects/recipeapp/ui/viewmodel/RecipeViewModel.kt:123-128 | categories become the repository's answer |
| RecipeViewModelMain.RecipeViewModel.FetchAreas | app/src/main/java/com/csugprojects/recipeapp/ui/viewmodel/RecipeViewModel.kt:130-135 | areas become the repository's answer |
| RecipeViewModelMain.RecipeViewModel.FetchRandomRecipe | app/src/main/java/com/csugprojects/recipeapp/ui/viewmodel/RecipeViewModel.kt:169-175 | onResult gets Loading, then the repository's random-recipe result |
| RecipeViewModelLegacy.RecipeViewModel.constructor | app/src/main/java/com/csugprojects/recipeapp/ui/RecipeViewModel.kt:16-29 | initial state |
| RecipeViewModelLegacy.RecipeViewModel.CollectFavorites | app/src/main/java/com/csugprojects/recipeapp/ui/RecipeViewModel.kt:31-37 | one favorite per stored row, flagged favorite and converting back to exactly that row; ids distinct and equal to the table keys |
| RecipeViewModelLegacy.RecipeViewModel.OnSearchQueryChanged | app/src/main/java/com/csugprojects/recipeapp/ui/RecipeViewModel.kt:39-41 | only the query changes |
| RecipeViewModelLegacy.RecipeViewModel.SearchRecipes | app/src/main/java/com/csugprojects/recipeapp/ui/RecipeViewModel.kt:43-63 | a blank query changes nothing; otherwise error reset to null, success shows the flagged list, error empties it and sets the message, loading ends false |
| RecipeViewModelLegacy.RecipeViewModel.AddFavorite | app/src/main/java/com/csugprojects/recipeapp/ui/RecipeViewModel.kt:65-69 | forwards unchanged to the repository |
| RecipeViewModelLegacy.RecipeViewModel.RemoveFavorite | app/src/main/java/com/csugprojects/recipeapp/ui/RecipeViewModel.kt:71-75 | forwards unchanged to the repository |
| RecipeViewModelLegacy.RecipeViewModel.GetRecipeDetails | app/src/main/java/com/csugprojects/recipeapp/ui/RecipeViewModel.kt:77-83 | onResult gets Loading, then exactly the repository's result |
| RecipeDetail.InstructionSteps | app/src/main/java/com/csugprojects/recipeapp/ui/detail/RecipeDetailScreen.kt:309-313 | null instructions give the default line; otherwise every step is non-blank and holds no '.' |
| RecipeDetail.TrimmedNonBlankAppend | app/src/main/java/com/csugprojects/recipeapp/ui/detail/RecipeDetailScreen.kt:311-312 | the map/filter works piece by piece, so steps keep the order of the pieces |
| RecipeDetail.TrimmedNonBlankSpec | app/src/main/java/com/csugprojects/recipeapp/ui/detail/RecipeDetailScreen.kt:311-312 | the steps are exactly the non-blank trimmed pieces, each trimmed and non-blank |
| RecipeDetail.TrimmedNonBlank | app/src/main/java/com/csugprojects/recipeapp/ui/detail/RecipeDetailScreen.kt:311-312 | `map { trim }` then `filter { isNotBlank }`: no more steps than pieces, and no step is blank |
| RecipeDetail.InstructionStepsTrimmed | app/src/main/java/com/csugprojects/recipeapp/ui/detail/RecipeDetailScreen.kt:309-312 | every step is non-blank, already trimmed and free of '.' |
| RecipeDetail.InstructionStepsPieces | app/src/main/java/com/csugprojects/recipeapp/ui/detail/RecipeDetailScreen.kt:309-312 | a string is a step iff it is the non-blank trim of a segment between dots |
| RecipeDetail.InstructionStepsEdgeCases | app/src/main/java/com/csugprojects/recipeapp/ui/detail/RecipeDetailScreen.kt:309-313 | null gives ["No instructions available."]; "" and "..." give no steps |
| RecipeDetail.TestRecipePieces | app/src/main/java/com/csugprojects/recipeapp/ui/detail/RecipeDetailScreen.kt:310 | "Step 1. Step 2." splits into "Step 1", " Step 2" and "" |
| RecipeDetail.TestRecipeTrims | app/src/main/java/com/csugprojects/recipeapp/ui/detail/RecipeDetailScreen.kt:311 | those pieces trim to "Step 1" and "Step 2" |
| RecipeDetail.TrimmedNonBlankTwoOfThree | app/src/main/java/com/csugprojects/recipeapp/ui/detail/RecipeDetailScreen.kt:311-312 | a blank last piece is dropped and the other two kept trimmed |
| RecipeDetail.TestRecipeSteps | app/src/main/java/com/csugprojects/recipeapp/ui/detail/RecipeDetailScreen.kt:309-313 | "Step 1. Step 2." reads as ["Step 1", "Step 2"] |
| RecipeDetail.IsFavoriteIn | app/src/main/java/com/csugprojects/recipeapp/ui/detail/RecipeDetailScreen.kt:71-73 | `any { it.id == recipeId }`: true iff some favorite has that id |
| RecipeDetail.IsFavoriteInIds | app/src/main/java/com/csugprojects/recipeapp/ui/detail/RecipeDetailScreen.kt:71-73 | the any-scan is true iff the id is among the favorites' ids |
| RecipeDetail.OnFavoriteClick | app/src/main/java/com/csugprojects/recipeapp/ui/detail/RecipeDetailScreen.kt:114-119 | the status comes from the route `recipeId` (`isFavorite`, lines 71-73): a favorite is removed by the recipe's id, otherwise the recipe is added; when the loaded recipe carries the route id and the favorites are in sync with the table, the click flips membership |
| RecipeDetail.IngredientLine | app/src/main/java/com/csugprojects/recipeapp/ui/detail/RecipeDetailScreen.kt:291 | the measure, one space, then the name |

## Left out

- Networking: the Retrofit calls of `RecipeApiService` are inputs (`ApiOutcome` values, or the `RecipeSource` function in the view models).
- Coroutines and dispatch: `viewModelScope.launch`, `async`/`await` and `withContext` are read as sequential code run to completion. The two searches of the dual search are awaited in the order name, then ingredient.
- Flows: each `Flow` collection is modelled as one emission (`CollectFavorites`, `GetFavoriteRecipes`, and `Dao.RecipeDao.IsFavorite`, whose `Flow<Boolean>` is read once). Collection never ends in Kotlin; the model does not capture later emissions.
- The Gson `Converters` for the ingredient list, and the Room annotations and database wiring: the table stores the ingredient list directly.
- Dependency injection, activities, navigation, theme and all Compose rendering. From the detail screen only the pure helpers are modelled. `RecipeDetailViewModel` only stores the repository result and is not part of this model.
- The assertion that `searchQuery` is empty after filtering: `filterAndDisplayRecipes` never writes the query. Accordingly the model's `FilterAndDisplayRecipes` states that the query is unchanged.
- Exception messages are plain strings. A null `e.message`, which Kotlin renders as "null" inside the templates, is not distinguished.
- Strings: `Strings.IsWhitespace` lists the code points Kotlin/JVM `isWhitespace` accepts. It works on Dafny characters rather than UTF-16 units. There is no case folding and no normalisation.
- Row order: `Dao.RecipeDao.GetAllFavoriteRecipes` picks rows in an unspecified order, like a SELECT without ORDER BY. No ordering claim is made about it.
- Gson may put null into fields Kotlin declares non-null (`idMeal`, `strMeal`, `idCategory`, `strCategory`, and the `categories` list of `CategoryListDto`); the model assumes they are present. A null `categories` list makes `getCategories` throw inside its `try` and report "Failed to fetch categories: ..."; in the model that case is only reachable as an `OtherFail` input to `Repository.GetCategories`.
- Callbacks (`onResult`) are modelled by returning the sequence of values they receive.
