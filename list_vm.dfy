/**
 * ui/viewmodel/RecipeListViewModel.kt: the search screen's state, the dual
 * search that merges name and ingredient results, and the single-selection
 * filter chips.
 */
module RecipeList {
  import opened Wrappers
  import opened Strings
  import opened Results
  import opened Recipes
  import opened Lookups
  import Repository

  /** The list carried by a Success, nothing otherwise. */
  function SuccessItems(r: Result<seq<Recipe>>): (items: seq<Recipe>) {
    if r.Success? then r.data else []
  }

  /**
   * The merge of the dual search: the entries in order, each kept only when
   * no earlier entry had its id.
   */
  function DedupById(xs: seq<Recipe>): (r: seq<Recipe>)
    ensures |r| <= |xs|
    decreases |xs|
  {
    if xs == [] then []
    else
      var init := xs[..|xs| - 1];
      var last := xs[|xs| - 1];
      DedupById(init) + (if last.id in Ids(init) then [] else [last])
  }

  /** The positions DedupById keeps, computed the same way. */
  function DedupIndices(xs: seq<Recipe>): seq<nat>
    decreases |xs|
  {
    if xs == [] then []
    else
      var init := xs[..|xs| - 1];
      DedupIndices(init) + (if xs[|xs| - 1].id in Ids(init) then [] else [|xs| - 1])
  }

  /** Position `i` holds the first entry with its id. */
  predicate IsFirstOccurrence(xs: seq<Recipe>, i: int) {
    0 <= i < |xs| && forall j :: 0 <= j < i ==> xs[j].id != xs[i].id
  }

  lemma NotFirstInPrefix(xs: seq<Recipe>, i: int)
    requires 0 <= i < |xs|
    ensures IsFirstOccurrence(xs, i) <==> xs[i].id !in Ids(xs[..i])
  {
    if !IsFirstOccurrence(xs, i) {
      var j :| 0 <= j < i && xs[j].id == xs[i].id;
      assert xs[..i][j].id == xs[i].id;
    }
  }

  /** Entry k of the merge is the input at position ks[k], and the positions increase. */
  lemma {:induction false} DedupPositions(xs: seq<Recipe>)
    ensures var r, ks := DedupById(xs), DedupIndices(xs);
      && |r| == |ks|
      && (forall k :: 0 <= k < |ks| ==> ks[k] < |xs| && r[k] == xs[ks[k]])
      && (forall k, l :: 0 <= k < l < |ks| ==> ks[k] < ks[l])
    decreases |xs|
  {
    if xs != [] {
      var n := |xs| - 1;
      var init := xs[..n];
      DedupPositions(init);
      var r0, ks0 := DedupById(init), DedupIndices(init);
      var keep := xs[n].id !in Ids(init);
      assert DedupById(xs) == r0 + (if keep then [xs[n]] else []);
      assert DedupIndices(xs) == ks0 + (if keep then [n] else []);
      assert forall k :: 0 <= k < |ks0| ==> init[ks0[k]] == xs[ks0[k]];
    }
  }

  /** A position is kept by the merge iff it holds the first entry with its id. */
  lemma {:induction false} DedupFirstOccurrences(xs: seq<Recipe>)
    ensures forall i :: 0 <= i < |xs| ==> (i in DedupIndices(xs) <==> IsFirstOccurrence(xs, i))
    decreases |xs|
  {
    if xs != [] {
      var n := |xs| - 1;
      var init := xs[..n];
      DedupFirstOccurrences(init);
      DedupPositions(init);
      NotFirstInPrefix(xs, n);
      var ks0 := DedupIndices(init);
      var keep := xs[n].id !in Ids(init);
      assert DedupIndices(xs) == ks0 + (if keep then [n] else []);
      assert n !in ks0;
      forall i | 0 <= i < n ensures IsFirstOccurrence(xs, i) <==> IsFirstOccurrence(init, i) {
        assert forall j :: 0 <= j <= i ==> xs[j] == init[j];
      }
    }
  }

  /**
   * The merge keeps exactly the first occurrence of every id, in input order:
   * entry k is the input at position ks[k], the positions increase, and a
   * position is kept iff it is the first with its id.
   */
  lemma DedupByIndex(xs: seq<Recipe>)
    ensures var r, ks := DedupById(xs), DedupIndices(xs);
      && |r| == |ks|
      && (forall k :: 0 <= k < |ks| ==> ks[k] < |xs| && r[k] == xs[ks[k]])
      && (forall k, l :: 0 <= k < l < |ks| ==> ks[k] < ks[l])
      && (forall i :: 0 <= i < |xs| ==> (i in ks <==> IsFirstOccurrence(xs, i)))
  {
    DedupPositions(xs);
    DedupFirstOccurrences(xs);
  }

  /** The merge has distinct ids and the same id set as its input. */
  lemma {:induction false} DedupIds(xs: seq<Recipe>)
    ensures UniqueIds(DedupById(xs))
    ensures Ids(DedupById(xs)) == Ids(xs)
    decreases |xs|
  {
    if xs != [] {
      var n := |xs| - 1;
      var init := xs[..n];
      DedupIds(init);
      assert xs == init + [xs[n]];
      IdsAppend(init, [xs[n]]);
      assert Ids([xs[n]]) == {xs[n].id};
      var d := DedupById(init);
      if xs[n].id !in Ids(init) {
        var r := d + [xs[n]];
        assert DedupById(xs) == r;
        IdsAppend(d, [xs[n]]);
        forall i, j | 0 <= i < j < |r| ensures r[i].id != r[j].id {
          if j == |d| {
            assert r[i] == d[i];
            assert d[i].id in Ids(d);
          } else {
            assert r[i] == d[i] && r[j] == d[j];
          }
        }
      } else {
        assert DedupById(xs) == d;
      }
    }
  }

  /** Appending one entry to the input appends it to the merge iff its id is new. */
  lemma DedupSnoc(xs: seq<Recipe>, x: Recipe)
    ensures DedupById(xs + [x]) == DedupById(xs) + (if x.id in Ids(xs) then [] else [x])
  {
    assert (xs + [x])[..|xs|] == xs;
  }

  /** Appending one entry adds its id to the ids. */
  lemma IdsSnoc(xs: seq<Recipe>, x: Recipe)
    ensures Ids(xs + [x]) == Ids(xs) + {x.id}
  {
    IdsAppend(xs, [x]);
    assert [x][0] == x;
    assert forall i :: 0 <= i < |[x]| ==> [x][i] == x;
  }

  /**
   * One `forEach { if (seenIds.add(it.id)) combined.add(it) }` pass: given the
   * merge of a prefix and its ids, the merge and ids of prefix + batch.
   */
  /** One step of the merge loop: the next batch entry is one entry appended to the input. */
  lemma AddUnseenStep(prefix: seq<Recipe>, batch: seq<Recipe>, i: nat)
    requires i < |batch|
    ensures DedupById(prefix + batch[..i + 1])
      == DedupById(prefix + batch[..i]) + (if batch[i].id in Ids(prefix + batch[..i]) then [] else [batch[i]])
    ensures Ids(prefix + batch[..i + 1]) == Ids(prefix + batch[..i]) + {batch[i].id}
  {
    var before := prefix + batch[..i];
    assert prefix + batch[..i + 1] == before + [batch[i]] by {
      assert batch[..i + 1] == batch[..i] + [batch[i]];
    }
    DedupSnoc(before, batch[i]);
    IdsSnoc(before, batch[i]);
  }

  method AddUnseen(ghost prefix: seq<Recipe>, combined: seq<Recipe>, seenIds: set<string>, batch: seq<Recipe>)
    returns (combined': seq<Recipe>, seenIds': set<string>)
    requires combined == DedupById(prefix) && seenIds == Ids(prefix)
    ensures combined' == DedupById(prefix + batch) && seenIds' == Ids(prefix + batch)
  {
    combined', seenIds' := combined, seenIds;
    assert prefix + batch[..0] == prefix;
    for i := 0 to |batch|
      invariant combined' == DedupById(prefix + batch[..i])
      invariant seenIds' == Ids(prefix + batch[..i])
    {
      var recipe := batch[i];
      AddUnseenStep(prefix, batch, i);
      if recipe.id !in seenIds' {
        seenIds' := seenIds' + {recipe.id};
        combined' := combined' + [recipe];
      }
    }
    assert batch[..|batch|] == batch;
  }

  /** The merge loop of `searchRecipes`: name results first, then the unseen ingredient results. */
  method MergeById(nameResult: Result<seq<Recipe>>, ingredientResult: Result<seq<Recipe>>)
    returns (combined: seq<Recipe>)
    ensures combined == DedupById(SuccessItems(nameResult) + SuccessItems(ingredientResult))
  {
    var seenIds: set<string> := {};
    combined := [];
    if nameResult.Success? {
      combined, seenIds := AddUnseen([], combined, seenIds, nameResult.data);
      assert [] + nameResult.data == nameResult.data;
    }
    if ingredientResult.Success? {
      combined, seenIds := AddUnseen(SuccessItems(nameResult), combined, seenIds, ingredientResult.data);
    } else {
      assert SuccessItems(nameResult) + [] == SuccessItems(nameResult);
    }
  }

  /** The `when` that picks the dual search's final result. */
  function SearchOutcome(query: string, nameResult: Result<seq<Recipe>>, ingredientResult: Result<seq<Recipe>>): (r: Result<seq<Recipe>>)
    ensures !r.Loading?
    ensures r.Success? ==> r.data != []
  {
    var combined := DedupById(SuccessItems(nameResult) + SuccessItems(ingredientResult));
    if combined != [] then Success(combined)
    else if nameResult.Error? then nameResult
    else if ingredientResult.Error? then ingredientResult
    else Error(Repository.NoRecipesFound(query))
  }

  /**
   * The dual search succeeds iff one of the two answers is a non-empty
   * success, and then shows each id of either once; otherwise the name
   * search's error wins over the ingredient search's, and the not-found
   * message comes last.
   */
  lemma DualSearchOutcome(query: string, nameResult: Result<seq<Recipe>>, ingredientResult: Result<seq<Recipe>>)
    ensures var out := SearchOutcome(query, nameResult, ingredientResult);
      && !out.Loading?
      && (out.Success? <==> (nameResult.Success? && nameResult.data != []) || (ingredientResult.Success? && ingredientResult.data != []))
      && (out.Success? ==> UniqueIds(out.data) && Ids(out.data) == Ids(SuccessItems(nameResult)) + Ids(SuccessItems(ingredientResult)))
      && (!out.Success? && nameResult.Error? ==> out == nameResult)
      && (!out.Success? && !nameResult.Error? && ingredientResult.Error? ==> out == ingredientResult)
      && (!out.Success? && !nameResult.Error? && !ingredientResult.Error? ==> out == Error(Repository.NoRecipesFound(query)))
  {
    var all := SuccessItems(nameResult) + SuccessItems(ingredientResult);
    DedupIds(all);
    IdsAppend(SuccessItems(nameResult), SuccessItems(ingredientResult));
    var combined := DedupById(all);
    if all != [] {
      assert all[0].id in Ids(all);
      assert combined != [];
    }
  }

  /** Four entries of which the third repeats the second's id merge to the other three. */
  /** The first three entries of the repeated-second case: the repeat is dropped. */
  lemma DedupFirstThree(a: Recipe, b: Recipe, b': Recipe)
    requires a.id != b.id && b'.id == b.id
    ensures DedupById([a, b, b']) == [a, b] && Ids([a, b, b']) == {a.id, b.id}
  {
    var s0: seq<Recipe> := [];
    assert Ids(s0) == {};
    assert [a] == s0 + [a] && [a, b] == [a] + [b] && [a, b, b'] == [a, b] + [b'];
    assert DedupById([a]) == [a] && Ids([a]) == {a.id} by { DedupSnoc(s0, a); IdsSnoc(s0, a); }
    assert DedupById([a, b]) == [a, b] && Ids([a, b]) == {a.id, b.id} by { DedupSnoc([a], b); IdsSnoc([a], b); }
    DedupSnoc([a, b], b');
    IdsSnoc([a, b], b');
  }

  lemma DedupRepeatedSecond(a: Recipe, b: Recipe, b': Recipe, c: Recipe)
    requires a.id != b.id && a.id != c.id && b.id != c.id && b'.id == b.id
    ensures DedupById([a, b] + [b', c]) == [a, b, c]
  {
    DedupFirstThree(a, b, b');
    var s3 := [a, b, b'];
    assert DedupById(s3 + [c]) == [a, b, c] by { DedupSnoc(s3, c); }
    assert s3 + [c] == [a, b] + [b', c];
  }

  /** The merge of the dual-search test case: r2' is dropped, being the second entry with id "2". */
  lemma DualSearchTestMerge(r1: Recipe, r2: Recipe, r2': Recipe, r3: Recipe)
    requires r1.id == "1" && r2.id == "2" && r2'.id == "2" && r3.id == "3"
    ensures DedupById([r1, r2] + [r2', r3]) == [r1, r2, r3]
  {
    assert r1.id[0] == '1' && r2.id[0] == '2' && r3.id[0] == '3';
    DedupRepeatedSecond(r1, r2, r2', r3);
  }

  /**
   * The dual-search test case: name results [r1, r2] and ingredient results
   * [r2', r3], where r2' shares r2's id, show r1, r2, r3 in that order, with
   * only the ids "2" and "3" flagged favorite.
   */
  lemma DualSearchTestCase(r1: Recipe, r2: Recipe, r2': Recipe, r3: Recipe)
    requires r1.id == "1" && r2.id == "2" && r2'.id == "2" && r3.id == "3"
    ensures SearchOutcome("chicken", Success([r1, r2]), Success([r2', r3])) == Success([r1, r2, r3])
    ensures var shown := WithFavoriteFlags([r1, r2, r3], {"2", "3"});
      |shown| == 3 && !shown[0].isFavorite && shown[1].isFavorite && shown[2].isFavorite
  {
    DualSearchTestMerge(r1, r2, r2', r3);
    assert "1" != "2" && "1" != "3";
  }

  /** The three chip groups; `filterType` names one of them or none. */
  datatype FilterGroup = CategoryGroup | AreaGroup | IngredientGroup

  /** The `when (filterType)` that chooses the selection to toggle. */
  function GroupOf(filterType: string): (g: Option<FilterGroup>)
    ensures g == Some(CategoryGroup) <==> filterType == "category"
    ensures g == Some(AreaGroup) <==> filterType == "area"
    ensures g == Some(IngredientGroup) <==> filterType == "ingredient"
  {
    if filterType == "category" then Some(CategoryGroup)
    else if filterType == "area" then Some(AreaGroup)
    else if filterType == "ingredient" then Some(IngredientGroup)
    else None
  }

  /** The call a chip makes; the ingredient chip runs the name search. */
  function RequestFor(g: FilterGroup, query: string): (r: Repository.RecipeRequest)
    ensures !r.ByIngredient?
    ensures r.SearchByName? <==> g == IngredientGroup
  {
    match g
    case CategoryGroup => Repository.ByCategory(query)
    case AreaGroup => Repository.ByArea(query)
    case IngredientGroup => Repository.SearchByName(query)
  }

  /** The three `selected*` values. */
  datatype Selection = Selection(category: Option<string>, area: Option<string>, ingredient: Option<string>) {

    function Get(g: FilterGroup): Option<string> {
      match g
      case CategoryGroup => category
      case AreaGroup => area
      case IngredientGroup => ingredient
    }

    /** At most one chip is selected across the three groups. */
    predicate AtMostOne() {
      (category.Some? ==> area.None? && ingredient.None?) && (area.Some? ==> ingredient.None?)
    }
  }

  const NoSelection: Selection := Selection(None, None, None)

  /** Everything cleared, then group `g` set to `v`. */
  function Only(g: FilterGroup, v: Option<string>): (r: Selection) {
    match g
    case CategoryGroup => Selection(v, None, None)
    case AreaGroup => Selection(None, v, None)
    case IngredientGroup => Selection(None, None, v)
  }

  /** A click on chip `q` of group `g`: toggled off when it was the group's value, selected alone otherwise. */
  function ChipClicked(sel: Selection, g: FilterGroup, q: string): (r: Selection)
    ensures r.AtMostOne()
  {
    Only(g, if sel.Get(g) == Some(q) then None else Some(q))
  }

  /** After any click at most one chip is selected: the clicked one, unless it was already selected. */
  lemma ChipClickedProperties(sel: Selection, g: FilterGroup, q: string)
    ensures var r := ChipClicked(sel, g, q);
      && r.AtMostOne()
      && (r.Get(g) == Some(q) <==> sel.Get(g) != Some(q))
      && (r.Get(g) != Some(q) ==> r == NoSelection)
      && (forall h :: h != g ==> r.Get(h).None?)
  {
  }

  /** Clicking a chip that was not selected, then clicking it again, clears every selection. */
  lemma ChipClickedTwice(sel: Selection, g: FilterGroup, q: string)
    requires sel.Get(g) != Some(q)
    ensures ChipClicked(ChipClicked(sel, g, q), g, q) == NoSelection
  {
  }

  /** A click in another group replaces the earlier selection. */
  lemma ChipClickedOtherGroup(sel: Selection, g: FilterGroup, a: string, h: FilterGroup, b: string)
    requires g != h
    ensures ChipClicked(ChipClicked(sel, g, a), h, b) == Only(h, Some(b))
  {
  }

  /** RecipeListViewModel's state. */
  class RecipeListViewModel {
    var recipes: seq<Recipe>
    var searchQuery: string
    var isLoading: bool
    var errorMessage: Option<string>
    var categories: Result<seq<Category>>
    var areas: Result<seq<Name>>
    var selectedCategory: Option<string>
    var selectedArea: Option<string>
    var selectedIngredient: Option<string>

    function Selections(): Selection
      reads this
    {
      Selection(selectedCategory, selectedArea, selectedIngredient)
    }

    /** Single selection across the three chip groups. */
    ghost predicate Valid()
      reads this
    {
      Selections().AtMostOne()
    }

    /** The `init` block: both lookups fetched, everything else at its initial value. */
    constructor (categoriesResponse: Repository.ApiOutcome<CategoryListDto>, areasResponse: Repository.ApiOutcome<NameListDto>)
      ensures Valid() && Selections() == NoSelection
      ensures recipes == [] && searchQuery == "" && !isLoading && errorMessage == None
      ensures categories == Repository.GetCategories(categoriesResponse)
      ensures areas == Repository.ListAreas(areasResponse)
    {
      recipes := [];
      searchQuery := "";
      isLoading := false;
      errorMessage := None;
      categories := Repository.GetCategories(categoriesResponse);
      areas := Repository.ListAreas(areasResponse);
      selectedCategory, selectedArea, selectedIngredient := None, None, None;
    }

    /** `fetchCategories()`, after its Loading step. */
    method FetchCategories(response: Repository.ApiOutcome<CategoryListDto>)
      modifies this
      ensures categories == Repository.GetCategories(response)
      ensures recipes == old(recipes) && searchQuery == old(searchQuery) && isLoading == old(isLoading)
      ensures errorMessage == old(errorMessage) && areas == old(areas) && Selections() == old(Selections())
    {
      categories := Loading;
      categories := Repository.GetCategories(response);
    }

    /** `fetchAreas()`, after its Loading step. */
    method FetchAreas(response: Repository.ApiOutcome<NameListDto>)
      modifies this
      ensures areas == Repository.ListAreas(response)
      ensures recipes == old(recipes) && searchQuery == old(searchQuery) && isLoading == old(isLoading)
      ensures errorMessage == old(errorMessage) && categories == old(categories) && Selections() == old(Selections())
    {
      areas := Loading;
      areas := Repository.ListAreas(response);
    }

    /** `onSearchQueryChanged(query)`. */
    method OnSearchQueryChanged(query: string)
      modifies this
      ensures searchQuery == query
      ensures recipes == old(recipes) && isLoading == old(isLoading) && errorMessage == old(errorMessage)
      ensures categories == old(categories) && areas == old(areas) && Selections() == old(Selections())
    {
      searchQuery := query;
    }

    /** `clearAllFilters()`. */
    method ClearAllFilters()
      modifies this
      ensures Selections() == NoSelection && Valid()
      ensures recipes == old(recipes) && searchQuery == old(searchQuery) && isLoading == old(isLoading)
      ensures errorMessage == old(errorMessage) && categories == old(categories) && areas == old(areas)
    {
      selectedCategory := None;
      selectedArea := None;
      selectedIngredient := None;
    }

    /** The `when (result)` both searches end with; a Loading result changes nothing. */
    method ShowResult(result: Result<seq<Recipe>>, favoriteIds: set<string>)
      modifies this
      ensures result.Success? ==> recipes == WithFavoriteFlags(result.data, favoriteIds) && errorMessage == old(errorMessage)
      ensures result.Error? ==> recipes == [] && errorMessage == Some(result.message)
      ensures result.Loading? ==> recipes == old(recipes) && errorMessage == old(errorMessage)
      ensures searchQuery == old(searchQuery) && isLoading == old(isLoading)
      ensures categories == old(categories) && areas == old(areas) && Selections() == old(Selections())
    {
      match result {
        case Success(data) =>
          recipes := WithFavoriteFlags(data, favoriteIds);
        case Error(message) =>
          recipes := [];
          errorMessage := Some(message);
        case Loading =>
      }
    }

    /**
     * `searchRecipes(favoriteIds)`: nothing happens for a blank query;
     * otherwise the selections are cleared and the dual search's outcome is
     * shown, with the favorite flags taken from `favoriteIds`.
     */
    method SearchRecipes(favoriteIds: set<string>, backend: Repository.RecipeSource)
      modifies this
      ensures IsBlank(old(searchQuery)) ==> unchanged(this)
      ensures !IsBlank(old(searchQuery)) ==>
        var out := SearchOutcome(searchQuery, backend(Repository.SearchByName(searchQuery)), backend(Repository.ByIngredient(searchQuery)));
        && Valid() && Selections() == NoSelection && !isLoading
        && searchQuery == old(searchQuery) && categories == old(categories) && areas == old(areas)
        && (out.Success? ==> recipes == WithFavoriteFlags(out.data, favoriteIds) && errorMessage == None)
        && (out.Error? ==> recipes == [] && errorMessage == Some(out.message))
    {
      if IsBlank(searchQuery) {
        return;
      }
      isLoading := true;
      ClearAllFilters();
      errorMessage := None;
      var query := searchQuery;
      var nameResult := backend(Repository.SearchByName(query));
      var ingredientResult := backend(Repository.ByIngredient(query));
      var combined := MergeById(nameResult, ingredientResult);
      var finalResult;
      if combined != [] {
        finalResult := Success(combined);
      } else if nameResult.Error? {
        finalResult := nameResult;
      } else if ingredientResult.Error? {
        finalResult := ingredientResult;
      } else {
        finalResult := Error(Repository.NoRecipesFound(query));
      }
      ShowResult(finalResult, favoriteIds);
      isLoading := false;
    }

    /**
     * `filterAndDisplayRecipes(filterType, query, favoriteIds)`: an unknown
     * type stops after setting the loading flag; otherwise the chip is toggled
     * with single selection, and a selected chip shows its request's result
     * while a toggled-off one shows nothing.
     */
    method FilterAndDisplayRecipes(filterType: string, query: string, favoriteIds: set<string>, backend: Repository.RecipeSource)
      modifies this
      ensures searchQuery == old(searchQuery) && categories == old(categories) && areas == old(areas)
      ensures GroupOf(filterType).None? ==>
        isLoading && errorMessage == None && recipes == old(recipes) && Selections() == old(Selections())
      ensures GroupOf(filterType).Some? ==>
        var g := GroupOf(filterType).value;
        && Valid() && Selections() == ChipClicked(old(Selections()), g, query) && !isLoading
        && (Selections().Get(g).None? ==> recipes == [] && errorMessage == None)
        && (Selections().Get(g).Some? ==>
              var result := backend(RequestFor(g, query));
              && (result.Success? ==> recipes == WithFavoriteFlags(result.data, favoriteIds) && errorMessage == None)
              && (result.Error? ==> recipes == [] && errorMessage == Some(result.message))
              && (result.Loading? ==> recipes == old(recipes) && errorMessage == None))
    {
      isLoading := true;
      errorMessage := None;
      var group := GroupOf(filterType);
      if group.None? {
        return;
      }
      var g := group.value;
      var current := Selections().Get(g);
      var newQuery := if current == Some(query) then None else Some(query);
      ClearAllFilters();
      match g {
        case CategoryGroup => selectedCategory := newQuery;
        case AreaGroup => selectedArea := newQuery;
        case IngredientGroup => selectedIngredient := newQuery;
      }
      assert Selections() == ChipClicked(old(Selections()), g, query);
      if newQuery.Some? {
        var result := backend(RequestFor(g, newQuery.value));
        ShowResult(result, favoriteIds);
        isLoading := false;
      } else {
        recipes := [];
        isLoading := false;
      }
    }
  }
}
