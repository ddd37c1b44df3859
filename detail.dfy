/**
 * The pure helpers of ui/detail/RecipeDetailScreen.kt: the instruction steps,
 * the favorite status, the favorite button's action and the ingredient line.
 */
module RecipeDetail {
  import opened Wrappers
  import opened Strings
  import opened Recipes
  import opened Entities
  import Dao
  import GlobalOps

  /** What the screen shows for a recipe without instructions. */
  const DefaultStep: string := "No instructions available."

  /** `.map { it.trim() }.filter { it.isNotBlank() }`. */
  function TrimmedNonBlank(pieces: seq<string>): (steps: seq<string>)
    ensures |steps| <= |pieces|
    ensures forall k :: 0 <= k < |steps| ==> !IsBlank(steps[k])
  {
    if pieces == [] then []
    else (if IsBlank(Trim(pieces[0])) then [] else [Trim(pieces[0])]) + TrimmedNonBlank(pieces[1..])
  }

  /** `instructions?.split(".")?.map { it.trim() }?.filter { it.isNotBlank() } ?: listOf(DefaultStep)`. */
  function InstructionSteps(instructions: Option<string>): (steps: seq<string>)
    ensures instructions.None? ==> steps == [DefaultStep]
    ensures instructions.Some? ==> forall k :: 0 <= k < |steps| ==> !IsBlank(steps[k]) && '.' !in steps[k]
  {
    match instructions
    case None => [DefaultStep]
    case Some(text) =>
      var pieces := Split(text, '.');
      TrimmedNonBlankSpec(pieces);
      TrimmedNonBlank(pieces)
  }

  /** The filter works piece by piece, so the steps keep the pieces' order. */
  lemma {:induction false} TrimmedNonBlankAppend(a: seq<string>, b: seq<string>)
    ensures TrimmedNonBlank(a + b) == TrimmedNonBlank(a) + TrimmedNonBlank(b)
  {
    if a == [] {
      assert a + b == b;
    } else {
      var ab := a + b;
      var head := if IsBlank(Trim(a[0])) then [] else [Trim(a[0])];
      TrimmedNonBlankAppend(a[1..], b);
      assert ab[1..] == a[1..] + b && ab[0] == a[0];
      assert TrimmedNonBlank(ab) == head + TrimmedNonBlank(a[1..] + b);
      assert TrimmedNonBlank(a) == head + TrimmedNonBlank(a[1..]);
    }
  }

  /**
   * The steps are exactly the trimmed pieces that are not blank; each step is
   * its own trim, not blank, and holds only characters of some piece.
   */
  lemma {:induction false} TrimmedNonBlankSpec(pieces: seq<string>)
    ensures forall s :: s in TrimmedNonBlank(pieces) <==> exists p :: p in pieces && s == Trim(p) && !IsBlank(Trim(p))
    ensures forall s :: s in TrimmedNonBlank(pieces) ==> !IsBlank(s) && Trim(s) == s
    ensures forall s, c :: s in TrimmedNonBlank(pieces) && c in s ==> exists p :: p in pieces && c in p
  {
    if pieces != [] {
      TrimmedNonBlankSpec(pieces[1..]);
      var p := pieces[0];
      TrimProperties(p);
      TrimIdempotent(p);
      assert pieces == [p] + pieces[1..];
    }
  }

  /** For a text, every step is already trimmed, is not blank and holds no '.'. */
  lemma InstructionStepsTrimmed(text: string)
    ensures forall s :: s in InstructionSteps(Some(text)) ==> !IsBlank(s) && Trim(s) == s && '.' !in s
  {
    TrimmedNonBlankSpec(Split(text, '.'));
  }

  /** For a text, the steps are exactly the non-blank trimmed pieces between the dots. */
  lemma {:induction false} InstructionStepsPieces(text: string)
    ensures forall s :: s in InstructionSteps(Some(text)) <==>
      exists p :: p in Split(text, '.') && s == Trim(p) && !IsBlank(Trim(p))
  {
    TrimmedNonBlankSpec(Split(text, '.'));
  }

  /** Missing instructions give the single default step; a text without any non-blank piece gives no step at all. */
  lemma InstructionStepsEdgeCases()
    ensures InstructionSteps(None) == [DefaultStep]
    ensures InstructionSteps(Some("")) == []
    ensures InstructionSteps(Some("...")) == []
  {
    assert Split("", '.') == [[]];
    var dots := "...";
    assert dots[1..] == ".." && dots[2..] == "." && dots[3..] == "";
    assert Split(dots, '.') == [[], [], [], []];
    assert IsBlank(Trim([]));
  }

  /** The test recipe's instructions, "Step 1. Step 2.", cut at the dots. */
  lemma TestRecipePieces(text: string)
    requires text == "Step 1. Step 2."
    ensures Split(text, '.') == ["Step 1", " Step 2", ""]
  {
    var pieces := ["Step 1", " Step 2", ""];
    assert pieces[1..] == [" Step 2", ""] && pieces[1..][1..] == [""];
    assert Join(pieces[1..], '.') == " Step 2" + ['.'] + "";
    assert Join(pieces, '.') == "Step 1. Step 2.";
    assert '.' !in "Step 1" && '.' !in " Step 2" && '.' !in "";
    assert forall k :: 0 <= k < |pieces| ==> '.' !in pieces[k];
    SplitOfJoin(pieces, '.');
  }

  /** The test recipe's pieces, trimmed: the first is kept as is, the second loses its leading space. */
  lemma TestRecipeTrims()
    ensures Trim("Step 1") == "Step 1" && !IsBlank("Step 1")
    ensures Trim(" Step 2") == "Step 2" && !IsBlank("Step 2")
  {
    var p1, p2, s2 := "Step 1", " Step 2", "Step 2";
    assert p1[0] == 'S' && p1[5] == '1';
    assert p2[0] == ' ' && p2[1..] == s2 && s2[0] == 'S' && s2[5] == '2';
  }

  /** Three pieces of which only the last is blank give the first two, trimmed. */
  lemma TrimmedNonBlankTwoOfThree(a: string, b: string, c: string)
    requires !IsBlank(Trim(a)) && !IsBlank(Trim(b)) && IsBlank(Trim(c))
    ensures TrimmedNonBlank([a, b, c]) == [Trim(a), Trim(b)]
  {
    TrimmedNonBlankAppend([a], [b, c]);
    TrimmedNonBlankAppend([b], [c]);
    assert [a] + [b, c] == [a, b, c];
    assert [b] + [c] == [b, c];
  }

  /** The test recipe's instructions read as two steps. */
  lemma TestRecipeSteps(text: string)
    requires text == "Step 1. Step 2."
    ensures InstructionSteps(Some(text)) == ["Step 1", "Step 2"]
  {
    TestRecipePieces(text);
    TestRecipeTrims();
    var p3: string := "";
    assert IsBlank(Trim(p3));
    TrimmedNonBlankTwoOfThree("Step 1", " Step 2", p3);
  }

  /** `favoriteRecipes.any { it.id == recipeId }`. */
  function IsFavoriteIn(favorites: seq<Recipe>, recipeId: string): (b: bool)
    ensures b <==> exists i :: 0 <= i < |favorites| && favorites[i].id == recipeId
  {
    if favorites == [] then false
    else favorites[0].id == recipeId || IsFavoriteIn(favorites[1..], recipeId)
  }

  /** The scan answers membership of the id in the favorites' ids. */
  lemma {:induction false} IsFavoriteInIds(favorites: seq<Recipe>, recipeId: string)
    ensures IsFavoriteIn(favorites, recipeId) <==> recipeId in Ids(favorites)
  {
    if favorites != [] {
      IsFavoriteInIds(favorites[1..], recipeId);
      assert favorites == [favorites[0]] + favorites[1..];
      IdsAppend([favorites[0]], favorites[1..]);
      assert Ids([favorites[0]]) == {favorites[0].id};
    }
  }

  /**
   * The detail screen's favorite button (`onFavoriteClick`), run to completion
   * on the shared view model. The status is that of the screen's route
   * argument `recipeId`; the action uses the loaded recipe.
   */
  method OnFavoriteClick(vm: GlobalOps.GlobalRecipeOperationsViewModel, recipeId: string, recipe: Recipe)
    requires vm.repository.dao.Valid()
    modifies vm.repository.dao
    ensures vm.repository.dao.Valid()
    ensures IsFavoriteIn(vm.favoriteRecipes, recipeId) ==>
      vm.repository.dao.rows == Dao.Delete(old(vm.repository.dao.rows), recipe.id)
    ensures !IsFavoriteIn(vm.favoriteRecipes, recipeId) ==>
      vm.repository.dao.rows == Dao.Insert(old(vm.repository.dao.rows), ToRecipeEntity(recipe))
    ensures recipe.id == recipeId && Ids(vm.favoriteRecipes) == old(vm.repository.dao.rows).Keys ==>
      (recipe.id in vm.repository.dao.rows <==> recipe.id !in old(vm.repository.dao.rows))
  {
    var isFavorite := IsFavoriteIn(vm.favoriteRecipes, recipeId);
    IsFavoriteInIds(vm.favoriteRecipes, recipeId);
    if isFavorite {
      vm.RemoveFavorite(recipe.id);
    } else {
      vm.AddFavorite(recipe);
      assert ToRecipeEntity(recipe).id == recipe.id;
    }
  }

  /** `"${ingredient.measure} ${ingredient.name}"`: the measure, one space, the name. */
  function IngredientLine(ingredient: Ingredient): (line: string)
    ensures |line| == |ingredient.measure| + 1 + |ingredient.name|
    ensures line[..|ingredient.measure|] == ingredient.measure
    ensures line[|ingredient.measure|] == ' '
    ensures line[|ingredient.measure| + 1..] == ingredient.name
  {
    ingredient.measure + " " + ingredient.name
  }
}
