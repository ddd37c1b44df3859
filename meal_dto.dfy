/**
 * The meal DTO of the remote API and its mapping to a domain Recipe
 * (data/model/MealDto.kt).
 */
module MealDtos {
  import opened Wrappers
  import opened Strings
  import opened Recipes

  /** The API's 20 numbered ingredient and measure fields. */
  const SlotCount: nat := 20

  type Slots = s: seq<Option<string>> | |s| == SlotCount witness seq(SlotCount, _ => None)

  /**
   * A meal as the API sends it; `ingredientNames[i]` and `measures[i]` are the
   * fields `strIngredient(i+1)` and `strMeasure(i+1)`.
   */
  datatype MealDto = MealDto(
    idMeal: string,
    strMeal: string,
    strMealThumb: Option<string>,
    strInstructions: Option<string>,
    strCategory: Option<string>,
    strArea: Option<string>,
    ingredientNames: Slots,
    measures: Slots)

  /** The response envelope; `meals` is null when nothing matched. */
  datatype MealListDto = MealListDto(meals: Option<seq<MealDto>>)

  /** `x?.trim()`. */
  function TrimOpt(x: Option<string>): (r: Option<string>)
    ensures r.None? <==> x.None?
    ensures r.Some? ==> Trim(r.value) == r.value && |r.value| <= |x.value|
  {
    match x
    case None => None
    case Some(s) => TrimIdempotent(s); Some(Trim(s))
  }

  /** `isNullOrBlank()`: null, or nothing left after trimming. */
  predicate IsNullOrBlank(x: Option<string>)
    ensures IsNullOrBlank(x) <==> x.None? || Trim(x.value) == []
  {
    x.None? || (TrimProperties(x.value); IsBlank(x.value))
  }

  /**
   * What slot `i` contributes: `Ingredient(name, measure)` of its trimmed
   * name and trimmed measure when both are present and non-blank, else nothing.
   */
  function SlotOutcome(names: seq<Option<string>>, measures: seq<Option<string>>, i: nat): Option<Ingredient>
    requires i < |names| && i < |measures|
  {
    var name := TrimOpt(names[i]);
    var measure := TrimOpt(measures[i]);
    if !IsNullOrBlank(name) && !IsNullOrBlank(measure) then Some(Ingredient(name.value, measure.value)) else None
  }

  /** The outcome of every slot of a meal, slot 1 first. */
  function SlotOutcomes(m: MealDto): (outs: seq<Option<Ingredient>>)
    ensures |outs| == SlotCount
  {
    seq(SlotCount, i requires 0 <= i < SlotCount => SlotOutcome(m.ingredientNames, m.measures, i))
  }

  /** The contributed ingredients, in slot order. */
  function Collect(outs: seq<Option<Ingredient>>): seq<Ingredient>
  {
    if outs == [] then []
    else
      var n := |outs| - 1;
      Collect(outs[..n]) + (if outs[n].Some? then [outs[n].value] else [])
  }

  /** The indices of the contributing slots, in increasing order. */
  function KeptSlots(outs: seq<Option<Ingredient>>): seq<nat>
  {
    if outs == [] then []
    else
      var n := |outs| - 1;
      KeptSlots(outs[..n]) + (if outs[n].Some? then [n] else [])
  }

  /** `MealDto.toRecipe()` as a value: the reference the imperative mapping is proved against. */
  function MealRecipe(m: MealDto): (r: Recipe)
    ensures r.id == m.idMeal && r.title == m.strMeal && !r.isFavorite
  {
    Recipe(m.idMeal, m.strMeal, m.strMealThumb, m.strInstructions,
           Collect(SlotOutcomes(m)), m.strCategory, m.strArea, false)
  }

  /** `MealDto.toRecipe()`: walks the 20 slot pairs, adding an ingredient for each kept pair. */
  method ToRecipe(m: MealDto) returns (r: Recipe)
    ensures r == MealRecipe(m)
  {
    var ingredients: seq<Ingredient> := [];
    var measures := m.measures;
    var ingredientNames := m.ingredientNames;
    ghost var outs := SlotOutcomes(m);
    for i := 0 to |ingredientNames|
      invariant ingredients == Collect(outs[..i])
    {
      var name := TrimOpt(ingredientNames[i]);
      var measure := TrimOpt(measures[i]);
      if !IsNullOrBlank(name) && !IsNullOrBlank(measure) {
        ingredients := ingredients + [Ingredient(name.value, measure.value)];
      }
      assert outs[..i + 1][..i] == outs[..i];
    }
    assert outs[..SlotCount] == outs;
    r := Recipe(m.idMeal, m.strMeal, m.strMealThumb, m.strInstructions,
                ingredients, m.strCategory, m.strArea, false);
  }

  /** Trimming does not change whether an optional string is null or blank. */
  lemma TrimOptKeepsBlankness(x: Option<string>)
    ensures IsNullOrBlank(TrimOpt(x)) <==> IsNullOrBlank(x)
  {
    if x.Some? { TrimIdempotent(x.value); }
  }

  /**
   * A slot contributes exactly when both raw fields are non-null and
   * non-blank, and then it contributes the trimmed pair of that slot.
   */
  lemma SlotOutcomeRaw(names: seq<Option<string>>, measures: seq<Option<string>>, i: nat)
    requires i < |names| && i < |measures|
    ensures SlotOutcome(names, measures, i).Some? <==> !IsNullOrBlank(names[i]) && !IsNullOrBlank(measures[i])
    ensures SlotOutcome(names, measures, i).Some? ==>
      SlotOutcome(names, measures, i).value == Ingredient(Trim(names[i].value), Trim(measures[i].value))
  {
    TrimOptKeepsBlankness(names[i]);
    TrimOptKeepsBlankness(measures[i]);
  }

  /**
   * The collected ingredients are exactly the contributing slots: one per
   * such slot, in increasing slot order, each the value of its own slot.
   */
  lemma {:induction false} CollectBySlot(outs: seq<Option<Ingredient>>)
    ensures var ks := KeptSlots(outs);
      && |Collect(outs)| == |ks| <= |outs|
      && (forall j :: 0 <= j < |ks| ==> ks[j] < |outs| && outs[ks[j]] == Some(Collect(outs)[j]))
      && (forall j1, j2 :: 0 <= j1 < j2 < |ks| ==> ks[j1] < ks[j2])
      && (forall i :: 0 <= i < |outs| ==> (outs[i].Some? <==> i in ks))
  {
    if outs != [] {
      var n := |outs| - 1;
      CollectBySlot(outs[..n]);
    }
  }

  /**
   * toRecipe yields at most 20 ingredients: slot i contributes iff its raw
   * name and measure are non-null and non-blank, the contribution is that
   * slot's trimmed pair, in increasing slot order; the other fields are
   * copied and the flag is false.
   */
  lemma MealRecipeProperties(m: MealDto)
    ensures var r := MealRecipe(m); var ks := KeptSlots(SlotOutcomes(m));
      && |r.ingredients| == |ks| <= SlotCount
      && (forall j :: 0 <= j < |ks| ==>
            ks[j] < SlotCount &&
            !IsNullOrBlank(m.ingredientNames[ks[j]]) && !IsNullOrBlank(m.measures[ks[j]]) &&
            r.ingredients[j] == Ingredient(Trim(m.ingredientNames[ks[j]].value), Trim(m.measures[ks[j]].value)))
      && (forall j1, j2 :: 0 <= j1 < j2 < |ks| ==> ks[j1] < ks[j2])
      && (forall i :: 0 <= i < SlotCount ==>
            (i in ks <==> !IsNullOrBlank(m.ingredientNames[i]) && !IsNullOrBlank(m.measures[i])))
      && r.id == m.idMeal && r.title == m.strMeal && r.imageUrl == m.strMealThumb
      && r.instructions == m.strInstructions && r.category == m.strCategory && r.area == m.strArea
      && !r.isFavorite
  {
    var outs := SlotOutcomes(m);
    CollectBySlot(outs);
    forall i | 0 <= i < SlotCount
      ensures outs[i].Some? <==> !IsNullOrBlank(m.ingredientNames[i]) && !IsNullOrBlank(m.measures[i])
      ensures outs[i].Some? ==> outs[i].value == Ingredient(Trim(m.ingredientNames[i].value), Trim(m.measures[i].value))
    {
      SlotOutcomeRaw(m.ingredientNames, m.measures, i);
    }
  }

  /** Slots that contribute nothing after the first `k` leave the collection unchanged. */
  lemma {:induction false} CollectEmptyTail(outs: seq<Option<Ingredient>>, k: nat)
    requires k <= |outs|
    requires forall i :: k <= i < |outs| ==> outs[i].None?
    ensures Collect(outs) == Collect(outs[..k])
  {
    if |outs| > k {
      var n := |outs| - 1;
      assert outs[..n][..k] == outs[..k];
      CollectEmptyTail(outs[..n], k);
    } else {
      assert outs[..k] == outs;
    }
  }

  /** The DTO of the repository tests: only slot 1 set, to ("Sugar", "1 cup"). */
  function SugarMeal(): MealDto {
    MealDto("100", "Test Recipe", Some("test_image.jpg"), Some("Step 1. Step 2."),
            Some("Dessert"), Some("American"),
            [Some("Sugar")] + seq(SlotCount - 1, _ => None),
            [Some("1 cup")] + seq(SlotCount - 1, _ => None))
  }

  /** A meal whose only filled slot is slot 1 yields that slot's trimmed pair alone. */
  lemma SingleSlotMeal(m: MealDto)
    requires !IsNullOrBlank(m.ingredientNames[0]) && !IsNullOrBlank(m.measures[0])
    requires forall i :: 1 <= i < SlotCount ==> m.ingredientNames[i].None?
    ensures MealRecipe(m).ingredients == [Ingredient(Trim(m.ingredientNames[0].value), Trim(m.measures[0].value))]
  {
    var outs := SlotOutcomes(m);
    CollectEmptyTail(outs, 1);
    SlotOutcomeRaw(m.ingredientNames, m.measures, 0);
    assert outs[..1] == [outs[0]] && outs[..1][..0] == [];
  }

  /** It maps to exactly one ingredient, Ingredient("Sugar", "1 cup"), with every other field copied. */
  lemma SugarMealMapping()
    ensures MealRecipe(SugarMeal()) ==
      Recipe("100", "Test Recipe", Some("test_image.jpg"), Some("Step 1. Step 2."),
             [Ingredient("Sugar", "1 cup")], Some("Dessert"), Some("American"), false)
  {
    var m := SugarMeal();
    assert !IsWhitespace('S') && !IsWhitespace('r') && !IsWhitespace('1') && !IsWhitespace('p');
    assert TrimStart("Sugar") == "Sugar" && TrimEnd("Sugar") == "Sugar";
    assert TrimStart("1 cup") == "1 cup" && TrimEnd("1 cup") == "1 cup";
    SingleSlotMeal(m);
  }
}
