/** The value-level rules behind the formula editor: finding rows by
    identifier, the ingredient lists it derives, the legacy price and premix
    unit conversions, and the checks that block a calculation. */
module FeedFormRules {
  import opened Options
  import opened RealMath
  import opened Text
  import opened Ingredients
  import opened NutrientKeys
  import opened NutrientConstraints
  import opened RationSolutions
  import opened Inventory

  const TomanPerDollarBase: real := 100000.0

  /** Stored prices below this are read as dollars from an older version. */
  const LegacyDollarThreshold: real := 1000.0

  const TooFewActiveMessage: string := "At least two active ingredients are required (check group toggles and names)."
  const IngredientBoundsMessage: string := "Ingredient Min% cannot be greater than Max%."
  const ConstraintBoundsMessage: string := "Some nutrient constraints have Min > Max."

  /** Position of the first ingredient with this identifier. */
  function FirstIngredientIndex(ingredients: seq<Ingredient>, id: IngredientId): (r: Option<nat>)
    ensures r.None? <==> forall i :: 0 <= i < |ingredients| ==> ingredients[i].id != id
    ensures r.Some? ==> r.value < |ingredients| && ingredients[r.value].id == id
    ensures r.Some? ==> forall i :: 0 <= i < r.value ==> ingredients[i].id != id
  {
    if ingredients == [] then None
    else if ingredients[0].id == id then Some(0)
    else
      match FirstIngredientIndex(ingredients[1..], id)
      case None => None
      case Some(i) => Some(i + 1)
  }

  /** Position of the first constraint on this key. */
  function FirstConstraintIndex(constraints: seq<NutrientConstraint>, key: NutrientKey): (r: Option<nat>)
    ensures r.None? <==> forall i :: 0 <= i < |constraints| ==> constraints[i].key != key
    ensures r.Some? ==> r.value < |constraints| && constraints[r.value].key == key
    ensures r.Some? ==> forall i :: 0 <= i < r.value ==> constraints[i].key != key
  {
    if constraints == [] then None
    else if constraints[0].key == key then Some(0)
    else
      match FirstConstraintIndex(constraints[1..], key)
      case None => None
      case Some(i) => Some(i + 1)
  }

  /** The first allocation for this ingredient in a solution. */
  function AllocationFor(allocations: seq<RationAllocation>, id: IngredientId): (r: Option<RationAllocation>)
    ensures r.None? <==> forall i :: 0 <= i < |allocations| ==> allocations[i].id != id
    ensures r.Some? ==> exists i :: 0 <= i < |allocations| && allocations[i] == r.value && r.value.id == id
  {
    if allocations == [] then None
    else if allocations[0].id == id then Some(allocations[0])
    else
      var r := AllocationFor(allocations[1..], id);
      assert r.Some? ==> exists i :: 0 <= i < |allocations| && allocations[i] == r.value by {
        if r.Some? {
          var i :| 0 <= i < |allocations| - 1 && allocations[1..][i] == r.value;
          assert allocations[i + 1] == r.value;
        }
      }
      r
  }

  /** The identifiers of some ingredients. */
  function IdsOf(ingredients: seq<Ingredient>): set<IngredientId> {
    set i | 0 <= i < |ingredients| :: ingredients[i].id
  }

  /** The ingredients whose identifier is selected, in their order. */
  function SelectedOf(ingredients: seq<Ingredient>, selected: set<IngredientId>): (r: seq<Ingredient>)
    ensures |r| <= |ingredients|
    ensures forall x :: x in r <==> x in ingredients && x.id in selected
  {
    if ingredients == [] then []
    else
      var rest := SelectedOf(ingredients[1..], selected);
      assert ingredients == [ingredients[0]] + ingredients[1..];
      if ingredients[0].id in selected then [ingredients[0]] + rest else rest
  }

  /** An ingredient as handed to the optimiser: its name trimmed. */
  function Trimmed(x: Ingredient): Ingredient {
    x.(name := Trim(x.name))
  }

  /** Whether an ingredient takes part in a calculation: its group is
      enabled, it is selected, and its name is not blank. */
  predicate Takes(x: Ingredient, groups: set<IngredientGroup>, selected: set<IngredientId>) {
    x.group in groups && x.id in selected && Trim(x.name) != []
  }

  /** The ingredients handed to the optimiser: those in enabled groups that
      are selected, with names trimmed, dropping blank names. */
  function ActiveOf(ingredients: seq<Ingredient>, groups: set<IngredientGroup>, selected: set<IngredientId>)
    : (r: seq<Ingredient>)
    ensures |r| <= |ingredients|
    ensures forall x :: x in r ==> x.group in groups && x.id in selected && x.name != []
    ensures forall x :: x in ingredients && Takes(x, groups, selected) ==> Trimmed(x) in r
  {
    if ingredients == [] then []
    else
      var rest := ActiveOf(ingredients[1..], groups, selected);
      var x := ingredients[0];
      assert ingredients == [x] + ingredients[1..];
      if Takes(x, groups, selected) then [Trimmed(x)] + rest else rest
  }

  /** Everything handed to the optimiser is a taking ingredient with its
      name trimmed. */
  lemma {:induction false} ActiveFromTaking(ingredients: seq<Ingredient>, groups: set<IngredientGroup>,
                                            selected: set<IngredientId>, k: nat)
    requires k < |ActiveOf(ingredients, groups, selected)|
    ensures exists j :: 0 <= j < |ingredients| && Takes(ingredients[j], groups, selected)
                        && ActiveOf(ingredients, groups, selected)[k] == Trimmed(ingredients[j])
  {
    var x := ingredients[0];
    var rest := ActiveOf(ingredients[1..], groups, selected);
    if Takes(x, groups, selected) && k == 0 {
      assert Takes(ingredients[0], groups, selected);
    } else {
      var k' := if Takes(x, groups, selected) then k - 1 else k;
      assert ActiveOf(ingredients, groups, selected)[k] == rest[k'];
      ActiveFromTaking(ingredients[1..], groups, selected, k');
      var j :| 0 <= j < |ingredients| - 1 && Takes(ingredients[1..][j], groups, selected)
               && rest[k'] == Trimmed(ingredients[1..][j]);
      assert ingredients[j + 1] == ingredients[1..][j];
    }
  }

  /** The ingredients without those carrying this identifier, in order. */
  function Without(ingredients: seq<Ingredient>, id: IngredientId): (r: seq<Ingredient>)
    ensures |r| <= |ingredients|
    ensures forall x :: x in r <==> x in ingredients && x.id != id
  {
    if ingredients == [] then []
    else
      var rest := Without(ingredients[1..], id);
      assert ingredients == [ingredients[0]] + ingredients[1..];
      if ingredients[0].id == id then rest else [ingredients[0]] + rest
  }

  function MinPercents(ingredients: seq<Ingredient>): seq<real> {
    seq(|ingredients|, i requires 0 <= i < |ingredients| => ingredients[i].minPercent)
  }

  function MaxPercents(ingredients: seq<Ingredient>): seq<real> {
    seq(|ingredients|, i requires 0 <= i < |ingredients| => ingredients[i].maxPercent)
  }

  /** A stored price read as legacy dollars when it lies strictly between
      zero and the threshold, converted by the rate; every other field is
      kept. */
  function ConvertPrice(ingredient: Ingredient, rate: real, threshold: real): (r: Ingredient)
    ensures r.(pricePerKg := ingredient.pricePerKg) == ingredient
    ensures 0.0 < ingredient.pricePerKg < threshold ==> r.pricePerKg == ingredient.pricePerKg * rate
    ensures !(0.0 < ingredient.pricePerKg < threshold) ==> r.pricePerKg == ingredient.pricePerKg
  {
    if 0.0 < ingredient.pricePerKg < threshold then ingredient.(pricePerKg := ingredient.pricePerKg * rate)
    else ingredient
  }

  function ConvertIngredientPricesToToman(ingredients: seq<Ingredient>, rate: real, threshold: real)
    : (r: seq<Ingredient>)
    ensures |r| == |ingredients|
    ensures forall i :: 0 <= i < |r| ==> r[i] == ConvertPrice(ingredients[i], rate, threshold)
  {
    seq(|ingredients|, i requires 0 <= i < |ingredients| => ConvertPrice(ingredients[i], rate, threshold))
  }

  /** Converting again changes nothing once no price is left in the legacy
      range: this holds after one conversion when every original price is
      zero or below, or at least threshold / rate (a hundredth of a dollar
      with the application's constants). */
  lemma ConvertAgainUnchanged(ingredients: seq<Ingredient>, rate: real, threshold: real)
    requires rate > 0.0
    requires forall i :: 0 <= i < |ingredients| ==>
      ingredients[i].pricePerKg <= 0.0 || ingredients[i].pricePerKg * rate >= threshold
    ensures var once := ConvertIngredientPricesToToman(ingredients, rate, threshold);
      ConvertIngredientPricesToToman(once, rate, threshold) == once
  {
    var once := ConvertIngredientPricesToToman(ingredients, rate, threshold);
    forall i | 0 <= i < |once| ensures ConvertPrice(once[i], rate, threshold) == once[i] {
      var p := ingredients[i].pricePerKg;
      if 0.0 < p < threshold {
        assert once[i].pricePerKg == p * rate >= threshold;
      } else if p > 0.0 {
        assert once[i].pricePerKg == p >= threshold;
      }
    }
  }

  /** The premix quantity for a batch, from its share in percent. */
  function PercentToKg(batchSizeKg: real, percent: real): real {
    batchSizeKg * percent / 100.0
  }

  /** The premix share in percent, from its quantity in a batch. */
  function KgToPercent(batchSizeKg: real, kg: real): real
    requires batchSizeKg > 0.0
  {
    kg / batchSizeKg * 100.0
  }

  /** On a positive batch the two conversions undo each other. */
  lemma PremixRoundTrip(batchSizeKg: real, percent: real, kg: real)
    requires batchSizeKg > 0.0
    ensures KgToPercent(batchSizeKg, PercentToKg(batchSizeKg, percent)) == percent
    ensures PercentToKg(batchSizeKg, KgToPercent(batchSizeKg, kg)) == kg
  {
    assert batchSizeKg * percent / 100.0 / batchSizeKg == percent / 100.0;
    assert batchSizeKg * (kg / batchSizeKg * 100.0) == kg * 100.0;
  }

  /** The first reason a calculation cannot start, in the order they are
      checked: fewer than two ingredients, an ingredient with Min% above
      Max%, a constraint with min above max. */
  function CalculationBlocker(active: seq<Ingredient>, constraints: seq<NutrientConstraint>): (r: Option<string>)
    ensures r.None? <==>
      && |active| >= 2
      && (forall i :: 0 <= i < |active| ==> active[i].minPercent <= active[i].maxPercent)
      && WellFormed(constraints)
    ensures |active| < 2 ==> r == Some(TooFewActiveMessage)
    ensures |active| >= 2 && (exists i :: 0 <= i < |active| && active[i].minPercent > active[i].maxPercent) ==>
      r == Some(IngredientBoundsMessage)
    ensures (&& |active| >= 2
             && (forall i :: 0 <= i < |active| ==> active[i].minPercent <= active[i].maxPercent)
             && !WellFormed(constraints)) ==> r == Some(ConstraintBoundsMessage)
  {
    if |active| < 2 then Some(TooFewActiveMessage)
    else if exists i | 0 <= i < |active| :: active[i].minPercent > active[i].maxPercent then Some(IngredientBoundsMessage)
    else if exists i | 0 <= i < |constraints| :: constraints[i].useMin && constraints[i].useMax
                                                 && constraints[i].minValue > constraints[i].maxValue
    then Some(ConstraintBoundsMessage)
    else None
  }

  /** The starting stock for an ingredient with no row yet. */
  function DefaultStock(batchSizeKg: real): (r: InventorySetting)
    ensures r.onHandKg >= 250.0 && r.safetyStockKg >= 100.0
    ensures r.onHandKg >= batchSizeKg * 1.8 && r.safetyStockKg >= batchSizeKg * 0.35
  {
    InventorySetting(Max(250.0, batchSizeKg * 1.8), Max(100.0, batchSizeKg * 0.35))
  }

  /** Whether an ingredient is offered as the premix: a supplement or
      additive whose name mentions "premix" in any case. */
  predicate IsPremixCandidate(x: Ingredient) {
    x.group == SupplementsAdditives && ContainsIgnoringCase(x.name, "premix")
  }

  /** The identifier of the first premix candidate. */
  function FirstPremixCandidate(ingredients: seq<Ingredient>): (r: Option<IngredientId>)
    ensures r.None? <==> forall i :: 0 <= i < |ingredients| ==> !IsPremixCandidate(ingredients[i])
    ensures r.Some? ==> exists i :: 0 <= i < |ingredients| && IsPremixCandidate(ingredients[i]) && ingredients[i].id == r.value
  {
    if ingredients == [] then None
    else if IsPremixCandidate(ingredients[0]) then Some(ingredients[0].id)
    else
      var r := FirstPremixCandidate(ingredients[1..]);
      assert r.Some? ==> exists i :: 0 <= i < |ingredients| && IsPremixCandidate(ingredients[i]) && ingredients[i].id == r.value by {
        if r.Some? {
          var i :| 0 <= i < |ingredients| - 1 && IsPremixCandidate(ingredients[1..][i]) && ingredients[1..][i].id == r.value;
          assert ingredients[i + 1] == ingredients[1..][i];
        }
      }
      r
  }

  /** The identifier of the first ingredient whose name mentions "Premix"
      in any case, whatever its group: the premix chosen on start-up. */
  function FirstNamedPremix(ingredients: seq<Ingredient>): (r: Option<IngredientId>)
    ensures r.None? <==> forall i :: 0 <= i < |ingredients| ==> !ContainsIgnoringCase(ingredients[i].name, "Premix")
    ensures r.Some? ==> r.value in IdsOf(ingredients)
  {
    if ingredients == [] then None
    else if ContainsIgnoringCase(ingredients[0].name, "Premix") then Some(ingredients[0].id)
    else
      var r := FirstNamedPremix(ingredients[1..]);
      assert r.Some? ==> r.value in IdsOf(ingredients) by {
        if r.Some? {
          var i :| 0 <= i < |ingredients| - 1 && ingredients[1..][i].id == r.value;
          assert ingredients[i + 1].id == r.value;
        }
      }
      r
  }

  /** Name fragments of the staple ingredients selected by default. */
  const CoreKeywords: seq<string> :=
    ["corn", "wheat", "soybean", "fish meal", "oil", "limestone", "dicalcium", "salt", "premix"]

  predicate IsCoreIngredient(x: Ingredient) {
    exists k | 0 <= k < |CoreKeywords| :: Contains(Lowercased(x.name), CoreKeywords[k])
  }

  /** Identifiers of the ingredients named after a staple. */
  function StapleIds(ingredients: seq<Ingredient>): set<IngredientId> {
    set i | 0 <= i < |ingredients| && IsCoreIngredient(ingredients[i]) :: ingredients[i].id
  }

  /** The default selection: the staples when at least two identifiers
      match, otherwise the first eight ingredients. */
  function CoreSelection(ingredients: seq<Ingredient>): (r: set<IngredientId>)
    ensures r <= IdsOf(ingredients)
    ensures |StapleIds(ingredients)| >= 2 ==> r == StapleIds(ingredients)
    ensures |StapleIds(ingredients)| < 2 ==>
      forall id :: id in r <==> exists i :: 0 <= i < |ingredients| && i < 8 && ingredients[i].id == id
  {
    var staples := StapleIds(ingredients);
    if |staples| < 2 then
      var n := if |ingredients| < 8 then |ingredients| else 8;
      set i | 0 <= i < n :: ingredients[i].id
    else staples
  }
}
