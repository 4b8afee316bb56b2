/** What the optimiser derives from its inputs before searching: the gate
    that rejects unusable input, the inclusion bounds as shares of one, the
    objective coefficients of the two modes, and the step-size schedule. */
module SolverInputs {
  import opened Options
  import opened RealMath
  import opened Ingredients
  import opened NutrientConstraints
  import opened RationSolutions
  import opened BoundedSimplex

  const NoIngredientsMessage: string := "No ingredients available for optimization."
  const MinAboveMaxMessage: string := "One or more nutrient constraints have Min greater than Max."
  const InvalidLimitsMessage: string := "One or more ingredients have invalid min/max inclusion limits."
  const MinimumsExceedMessage: string := "Ingredient minimum inclusions exceed 100%."
  const MaximumsBelowMessage: string := "Ingredient maximum inclusions are below 100%."

  /** Slack allowed on the sums of the inclusion bounds. */
  const MaxLowerTotal: real := 1.00001
  const MinUpperTotal: real := 0.99999

  /** The profit weight used when the caller gives none. */
  const DefaultProfitWeight: real := 0.16

  /** Lower inclusion bounds as shares: min% / 100, never below 0. */
  function LowerBounds(ingredients: seq<Ingredient>): (r: seq<real>)
    ensures |r| == |ingredients|
  {
    seq(|ingredients|, i requires 0 <= i < |ingredients| => Max(0.0, ingredients[i].minPercent / 100.0))
  }

  /** Upper inclusion bounds as shares: max% / 100, never above 1. */
  function UpperBounds(ingredients: seq<Ingredient>): (r: seq<real>)
    ensures |r| == |ingredients|
  {
    seq(|ingredients|, i requires 0 <= i < |ingredients| => Min(1.0, ingredients[i].maxPercent / 100.0))
  }

  /** The bounds are shares of the whole mix: lower ones at least 0, upper
      ones at most 1, and each equal to the percentage limit when that lies
      in [0, 100]. */
  lemma BoundsAsShares(ingredients: seq<Ingredient>, i: nat)
    requires i < |ingredients|
    ensures 0.0 <= LowerBounds(ingredients)[i] && UpperBounds(ingredients)[i] <= 1.0
    ensures 0.0 <= ingredients[i].minPercent <= 100.0 ==> LowerBounds(ingredients)[i] * 100.0 == ingredients[i].minPercent
    ensures 0.0 <= ingredients[i].maxPercent <= 100.0 ==> UpperBounds(ingredients)[i] * 100.0 == ingredients[i].maxPercent
  {
  }

  /** A constraint whose two enabled bounds cross. */
  predicate Crossed(c: NutrientConstraint) {
    c.useMin && c.useMax && c.minValue > c.maxValue
  }

  /** The input gate: the first failing check, in this order, names the
      reason; None lets the search run. */
  function Validate(ingredients: seq<Ingredient>, constraints: seq<NutrientConstraint>): Option<string> {
    var lower := LowerBounds(ingredients);
    var upper := UpperBounds(ingredients);
    if |ingredients| == 0 then Some(NoIngredientsMessage)
    else if exists i :: 0 <= i < |constraints| && Crossed(constraints[i]) then Some(MinAboveMaxMessage)
    else if exists i :: 0 <= i < |lower| && lower[i] > upper[i] then Some(InvalidLimitsMessage)
    else if Sum(lower) > MaxLowerTotal then Some(MinimumsExceedMessage)
    else if Sum(upper) < MinUpperTotal then Some(MaximumsBelowMessage)
    else None
  }

  /** The gate passes exactly when there are ingredients, no constraint has
      crossed bounds, every ingredient's bounds are ordered, and the bound
      totals admit a mix summing to one. */
  lemma ValidateAccepts(ingredients: seq<Ingredient>, constraints: seq<NutrientConstraint>)
    ensures Validate(ingredients, constraints).None? <==>
      && |ingredients| > 0
      && WellFormed(constraints)
      && Ordered(LowerBounds(ingredients), UpperBounds(ingredients))
      && Sum(LowerBounds(ingredients)) <= MaxLowerTotal
      && Sum(UpperBounds(ingredients)) >= MinUpperTotal
  {
  }

  /** The checks are ordered: no ingredients wins over everything, crossed
      constraints over bad ingredient limits, bad limits over the totals,
      and the lower total over the upper one. The five reasons differ. */
  lemma ValidateOrder(ingredients: seq<Ingredient>, constraints: seq<NutrientConstraint>)
    ensures |ingredients| == 0 ==> Validate(ingredients, constraints) == Some(NoIngredientsMessage)
    ensures |ingredients| > 0 && !WellFormed(constraints) ==>
      Validate(ingredients, constraints) == Some(MinAboveMaxMessage)
    ensures (|ingredients| > 0 && WellFormed(constraints)
             && !Ordered(LowerBounds(ingredients), UpperBounds(ingredients))) ==>
      Validate(ingredients, constraints) == Some(InvalidLimitsMessage)
    ensures (|ingredients| > 0 && WellFormed(constraints)
             && Ordered(LowerBounds(ingredients), UpperBounds(ingredients))
             && Sum(LowerBounds(ingredients)) > MaxLowerTotal) ==>
      Validate(ingredients, constraints) == Some(MinimumsExceedMessage)
    ensures Validate(ingredients, constraints) == Some(MaximumsBelowMessage) ==>
      Sum(LowerBounds(ingredients)) <= MaxLowerTotal && Sum(UpperBounds(ingredients)) < MinUpperTotal
    ensures NoIngredientsMessage != MinAboveMaxMessage && MinAboveMaxMessage != InvalidLimitsMessage
      && InvalidLimitsMessage != MinimumsExceedMessage && MinimumsExceedMessage != MaximumsBelowMessage
  {
  }

  /** Constraint lists without crossed bounds, as every preset produces,
      never trip the Min greater than Max rejection. */
  lemma WellFormedPassesConstraintCheck(ingredients: seq<Ingredient>, constraints: seq<NutrientConstraint>)
    requires WellFormed(constraints)
    ensures Validate(ingredients, constraints) != Some(MinAboveMaxMessage)
  {
  }

  function EnergyScore(ingredient: Ingredient): real {
    ingredient.metabolizableEnergy / 1000.0
  }

  function ProteinScore(ingredient: Ingredient): real {
    ingredient.crudeProtein * 0.35
  }

  function AminoScore(ingredient: Ingredient): real {
    ingredient.lysine * 2.8 + ingredient.methionine * 3.3 + ingredient.threonine * 1.9
  }

  /** Vitamins count towards the score, each capped at 2. */
  function MicroScore(ingredient: Ingredient): real {
    Min(ingredient.vitaminA / 1000000.0, 2.0)
      + Min(ingredient.vitaminD3 / 400000.0, 2.0)
      + Min(ingredient.vitaminE / 10000.0, 2.0)
  }

  /** A heuristic nutritional value per kg used by the profit mode; never
      negative. */
  function ProfitPotential(ingredient: Ingredient): (r: real)
    ensures r >= 0.0
    ensures r >= EnergyScore(ingredient) + ProteinScore(ingredient) + AminoScore(ingredient) + MicroScore(ingredient)
  {
    Max(0.0, EnergyScore(ingredient) + ProteinScore(ingredient) + AminoScore(ingredient) + MicroScore(ingredient))
  }

  /** The vitamins add at most 6 to the score, so an ingredient that is
      nothing but vitamins scores at most 6. */
  lemma MicroScoreCapped(ingredient: Ingredient)
    ensures MicroScore(ingredient) <= 6.0
    ensures EnergyScore(ingredient) + ProteinScore(ingredient) + AminoScore(ingredient) <= 0.0 ==>
      ProfitPotential(ingredient) <= 6.0
  {
  }

  /** More of any scored nutrient never lowers the potential. */
  lemma ProfitPotentialMonotone(ingredient: Ingredient, key: NutrientKeys.NutrientKey, v: real)
    requires v >= ingredient.Value(key)
    ensures ProfitPotential(ingredient.WithValue(key, v)) >= ProfitPotential(ingredient)
  {
    var raised := ingredient.WithValue(key, v);
    assert raised.Value(key) == v;
    assert EnergyScore(raised) >= EnergyScore(ingredient);
    assert ProteinScore(raised) >= ProteinScore(ingredient);
    assert AminoScore(raised) >= AminoScore(ingredient);
    assert MicroScore(raised) >= MicroScore(ingredient);
  }

  /** The per-kg objective coefficient of one ingredient. */
  function ObjectiveCoefficient(ingredient: Ingredient, mode: OptimizationMode, profitWeight: real): real {
    match mode
    case LeastCost => ingredient.pricePerKg
    case ProfitMax => ingredient.pricePerKg - profitWeight * ProfitPotential(ingredient)
  }

  function ObjectiveCoefficients(ingredients: seq<Ingredient>, mode: OptimizationMode, profitWeight: real)
    : (r: seq<real>)
    ensures |r| == |ingredients|
  {
    seq(|ingredients|, i requires 0 <= i < |ingredients| => ObjectiveCoefficient(ingredients[i], mode, profitWeight))
  }

  function Prices(ingredients: seq<Ingredient>): (r: seq<real>)
    ensures |r| == |ingredients|
  {
    seq(|ingredients|, i requires 0 <= i < |ingredients| => ingredients[i].pricePerKg)
  }

  /** Least-cost mode optimises the prices themselves; profit mode
      discounts each price by the weighted potential, so with a
      non-negative weight no coefficient exceeds its price. */
  lemma CoefficientsByMode(ingredients: seq<Ingredient>, mode: OptimizationMode, profitWeight: real)
    ensures mode == LeastCost ==> ObjectiveCoefficients(ingredients, mode, profitWeight) == Prices(ingredients)
    ensures mode == ProfitMax && profitWeight >= 0.0 ==>
      forall i :: 0 <= i < |ingredients| ==> ObjectiveCoefficients(ingredients, mode, profitWeight)[i] <= Prices(ingredients)[i]
    ensures mode == ProfitMax && profitWeight == 0.0 ==>
      ObjectiveCoefficients(ingredients, mode, profitWeight) == Prices(ingredients)
  {
    if mode == ProfitMax && profitWeight >= 0.0 {
      forall i | 0 <= i < |ingredients|
        ensures ObjectiveCoefficients(ingredients, mode, profitWeight)[i] <= Prices(ingredients)[i]
      {
        var p := ProfitPotential(ingredients[i]);
        assert profitWeight * p >= 0.0;
      }
    }
  }

  /** Step size of iteration k: 0.12 * 0.998^k, but never below 0.009. */
  function StepSize(iteration: nat): (r: real)
    ensures 0.009 <= r <= 0.12
    ensures iteration == 0 ==> r == 0.12
  {
    PowUnitInterval(0.998, iteration);
    Max(0.009, 0.12 * Pow(0.998, iteration))
  }

  /** Each inclusion moved against the gradient by the step. */
  function GradientStep(inclusions: seq<real>, gradient: seq<real>, step: real): (r: seq<real>)
    requires |gradient| == |inclusions|
    ensures |r| == |inclusions|
  {
    seq(|inclusions|, i requires 0 <= i < |inclusions| => inclusions[i] - step * gradient[i])
  }

  /** A positive step moves every entry against the sign of its gradient. */
  lemma GradientStepDirection(inclusions: seq<real>, gradient: seq<real>, step: real, i: nat)
    requires |gradient| == |inclusions| && i < |inclusions| && step > 0.0
    ensures gradient[i] > 0.0 ==> GradientStep(inclusions, gradient, step)[i] < inclusions[i]
    ensures gradient[i] < 0.0 ==> GradientStep(inclusions, gradient, step)[i] > inclusions[i]
    ensures gradient[i] == 0.0 ==> GradientStep(inclusions, gradient, step)[i] == inclusions[i]
  {
  }

  /** The first restart starts from the midpoints of the bounds; the others
      from an arbitrary draw per restart and ingredient. */
  function StartVector(restart: nat, lower: seq<real>, upper: seq<real>, draw: (nat, nat) -> real): (r: seq<real>)
    requires |lower| == |upper|
    ensures |r| == |lower|
  {
    if restart == 0 then seq(|lower|, i requires 0 <= i < |lower| => (lower[i] + upper[i]) / 2.0)
    else seq(|lower|, i requires 0 <= i < |lower| => draw(restart, i))
  }

  /** The first restart's start lies within ordered bounds. */
  lemma MidpointsWithin(lower: seq<real>, upper: seq<real>, draw: (nat, nat) -> real)
    requires |lower| == |upper| && Ordered(lower, upper)
    ensures Within(StartVector(0, lower, upper, draw), lower, upper)
  {
  }
}
