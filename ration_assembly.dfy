/** Turning the winning candidate into the optimiser's answer: one
    allocation per ingredient, one assessment per constraint, and the
    status, message and cost figures. */
module RationAssembly {
  import opened Options
  import opened RealMath
  import opened Ingredients
  import opened NutrientConstraints
  import opened NutrientAssessments
  import opened RationSolutions
  import opened NutrientProfiles
  import opened Penalties
  import opened Candidates

  const FeasibleLeastCostMessage: string := "Feasible least-cost formula found. All enabled constraints are satisfied."
  const FeasibleProfitMessage: string := "Feasible profit-oriented formula found. All enabled constraints are satisfied."
  const ApproximationMessage: string := "No fully feasible solution under current limits. Showing best approximation."

  /** The three outcome messages are different from one another. */
  lemma MessagesDistinct()
    ensures ApproximationMessage != FeasibleLeastCostMessage
    ensures ApproximationMessage != FeasibleProfitMessage
    ensures FeasibleLeastCostMessage != FeasibleProfitMessage
  {
    assert |FeasibleLeastCostMessage| == 73;
    assert |ApproximationMessage| == 76;
    assert |FeasibleProfitMessage| == 78;
  }

  /** The assessment of one constraint against a profile: the achieved
      value, and each target only when its bound is enabled. */
  function AssessmentOf(c: NutrientConstraint, profile: Profile): NutrientAssessment {
    NutrientAssessment(
      c.key,
      Achieved(profile, c.key),
      if c.useMin then Some(c.minValue) else None,
      if c.useMax then Some(c.maxValue) else None)
  }

  function Assessments(constraints: seq<NutrientConstraint>, profile: Profile): (r: seq<NutrientAssessment>)
    ensures |r| == |constraints|
  {
    seq(|constraints|, i requires 0 <= i < |constraints| => AssessmentOf(constraints[i], profile))
  }

  /** Assessment i reports on constraint i: same key, a minimum target
      exactly when the minimum is enabled, a maximum target exactly when the
      maximum is enabled. */
  predicate AssessesEach(assessments: seq<NutrientAssessment>, constraints: seq<NutrientConstraint>) {
    && |assessments| == |constraints|
    && forall i :: 0 <= i < |constraints| ==>
      && assessments[i].key == constraints[i].key
      && (assessments[i].minTarget.Some? <==> constraints[i].useMin)
      && (assessments[i].maxTarget.Some? <==> constraints[i].useMax)
      && (constraints[i].useMin ==> assessments[i].minTarget.value == constraints[i].minValue)
      && (constraints[i].useMax ==> assessments[i].maxTarget.value == constraints[i].maxValue)
  }

  /** The assessments report on the constraints one for one, and an
      assessment passes whenever its constraint holds exactly. */
  lemma AssessmentsSpec(constraints: seq<NutrientConstraint>, profile: Profile)
    ensures AssessesEach(Assessments(constraints, profile), constraints)
    ensures forall i :: 0 <= i < |constraints| && Satisfied(constraints[i], Achieved(profile, constraints[i].key)) ==>
      Assessments(constraints, profile)[i].IsGood()
  {
  }

  /** Each target the assessment carries is met up to t times the
      target's scale. */
  predicate NearlyMet(a: NutrientAssessment, t: real) {
    && (a.minTarget.Some? ==> a.achieved >= a.minTarget.value - t * Scale(a.minTarget.value))
    && (a.maxTarget.Some? ==> a.achieved <= a.maxTarget.value + t * Scale(a.maxTarget.value))
  }

  /** When the worst violation is within the feasibility threshold, every
      active constraint's assessment is met up to 0.12% of its scale. */
  lemma FeasibleAssessments(constraints: seq<NutrientConstraint>, profile: Profile)
    requires MaxViolationOf(constraints, profile) <= FeasibleThreshold
    ensures forall i :: 0 <= i < |constraints| && constraints[i].IsActive() ==>
      NearlyMet(Assessments(constraints, profile)[i], FeasibleThreshold)
  {
    forall i | 0 <= i < |constraints| && constraints[i].IsActive()
      ensures NearlyMet(Assessments(constraints, profile)[i], FeasibleThreshold)
    {
      ViolationDominated(constraints, profile, i);
      AssessmentNearlyMet(constraints[i], profile, FeasibleThreshold);
    }
  }

  lemma AssessmentNearlyMet(c: NutrientConstraint, profile: Profile, t: real)
    requires c.IsActive() && t >= 0.0
    requires ConstraintViolation(c, Achieved(profile, c.key)) <= t
    ensures NearlyMet(AssessmentOf(c, profile), t)
  {
    ViolationWithin(c, Achieved(profile, c.key), t);
  }

  /** A mix that is feasible for the solver can still fail an assessment:
      a minimum of 100 missed by 0.1 is a relative deficit of 0.001, below
      the 0.0012 threshold, but far outside the 1e-6 assessment tolerance. */
  lemma FeasibleYetNotGood()
    ensures var c := NutrientConstraint(NutrientKeys.CrudeProtein, true, 100.0, false, 0.0);
      var profile := map[NutrientKeys.CrudeProtein := 99.9];
      && ConstraintViolation(c, Achieved(profile, c.key)) <= FeasibleThreshold
      && !AssessmentOf(c, profile).IsGood()
  {
    var c := NutrientConstraint(NutrientKeys.CrudeProtein, true, 100.0, false, 0.0);
    assert Scale(c.minValue) == 100.0;
    assert Deficit(c, 99.9) == 0.1 / 100.0;
  }

  /** One allocation: the ingredient's identity, its inclusion as a
      percentage and its share of the cost per kg. */
  function AllocationOf(ingredient: Ingredient, share: real): RationAllocation {
    RationAllocation(ingredient.id, ingredient.name, ingredient.group, share * 100.0, share * ingredient.pricePerKg)
  }

  function Allocations(ingredients: seq<Ingredient>, shares: seq<real>): (r: seq<RationAllocation>)
    requires |shares| == |ingredients|
    ensures |r| == |ingredients|
  {
    seq(|ingredients|, i requires 0 <= i < |ingredients| => AllocationOf(ingredients[i], shares[i]))
  }

  /** The shares an allocation list encodes. */
  function Shares(allocations: seq<RationAllocation>): (r: seq<real>)
    ensures |r| == |allocations|
  {
    seq(|allocations|, i requires 0 <= i < |allocations| => allocations[i].inclusionPercent / 100.0)
  }

  function Contributions(allocations: seq<RationAllocation>): (r: seq<real>)
    ensures |r| == |allocations|
  {
    seq(|allocations|, i requires 0 <= i < |allocations| => allocations[i].costContributionPerKg)
  }

  /** Allocation i is ingredient i's, with its identity, and its cost
      contribution is the share it encodes times the ingredient's price. */
  predicate AllocatesEach(allocations: seq<RationAllocation>, ingredients: seq<Ingredient>) {
    && |allocations| == |ingredients|
    && forall i :: 0 <= i < |ingredients| ==>
      && allocations[i].id == ingredients[i].id
      && allocations[i].name == ingredients[i].name
      && allocations[i].group == ingredients[i].group
      && allocations[i].costContributionPerKg == Shares(allocations)[i] * ingredients[i].pricePerKg
  }

  /** The percentages of the allocations encode exactly the shares. */
  lemma AllocationsRoundTrip(ingredients: seq<Ingredient>, shares: seq<real>)
    requires |shares| == |ingredients|
    ensures Shares(Allocations(ingredients, shares)) == shares
  {
    var allocations := Allocations(ingredients, shares);
    forall i | 0 <= i < |shares| ensures Shares(allocations)[i] == shares[i] {
      assert allocations[i].inclusionPercent == shares[i] * 100.0;
    }
  }

  /** The allocations follow the ingredients one for one, and their cost
      contributions add up to the dot product of shares and prices. */
  lemma AllocationsSpec(ingredients: seq<Ingredient>, shares: seq<real>, prices: seq<real>)
    requires |shares| == |ingredients| == |prices|
    requires forall i :: 0 <= i < |ingredients| ==> prices[i] == ingredients[i].pricePerKg
    ensures AllocatesEach(Allocations(ingredients, shares), ingredients)
    ensures Sum(Contributions(Allocations(ingredients, shares))) == Dot(shares, prices)
  {
    AllocationsFollowIngredients(ingredients, shares);
    ContributionsAreProducts(ingredients, shares, prices);
    DotAsSum(shares, prices, Contributions(Allocations(ingredients, shares)));
  }

  lemma AllocationsFollowIngredients(ingredients: seq<Ingredient>, shares: seq<real>)
    requires |shares| == |ingredients|
    ensures AllocatesEach(Allocations(ingredients, shares), ingredients)
  {
    var allocations := Allocations(ingredients, shares);
    AllocationsRoundTrip(ingredients, shares);
    forall i | 0 <= i < |shares|
      ensures allocations[i].costContributionPerKg == Shares(allocations)[i] * ingredients[i].pricePerKg
    {
      calc {
        allocations[i].costContributionPerKg;
        shares[i] * ingredients[i].pricePerKg;
        Shares(allocations)[i] * ingredients[i].pricePerKg;
      }
    }
  }

  lemma ContributionsAreProducts(ingredients: seq<Ingredient>, shares: seq<real>, prices: seq<real>)
    requires |shares| == |ingredients| == |prices|
    requires forall i :: 0 <= i < |ingredients| ==> prices[i] == ingredients[i].pricePerKg
    ensures forall i :: 0 <= i < |shares| ==> Contributions(Allocations(ingredients, shares))[i] == shares[i] * prices[i]
  {
    var contributions := Contributions(Allocations(ingredients, shares));
    forall i | 0 <= i < |shares| ensures contributions[i] == shares[i] * prices[i] {
      calc {
        contributions[i];
        shares[i] * ingredients[i].pricePerKg;
        shares[i] * prices[i];
      }
    }
  }

  /** A dot product is the sum of the element-wise products. */
  lemma {:induction false} DotAsSum(a: seq<real>, b: seq<real>, products: seq<real>)
    requires |a| == |b| == |products|
    requires forall i :: 0 <= i < |a| ==> products[i] == a[i] * b[i]
    ensures Sum(products) == Dot(a, b)
  {
    if |a| > 0 {
      DotAsSum(a[..|a| - 1], b[..|b| - 1], products[..|products| - 1]);
    }
  }

  /** The answer for the winning candidate, which is feasible or the best
      approximation. */
  function Assemble(best: Candidate, feasible: bool, mode: OptimizationMode, ingredients: seq<Ingredient>,
                    constraints: seq<NutrientConstraint>, coefficients: seq<real>): RationSolution
    requires |best.inclusions| == |ingredients| == |coefficients|
  {
    RationSolution(
      if feasible then Feasible else Approximation,
      if !feasible then ApproximationMessage
      else if mode == LeastCost then FeasibleLeastCostMessage
      else FeasibleProfitMessage,
      mode,
      best.cost,
      Dot(best.inclusions, coefficients),
      if feasible then 0.0 else best.maxViolation * 100.0,
      Allocations(ingredients, best.inclusions),
      Assessments(constraints, best.profile))
  }

  /** The status follows the kind of the winner: a feasible winner is
      reported with no violation, an infeasible one with its worst violation
      in percent, which is then above 0.12; the message names the status
      and, for a feasible winner, the mode. */
  lemma AssembleSpec(best: Candidate, feasible: bool, mode: OptimizationMode, ingredients: seq<Ingredient>,
                     constraints: seq<NutrientConstraint>, coefficients: seq<real>)
    requires |best.inclusions| == |ingredients| == |coefficients|
    requires feasible <==> IsFeasible(best)
    ensures var r := Assemble(best, feasible, mode, ingredients, constraints, coefficients);
      && (r.status == Feasible <==> feasible)
      && (r.status == Feasible ==> r.maxViolationPercent == 0.0)
      && (r.status == Approximation ==> r.maxViolationPercent == best.maxViolation * 100.0 > FeasibleThreshold * 100.0)
      && (r.message == ApproximationMessage <==> r.status == Approximation)
      && (r.message == FeasibleProfitMessage <==> r.status == Feasible && mode == ProfitMax)
  {
    MessagesDistinct();
    var r := Assemble(best, feasible, mode, ingredients, constraints, coefficients);
    if feasible && mode == LeastCost {
      assert r.message == FeasibleLeastCostMessage;
    }
  }

  /** The answer reports the winner's mix, cost and objective in the
      requested mode. */
  lemma AssembleReports(best: Candidate, feasible: bool, mode: OptimizationMode, ingredients: seq<Ingredient>,
                        constraints: seq<NutrientConstraint>, coefficients: seq<real>)
    requires |best.inclusions| == |ingredients| == |coefficients|
    ensures var r := Assemble(best, feasible, mode, ingredients, constraints, coefficients);
      && r.optimizationMode == mode
      && r.costPerKg == best.cost
      && Shares(r.allocations) == best.inclusions
      && r.objectivePerKg == Dot(Shares(r.allocations), coefficients)
      && r.assessments == Assessments(constraints, best.profile)
  {
    AllocationsRoundTrip(ingredients, best.inclusions);
  }
}
