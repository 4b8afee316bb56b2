/** The descent direction of the penalised objective: the objective
    coefficients, corrected for every violated bound by the derivative of
    its squared relative violation along each ingredient. */
module Gradients {
  import opened RealMath
  import opened Ingredients
  import opened NutrientConstraints
  import opened NutrientProfiles
  import opened Penalties

  /** Weight of the penalty in the objective. */
  const PenaltyWeight: real := 95.0

  /** An enabled minimum that the profile misses. */
  predicate PullsUp(c: NutrientConstraint, achieved: real) {
    c.IsActive() && c.useMin && Deficit(c, achieved) > 0.0
  }

  /** An enabled maximum that the profile exceeds. */
  predicate PushesDown(c: NutrientConstraint, achieved: real) {
    c.IsActive() && c.useMax && Excess(c, achieved) > 0.0
  }

  function MinFactor(c: NutrientConstraint, achieved: real): real {
    -2.0 * PenaltyWeight * Deficit(c, achieved) / Scale(c.minValue)
  }

  function MaxFactor(c: NutrientConstraint, achieved: real): real {
    2.0 * PenaltyWeight * Excess(c, achieved) / Scale(c.maxValue)
  }

  /** A missed minimum has a negative factor, an exceeded maximum a positive one. */
  lemma FactorSigns(c: NutrientConstraint, achieved: real)
    ensures PullsUp(c, achieved) ==> MinFactor(c, achieved) < 0.0
    ensures PushesDown(c, achieved) ==> MaxFactor(c, achieved) > 0.0
  {
  }

  /** g plus factor times values, entry by entry. */
  function AddScaled(g: seq<real>, factor: real, values: seq<real>): (r: seq<real>)
    requires |values| == |g|
    ensures |r| == |g|
  {
    seq(|g|, i requires 0 <= i < |g| => g[i] + factor * values[i])
  }

  /** The gradient after one more constraint has been taken into account. */
  function ConstraintGradient(g: seq<real>, c: NutrientConstraint, ingredients: seq<Ingredient>, profile: Profile)
    : (r: seq<real>)
    requires |g| == |ingredients|
    ensures |r| == |g|
  {
    var achieved := Achieved(profile, c.key);
    var column := Column(ingredients, c.key);
    var lowered := if PullsUp(c, achieved) then AddScaled(g, MinFactor(c, achieved), column) else g;
    if PushesDown(c, achieved) then AddScaled(lowered, MaxFactor(c, achieved), column) else lowered
  }

  /** The objective coefficients corrected for every constraint, left to right. */
  function GradientOf(coefficients: seq<real>, cs: seq<NutrientConstraint>, ingredients: seq<Ingredient>,
                      profile: Profile): (r: seq<real>)
    requires |coefficients| == |ingredients|
    ensures |r| == |coefficients|
  {
    if cs == [] then coefficients
    else ConstraintGradient(GradientOf(coefficients, cs[..|cs| - 1], ingredients, profile), cs[|cs| - 1], ingredients, profile)
  }

  /** Adds factor times values to every entry of the gradient buffer. */
  method AddScaledTo(gradient: array<real>, factor: real, values: seq<real>)
    requires gradient.Length == |values|
    modifies gradient
    ensures gradient[..] == AddScaled(old(gradient[..]), factor, values)
  {
    for index := 0 to gradient.Length
      invariant forall i :: 0 <= i < index ==> gradient[i] == old(gradient[i]) + factor * values[i]
      invariant forall i :: index <= i < gradient.Length ==> gradient[i] == old(gradient[i])
    {
      gradient[index] := gradient[index] + factor * values[index];
    }
    assert forall i :: 0 <= i < gradient.Length ==> gradient[..][i] == AddScaled(old(gradient[..]), factor, values)[i];
  }

  /** The gradient at a profile: start from the objective coefficients and,
      for every active constraint whose minimum is missed or maximum
      exceeded, add the factor times the nutrient's column. */
  method ComputeGradient(coefficients: seq<real>, constraints: seq<NutrientConstraint>,
                         ingredients: seq<Ingredient>, profile: Profile) returns (gradient: seq<real>)
    requires |coefficients| == |ingredients|
    ensures gradient == GradientOf(coefficients, constraints, ingredients, profile)
  {
    var buffer := new real[|coefficients|](i requires 0 <= i < |coefficients| => coefficients[i]);
    assert buffer[..] == coefficients;
    for j := 0 to |constraints|
      invariant buffer[..] == GradientOf(coefficients, constraints[..j], ingredients, profile)
    {
      var constraint := constraints[j];
      assert constraints[..j + 1][..j] == constraints[..j];
      if constraint.IsActive() {
        var achieved := Achieved(profile, constraint.key);
        var nutrientValues := Column(ingredients, constraint.key);
        if constraint.useMin {
          var deficit := Deficit(constraint, achieved);
          if deficit > 0.0 {
            AddScaledTo(buffer, MinFactor(constraint, achieved), nutrientValues);
          }
        }
        if constraint.useMax {
          var excess := Excess(constraint, achieved);
          if excess > 0.0 {
            AddScaledTo(buffer, MaxFactor(constraint, achieved), nutrientValues);
          }
        }
      }
    }
    assert constraints[..|constraints|] == constraints;
    gradient := buffer[..];
  }

  /** When every constraint is satisfied the gradient is the objective
      coefficients themselves. */
  lemma {:induction false} GradientWhenSatisfied(coefficients: seq<real>, cs: seq<NutrientConstraint>,
                                                 ingredients: seq<Ingredient>, profile: Profile)
    requires |coefficients| == |ingredients|
    requires MaxViolationOf(cs, profile) == 0.0
    ensures GradientOf(coefficients, cs, ingredients, profile) == coefficients
  {
    if cs != [] {
      GradientWhenSatisfied(coefficients, cs[..|cs| - 1], ingredients, profile);
    }
  }

  /** Every nutrient value of every ingredient is non-negative. */
  predicate NonNegativeNutrients(ingredients: seq<Ingredient>) {
    forall i, k :: 0 <= i < |ingredients| ==> ingredients[i].Value(k) >= 0.0
  }

  /** With non-negative nutrient values, missed minimums only lower the
      gradient and exceeded maximums only raise it: when no maximum is
      exceeded no entry is above its coefficient, and when no minimum is
      missed none is below it. */
  lemma GradientSigns(coefficients: seq<real>, cs: seq<NutrientConstraint>,
                      ingredients: seq<Ingredient>, profile: Profile)
    requires |coefficients| == |ingredients| && NonNegativeNutrients(ingredients)
    ensures (forall i :: 0 <= i < |cs| ==> !PushesDown(cs[i], Achieved(profile, cs[i].key))) ==>
      forall j :: 0 <= j < |coefficients| ==> GradientOf(coefficients, cs, ingredients, profile)[j] <= coefficients[j]
    ensures (forall i :: 0 <= i < |cs| ==> !PullsUp(cs[i], Achieved(profile, cs[i].key))) ==>
      forall j :: 0 <= j < |coefficients| ==> GradientOf(coefficients, cs, ingredients, profile)[j] >= coefficients[j]
  {
    if forall i :: 0 <= i < |cs| ==> !PushesDown(cs[i], Achieved(profile, cs[i].key)) {
      GradientBelow(coefficients, cs, ingredients, profile);
    }
    if forall i :: 0 <= i < |cs| ==> !PullsUp(cs[i], Achieved(profile, cs[i].key)) {
      GradientAbove(coefficients, cs, ingredients, profile);
    }
  }

  lemma {:induction false} GradientBelow(coefficients: seq<real>, cs: seq<NutrientConstraint>,
                                         ingredients: seq<Ingredient>, profile: Profile)
    requires |coefficients| == |ingredients| && NonNegativeNutrients(ingredients)
    requires forall i :: 0 <= i < |cs| ==> !PushesDown(cs[i], Achieved(profile, cs[i].key))
    ensures forall j :: 0 <= j < |coefficients| ==> GradientOf(coefficients, cs, ingredients, profile)[j] <= coefficients[j]
  {
    if cs != [] {
      var init := cs[..|cs| - 1];
      var c := cs[|cs| - 1];
      var a := Achieved(profile, c.key);
      assert forall i :: 0 <= i < |init| ==> init[i] == cs[i];
      GradientBelow(coefficients, init, ingredients, profile);
      var g := GradientOf(coefficients, init, ingredients, profile);
      var column := Column(ingredients, c.key);
      FactorSigns(c, a);
      forall j | 0 <= j < |g| ensures MinFactor(c, a) < 0.0 ==> MinFactor(c, a) * column[j] <= 0.0 {
        assert column[j] >= 0.0;
      }
    }
  }

  lemma {:induction false} GradientAbove(coefficients: seq<real>, cs: seq<NutrientConstraint>,
                                         ingredients: seq<Ingredient>, profile: Profile)
    requires |coefficients| == |ingredients| && NonNegativeNutrients(ingredients)
    requires forall i :: 0 <= i < |cs| ==> !PullsUp(cs[i], Achieved(profile, cs[i].key))
    ensures forall j :: 0 <= j < |coefficients| ==> GradientOf(coefficients, cs, ingredients, profile)[j] >= coefficients[j]
  {
    if cs != [] {
      var init := cs[..|cs| - 1];
      var c := cs[|cs| - 1];
      var a := Achieved(profile, c.key);
      assert forall i :: 0 <= i < |init| ==> init[i] == cs[i];
      GradientAbove(coefficients, init, ingredients, profile);
      var g := GradientOf(coefficients, init, ingredients, profile);
      var column := Column(ingredients, c.key);
      FactorSigns(c, a);
      forall j | 0 <= j < |g| ensures MaxFactor(c, a) > 0.0 ==> MaxFactor(c, a) * column[j] >= 0.0 {
        assert column[j] >= 0.0;
      }
    }
  }
}
