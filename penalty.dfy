/** The solver's measure of how badly a nutrient profile misses its
    constraints: squared relative deficits and excesses summed into a
    penalty, and the worst single relative violation. */
module Penalties {
  import opened RealMath
  import opened NutrientConstraints
  import opened NutrientProfiles

  /** Violations are taken relative to the bound, but never relative to
      less than 1. */
  function Scale(bound: real): (r: real)
    ensures r >= 1.0 && r >= Abs(bound)
  {
    Max(Abs(bound), 1.0)
  }

  /** How far, relative to the minimum, the achieved value falls short of it. */
  function Deficit(c: NutrientConstraint, achieved: real): (r: real)
    ensures r >= 0.0
    ensures r > 0.0 <==> achieved < c.minValue
  {
    Max(0.0, (c.minValue - achieved) / Scale(c.minValue))
  }

  /** How far, relative to the maximum, the achieved value exceeds it. */
  function Excess(c: NutrientConstraint, achieved: real): (r: real)
    ensures r >= 0.0
    ensures r > 0.0 <==> achieved > c.maxValue
  {
    Max(0.0, (achieved - c.maxValue) / Scale(c.maxValue))
  }

  /** The deficit when the minimum is enabled, 0 otherwise. */
  function MinViolation(c: NutrientConstraint, achieved: real): real {
    if c.useMin then Deficit(c, achieved) else 0.0
  }

  /** The excess when the maximum is enabled, 0 otherwise. */
  function MaxViolation(c: NutrientConstraint, achieved: real): real {
    if c.useMax then Excess(c, achieved) else 0.0
  }

  /** The squared violations one constraint adds to the penalty. An inactive
      constraint adds nothing. */
  function ConstraintPenalty(c: NutrientConstraint, achieved: real): real {
    if !c.IsActive() then 0.0
    else Square(MinViolation(c, achieved)) + Square(MaxViolation(c, achieved))
  }

  /** The larger of one constraint's two violations. */
  function ConstraintViolation(c: NutrientConstraint, achieved: real): real {
    if !c.IsActive() then 0.0
    else Max(MinViolation(c, achieved), MaxViolation(c, achieved))
  }

  /** Both bounds that are enabled hold exactly. */
  predicate Satisfied(c: NutrientConstraint, achieved: real) {
    (c.useMin ==> achieved >= c.minValue) && (c.useMax ==> achieved <= c.maxValue)
  }

  /** The sum of the constraints' squared violations, left to right. */
  function PenaltyOf(cs: seq<NutrientConstraint>, profile: Profile): (r: real)
    ensures r >= 0.0
  {
    if cs == [] then 0.0
    else
      var c := cs[|cs| - 1];
      PenaltyOf(cs[..|cs| - 1], profile) + ConstraintPenalty(c, Achieved(profile, c.key))
  }

  /** The worst violation over the constraints, 0 when there is none. */
  function MaxViolationOf(cs: seq<NutrientConstraint>, profile: Profile): (r: real)
    ensures r >= 0.0
  {
    if cs == [] then 0.0
    else
      var c := cs[|cs| - 1];
      Max(MaxViolationOf(cs[..|cs| - 1], profile), ConstraintViolation(c, Achieved(profile, c.key)))
  }

  /** Penalty and worst violation of a profile, accumulated constraint by
      constraint over the active ones. */
  method Evaluate(profile: Profile, constraints: seq<NutrientConstraint>) returns (penalty: real, maxViolation: real)
    ensures penalty == PenaltyOf(constraints, profile)
    ensures maxViolation == MaxViolationOf(constraints, profile)
  {
    penalty, maxViolation := 0.0, 0.0;
    for i := 0 to |constraints|
      invariant penalty == PenaltyOf(constraints[..i], profile)
      invariant maxViolation == MaxViolationOf(constraints[..i], profile)
    {
      var constraint := constraints[i];
      assert constraints[..i + 1][..i] == constraints[..i];
      if constraint.IsActive() {
        var achieved := Achieved(profile, constraint.key);
        if constraint.useMin {
          var deficit := Deficit(constraint, achieved);
          penalty := penalty + Square(deficit);
          maxViolation := Max(maxViolation, deficit);
        }
        if constraint.useMax {
          var excess := Excess(constraint, achieved);
          penalty := penalty + Square(excess);
          maxViolation := Max(maxViolation, excess);
        }
      }
    }
    assert constraints[..|constraints|] == constraints;
  }

  /** The worst violation is at least every single constraint's violation. */
  lemma {:induction false} ViolationDominated(cs: seq<NutrientConstraint>, profile: Profile, i: nat)
    requires i < |cs|
    ensures ConstraintViolation(cs[i], Achieved(profile, cs[i].key)) <= MaxViolationOf(cs, profile)
  {
    if i < |cs| - 1 {
      ViolationDominated(cs[..|cs| - 1], profile, i);
    }
  }

  /** ... and it is the violation of one of them, unless it is 0. */
  lemma {:induction false} ViolationAttained(cs: seq<NutrientConstraint>, profile: Profile)
    ensures MaxViolationOf(cs, profile) == 0.0
      || exists i :: 0 <= i < |cs| && ConstraintViolation(cs[i], Achieved(profile, cs[i].key)) == MaxViolationOf(cs, profile)
  {
    if cs != [] {
      var init := cs[..|cs| - 1];
      ViolationAttained(init, profile);
      if MaxViolationOf(cs, profile) != 0.0
        && MaxViolationOf(cs, profile) == MaxViolationOf(init, profile)
      {
        var i :| 0 <= i < |init| && ConstraintViolation(init[i], Achieved(profile, init[i].key)) == MaxViolationOf(init, profile);
        assert cs[i] == init[i];
      }
    }
  }

  /** A constraint's violation is 0 exactly when its enabled bounds hold. */
  lemma ViolationZeroIff(c: NutrientConstraint, achieved: real)
    ensures ConstraintViolation(c, achieved) == 0.0 <==> Satisfied(c, achieved)
  {
  }

  /** The worst violation is 0 exactly when every constraint is satisfied. */
  lemma MaxViolationZeroIff(cs: seq<NutrientConstraint>, profile: Profile)
    ensures MaxViolationOf(cs, profile) == 0.0 <==>
      forall i :: 0 <= i < |cs| ==> Satisfied(cs[i], Achieved(profile, cs[i].key))
  {
    if MaxViolationOf(cs, profile) == 0.0 {
      forall i | 0 <= i < |cs| ensures Satisfied(cs[i], Achieved(profile, cs[i].key)) {
        ViolationDominated(cs, profile, i);
        ViolationZeroIff(cs[i], Achieved(profile, cs[i].key));
      }
    } else {
      ViolationAttained(cs, profile);
      var i :| 0 <= i < |cs| && ConstraintViolation(cs[i], Achieved(profile, cs[i].key)) == MaxViolationOf(cs, profile);
      ViolationZeroIff(cs[i], Achieved(profile, cs[i].key));
    }
  }

  /** A violation of at most t means each enabled bound holds up to t times
      its scale; this is what the 0.0012 feasibility threshold allows. */
  lemma ViolationWithin(c: NutrientConstraint, achieved: real, t: real)
    requires c.IsActive() && t >= 0.0
    ensures ConstraintViolation(c, achieved) <= t <==>
      && (c.useMin ==> achieved >= c.minValue - t * Scale(c.minValue))
      && (c.useMax ==> achieved <= c.maxValue + t * Scale(c.maxValue))
  {
    RatioAtMost(c.minValue - achieved, Scale(c.minValue), t);
    RatioAtMost(achieved - c.maxValue, Scale(c.maxValue), t);
  }

  lemma RatioAtMost(x: real, scale: real, t: real)
    requires scale > 0.0
    ensures x / scale <= t <==> x <= t * scale
  {
    if x / scale <= t {
      assert x == (x / scale) * scale;
      assert (x / scale) * scale <= t * scale;
    } else {
      assert x == (x / scale) * scale;
      assert (x / scale) * scale > t * scale;
    }
  }

  /** The squared worst violation never exceeds the penalty. */
  lemma {:induction false} SquaredMaxBelowPenalty(cs: seq<NutrientConstraint>, profile: Profile)
    ensures Square(MaxViolationOf(cs, profile)) <= PenaltyOf(cs, profile)
  {
    if cs != [] {
      var c := cs[|cs| - 1];
      var a := Achieved(profile, c.key);
      var init := cs[..|cs| - 1];
      SquaredMaxBelowPenalty(init, profile);
      SquareNonNegative(MinViolation(c, a));
      SquareNonNegative(MaxViolation(c, a));
      assert Square(ConstraintViolation(c, a)) <= ConstraintPenalty(c, a) by {
        if c.IsActive() {
          SquareMonotone(MinViolation(c, a), MaxViolation(c, a));
        }
      }
      SquareMonotone(MaxViolationOf(init, profile), ConstraintViolation(c, a));
    }
  }

  /** The square of the larger of two non-negative numbers is the larger square. */
  lemma SquareMonotone(a: real, b: real)
    requires a >= 0.0 && b >= 0.0
    ensures Square(Max(a, b)) == Max(Square(a), Square(b))
  {
    if a <= b {
      assert a * a <= b * a <= b * b;
    } else {
      assert b * b <= a * b <= a * a;
    }
  }

  /** Each constraint adds at most twice the square of the worst violation,
      so the penalty is at most 2 * |cs| times that square. */
  lemma {:induction false} PenaltyBelowMax(cs: seq<NutrientConstraint>, profile: Profile, m: real)
    requires m >= 0.0
    requires forall i :: 0 <= i < |cs| ==> ConstraintViolation(cs[i], Achieved(profile, cs[i].key)) <= m
    ensures PenaltyOf(cs, profile) <= Times(|cs|, 2.0 * Square(m))
  {
    if cs != [] {
      var init := cs[..|cs| - 1];
      var c := cs[|cs| - 1];
      var a := Achieved(profile, c.key);
      assert forall i :: 0 <= i < |init| ==> init[i] == cs[i];
      PenaltyBelowMax(init, profile, m);
      assert ConstraintViolation(c, a) <= m;
      if c.IsActive() {
        SquareBelow(MinViolation(c, a), m);
        SquareBelow(MaxViolation(c, a), m);
      }
    }
  }

  lemma SquareNonNegative(x: real)
    ensures Square(x) >= 0.0
  {
  }

  lemma SquareBelow(a: real, m: real)
    requires 0.0 <= a <= m
    ensures Square(a) <= Square(m)
  {
    assert a * a <= a * m <= m * m;
  }

  /** The penalty is 0 exactly when the worst violation is 0. */
  lemma PenaltyZeroIff(cs: seq<NutrientConstraint>, profile: Profile)
    ensures PenaltyOf(cs, profile) == 0.0 <==> MaxViolationOf(cs, profile) == 0.0
  {
    var m := MaxViolationOf(cs, profile);
    if m == 0.0 {
      forall i | 0 <= i < |cs| ensures ConstraintViolation(cs[i], Achieved(profile, cs[i].key)) <= m {
        ViolationDominated(cs, profile, i);
      }
      PenaltyBelowMax(cs, profile, m);
      TimesZero(|cs|);
    } else {
      SquaredMaxBelowPenalty(cs, profile);
      SquarePositive(m);
    }
  }

  lemma {:induction false} TimesZero(n: nat)
    ensures Times(n, 2.0 * Square(0.0)) == 0.0
  {
    if n > 0 {
      TimesZero(n - 1);
    }
  }
}
