/** The desktop web port's optimiser: a fixed number of steps that move
    every percentage against its price plus a share of the constraint
    penalty, clamp it to the ingredient's bounds and rescale the whole to
    100; then the percentages above 0.01 are rounded to two decimals and the
    result is assessed and reported. */
module ElectronOptimizer {
  import opened Options
  import opened RealMath
  import opened ElectronTypes
  import opened ElectronCalculations
  import opened ElectronResults

  const MaxIterations: nat := 1000
  const LearningRate: real := 0.01
  /** Weight of the constraint penalty in every ingredient's gradient. */
  const PenaltyWeight: real := 0.01

  /** The squared amount by which a value misses each bound it is given. */
  function Violation(c: Constraint, v: real): real {
    (if c.min.Some? && v < c.min.value then Square(c.min.value - v) else 0.0)
    + (if c.max.Some? && v > c.max.value then Square(v - c.max.value) else 0.0)
  }

  /** A violation is never negative, and is zero exactly when the value
      meets the constraint. */
  lemma ViolationZeroIffSatisfied(c: Constraint, v: real)
    ensures Violation(c, v) >= 0.0
    ensures Violation(c, v) == 0.0 <==> Satisfied(c, v)
  {
    if c.min.Some? && v < c.min.value {
      SquarePositive(c.min.value - v);
    }
    if c.max.Some? && v > c.max.value {
      SquarePositive(v - c.max.value);
    }
  }

  /** The total penalty of the constraints at the formula's totals. */
  function Penalty(cons: seq<Constraint>, totals: NutrientValues): real {
    if cons == [] then 0.0
    else Penalty(cons[..|cons| - 1], totals) + Violation(cons[|cons| - 1], totals.Get(cons[|cons| - 1].key))
  }

  /** The penalty is never negative, and is zero exactly when every
      constraint is met. */
  lemma {:induction false} PenaltyZeroIffSatisfied(cons: seq<Constraint>, totals: NutrientValues)
    ensures Penalty(cons, totals) >= 0.0
    ensures Penalty(cons, totals) == 0.0 <==>
      forall i :: 0 <= i < |cons| ==> Satisfied(cons[i], totals.Get(cons[i].key))
  {
    if cons != [] {
      var init := cons[..|cons| - 1];
      var last := cons[|cons| - 1];
      PenaltyZeroIffSatisfied(init, totals);
      ViolationZeroIffSatisfied(last, totals.Get(last.key));
      if Penalty(cons, totals) == 0.0 {
        forall i | 0 <= i < |cons| ensures Satisfied(cons[i], totals.Get(cons[i].key)) {
          if i < |cons| - 1 {
            assert cons[i] == init[i];
          }
        }
      }
      if forall i :: 0 <= i < |cons| ==> Satisfied(cons[i], totals.Get(cons[i].key)) {
        forall i | 0 <= i < |init| ensures Satisfied(init[i], totals.Get(init[i].key)) {
          assert init[i] == cons[i];
        }
      }
    }
  }

  /** The penalty loop: each present bound that is missed adds the square
      of the miss. */
  method TotalPenalty(cons: seq<Constraint>, totals: NutrientValues) returns (totalPenalty: real)
    ensures totalPenalty == Penalty(cons, totals)
  {
    totalPenalty := 0.0;
    var i := 0;
    while i < |cons|
      invariant 0 <= i <= |cons|
      invariant totalPenalty == Penalty(cons[..i], totals)
    {
      assert cons[..i + 1][..i] == cons[..i];
      var c := cons[i];
      var value := totals.Get(c.key);
      if c.min.Some? && value < c.min.value {
        totalPenalty := totalPenalty + Square(c.min.value - value);
      }
      if c.max.Some? && value > c.max.value {
        totalPenalty := totalPenalty + Square(value - c.max.value);
      }
      i := i + 1;
    }
    assert cons[..|cons|] == cons;
  }

  /** The formula object of a step: each selected ingredient's identifier
      assigned its current percentage, in selection order. */
  function MixOf(ings: seq<Ingredient>, pct: seq<real>): (r: Mix)
    requires |pct| == |ings|
    ensures |r| <= |ings|
  {
    if ings == [] then []
    else Put(MixOf(ings[..|ings| - 1], pct[..|pct| - 1]), ings[|ings| - 1].id, pct[|pct| - 1])
  }

  /** With distinct identifiers the formula object holds every selected
      ingredient with its percentage, in selection order. */
  lemma {:induction false} MixOfDistinct(ings: seq<Ingredient>, pct: seq<real>)
    requires |pct| == |ings|
    requires UniqueIds(ings)
    ensures MixOf(ings, pct) == Pairs(ings, pct)
  {
    if ings != [] {
      var n := |ings|;
      DistinctPrefix(ings);
      MixOfDistinct(ings[..n - 1], pct[..n - 1]);
      AppendNew(ings, pct);
    }
  }

  /** No two selected ingredients share an identifier. */
  predicate UniqueIds(ings: seq<Ingredient>) {
    forall a, b :: 0 <= a < b < |ings| ==> ings[a].id != ings[b].id
  }

  /** Dropping the last ingredient keeps the identifiers distinct. */
  lemma DistinctPrefix(ings: seq<Ingredient>)
    requires ings != []
    requires UniqueIds(ings)
    ensures UniqueIds(ings[..|ings| - 1])
  {
    var init := ings[..|ings| - 1];
    forall a, b | 0 <= a < b < |init| ensures init[a].id != init[b].id {
      assert init[a] == ings[a] && init[b] == ings[b];
    }
  }

  /** When the object of the earlier ingredients holds their pairs and the
      last identifier is new, the last assignment appends its pair. */
  lemma AppendNew(ings: seq<Ingredient>, pct: seq<real>)
    requires |pct| == |ings| && ings != []
    requires UniqueIds(ings)
    requires MixOf(ings[..|ings| - 1], pct[..|pct| - 1]) == Pairs(ings[..|ings| - 1], pct[..|pct| - 1])
    ensures MixOf(ings, pct) == Pairs(ings, pct)
  {
    var n := |ings|;
    var init, pinit := ings[..n - 1], pct[..n - 1];
    var prefix := Pairs(init, pinit);
    var id := ings[n - 1].id;
    forall i | 0 <= i < |prefix| ensures prefix[i].0 != id {
      assert prefix[i].0 == init[i].id == ings[i].id;
    }
    assert IndexOf(prefix, id) == None;
    var entry := (id, pct[n - 1]);
    assert MixOf(ings, pct) == Put(prefix, id, pct[n - 1]) == prefix + [entry];
    assert Pairs(ings, pct) == prefix + [entry];
  }

  /** Each ingredient's identifier with its percentage, in order. */
  function Pairs(ings: seq<Ingredient>, pct: seq<real>): (r: Mix)
    requires |pct| == |ings|
    ensures |r| == |ings|
    ensures forall i :: 0 <= i < |ings| ==> r[i] == (ings[i].id, pct[i])
  {
    if ings == [] then []
    else Pairs(ings[..|ings| - 1], pct[..|pct| - 1]) + [(ings[|ings| - 1].id, pct[|pct| - 1])]
  }

  /** The formula object of one more ingredient assigns that ingredient's
      percentage to the object of the ones before it. */
  lemma MixOfExtend(ings: seq<Ingredient>, pct: seq<real>, i: nat)
    requires |pct| == |ings| && i < |ings|
    ensures MixOf(ings[..i + 1], pct[..i + 1]) == Put(MixOf(ings[..i], pct[..i]), ings[i].id, pct[i])
  {
    var a, p := ings[..i + 1], pct[..i + 1];
    assert a[..|a| - 1] == ings[..i] && p[..|p| - 1] == pct[..i];
    assert a[|a| - 1] == ings[i] && p[|p| - 1] == pct[i];
  }

  /** The current formula object, built entry by entry. */
  method BuildCurrentMix(ings: seq<Ingredient>, percentages: array<real>) returns (mix: Mix)
    requires percentages.Length == |ings|
    ensures mix == MixOf(ings, percentages[..])
  {
    var pct := percentages[..];
    mix := [];
    var i := 0;
    while i < |ings|
      invariant 0 <= i <= |ings|
      invariant mix == MixOf(ings[..i], pct[..i])
    {
      MixOfExtend(ings, pct, i);
      mix := Put(mix, ings[i].id, pct[i]);
      i := i + 1;
    }
    assert ings[..|ings|] == ings;
    assert pct[..|pct|] == pct;
  }

  /** One ingredient's percentage after the step: moved down by the
      learning rate times its price plus the weighted penalty, then held to
      the ingredient's bounds, the lower bound winning when they cross. */
  function ClampedShare(ing: Ingredient, p: real, totalPenalty: real): (r: real)
    ensures ing.minPercent <= r
    ensures ing.minPercent <= ing.maxPercent ==> r <= ing.maxPercent
    ensures ing.maxPercent < ing.minPercent ==> r == ing.minPercent
  {
    Max(ing.minPercent, Min(ing.maxPercent, p - LearningRate * (ing.pricePerKg + totalPenalty * PenaltyWeight)))
  }

  function Clamped(ings: seq<Ingredient>, pct: seq<real>, totalPenalty: real): (r: seq<real>)
    requires |pct| == |ings|
    ensures |r| == |ings|
  {
    seq(|ings|, i requires 0 <= i < |ings| => ClampedShare(ings[i], pct[i], totalPenalty))
  }

  /** Each percentage divided by the sum and scaled to 100. */
  function Rescaled(c: seq<real>, sum: real): (r: seq<real>)
    requires sum != 0.0
    ensures |r| == |c|
  {
    seq(|c|, i requires 0 <= i < |c| => c[i] / sum * 100.0)
  }

  /** One iteration on the percentages; `None` when the clamped
      percentages sum to zero, where the division leaves every percentage
      not-a-number for the rest of the run. */
  function Step(ings: seq<Ingredient>, cons: seq<Constraint>, pct: seq<real>): (r: Option<seq<real>>)
    requires |pct| == |ings|
    ensures r.Some? ==> |r.value| == |ings|
  {
    var totals := FormulaNutrients(MixOf(ings, pct), ings);
    var clamped := Clamped(ings, pct, Penalty(cons, totals));
    var sum := Sum(clamped);
    if sum == 0.0 then None else Some(Rescaled(clamped, sum))
  }

  /** Equal shares of 100. */
  function Initial(n: nat): (r: seq<real>)
    requires n > 0
    ensures |r| == n
  {
    seq(n, _ => 100.0 / n as real)
  }

  /** The equal shares sum to 100. */
  lemma InitialSumsTo100(n: nat)
    requires n > 0
    ensures Sum(Initial(n)) == 100.0
  {
    SumConstantBounds(Initial(n), 100.0 / n as real);
    assert n as real * (100.0 / n as real) == 100.0;
  }

  /** Rescaling divides the sum by `sum` and multiplies it by 100. */
  lemma {:induction false} SumRescaled(c: seq<real>, sum: real)
    requires sum != 0.0
    ensures Sum(Rescaled(c, sum)) == Sum(c) / sum * 100.0
  {
    if c != [] {
      var n := |c|;
      SumRescaled(c[..n - 1], sum);
      assert Rescaled(c, sum)[..n - 1] == Rescaled(c[..n - 1], sum);
      ScaledSum(Sum(c[..n - 1]), c[n - 1], sum);
    }
  }

  lemma ScaledSum(a: real, b: real, sum: real)
    requires sum != 0.0
    ensures a / sum * 100.0 + b / sum * 100.0 == (a + b) / sum * 100.0
  {
  }

  /** Every step that does not end in not-a-number leaves percentages
      summing to exactly 100. */
  lemma StepSumsTo100(ings: seq<Ingredient>, cons: seq<Constraint>, pct: seq<real>)
    requires |pct| == |ings|
    ensures Step(ings, cons, pct).Some? ==> Sum(Step(ings, cons, pct).value) == 100.0
  {
    var totals := FormulaNutrients(MixOf(ings, pct), ings);
    var clamped := Clamped(ings, pct, Penalty(cons, totals));
    var sum := Sum(clamped);
    if sum != 0.0 {
      assert Step(ings, cons, pct) == Some(Rescaled(clamped, sum));
      SumRescaled(clamped, sum);
      assert sum / sum == 1.0;
    } else {
      assert Step(ings, cons, pct) == None;
    }
  }

  /** The rescaling can carry a percentage past its ingredient's maximum:
      two ingredients capped at 10% are each held to 10 and then rescaled
      back to 50. */
  lemma RescaleMayLeaveBounds()
    ensures var ing := Ingredient("a", "A", 0.0, 10.0, 0.0, Zero);
      var ings := [ing, ing.(id := "b", name := "B")];
      Step(ings, [], [50.0, 50.0]) == Some([50.0, 50.0]) && 50.0 > ing.maxPercent
  {
    var ing := Ingredient("a", "A", 0.0, 10.0, 0.0, Zero);
    var ings := [ing, ing.(id := "b", name := "B")];
    var totals := FormulaNutrients(MixOf(ings, [50.0, 50.0]), ings);
    assert Penalty([], totals) == 0.0;
    var clamped := Clamped(ings, [50.0, 50.0], 0.0);
    assert clamped == [10.0, 10.0];
    assert Sum(clamped) == 20.0 by {
      var one := [10.0];
      assert one[..0] == [];
      assert Sum(one) == 10.0;
      assert clamped[..1] == one;
    }
    assert Rescaled(clamped, 20.0) == [50.0, 50.0];
  }

  /** The percentages after `k` iterations. */
  function Iterate(ings: seq<Ingredient>, cons: seq<Constraint>, k: nat): (r: Option<seq<real>>)
    requires |ings| > 0
    ensures r.Some? ==> |r.value| == |ings|
  {
    if k == 0 then Some(Initial(|ings|))
    else match Iterate(ings, cons, k - 1)
      case None => None
      case Some(pct) => Step(ings, cons, pct)
  }

  /** The step's clamp: the gradient array, then every percentage moved
      down and held to its ingredient's bounds. */
  method ApplyGradient(ings: seq<Ingredient>, percentages: array<real>, totalPenalty: real)
    requires percentages.Length == |ings|
    modifies percentages
    ensures percentages[..] == Clamped(ings, old(percentages[..]), totalPenalty)
  {
    var gradient := new real[|ings|](_ => 0.0);
    var i := 0;
    while i < |ings|
      invariant 0 <= i <= |ings|
      invariant forall j :: 0 <= j < i ==> gradient[j] == ings[j].pricePerKg + totalPenalty * PenaltyWeight
      modifies gradient
    {
      gradient[i] := ings[i].pricePerKg + totalPenalty * PenaltyWeight;
      i := i + 1;
    }
    i := 0;
    while i < percentages.Length
      invariant 0 <= i <= percentages.Length
      invariant forall j :: 0 <= j < i ==> percentages[j] == ClampedShare(ings[j], old(percentages[j]), totalPenalty)
      invariant forall j :: i <= j < percentages.Length ==> percentages[j] == old(percentages[j])
      modifies percentages
    {
      percentages[i] := percentages[i] - LearningRate * gradient[i];
      percentages[i] := Max(ings[i].minPercent, Min(ings[i].maxPercent, percentages[i]));
      i := i + 1;
    }
  }

  /** The sum of the percentages, added left to right from 0. */
  method SumOf(percentages: array<real>) returns (sum: real)
    ensures sum == Sum(percentages[..])
  {
    sum := 0.0;
    var i := 0;
    while i < percentages.Length
      invariant 0 <= i <= percentages.Length
      invariant sum == Sum(percentages[..i])
    {
      SumStep(percentages[..], i);
      assert percentages[..][..i + 1] == percentages[..i + 1];
      sum := sum + percentages[i];
      i := i + 1;
    }
    assert percentages[..percentages.Length] == percentages[..];
  }

  /** The rescaled copy of the percentages. */
  method Rescale(percentages: array<real>, sum: real) returns (scaled: array<real>)
    requires sum != 0.0
    ensures fresh(scaled)
    ensures scaled[..] == Rescaled(percentages[..], sum)
  {
    scaled := new real[percentages.Length];
    var i := 0;
    while i < percentages.Length
      invariant 0 <= i <= percentages.Length
      invariant forall j :: 0 <= j < i ==> scaled[j] == percentages[j] / sum * 100.0
      modifies scaled
    {
      scaled[i] := percentages[i] / sum * 100.0;
      i := i + 1;
    }
  }

  /** After any number of iterations that did not end in not-a-number the
      percentages sum to exactly 100. */
  lemma {:induction false} IterateSumsTo100(ings: seq<Ingredient>, cons: seq<Constraint>, k: nat)
    requires |ings| > 0
    ensures Iterate(ings, cons, k).Some? ==> Sum(Iterate(ings, cons, k).value) == 100.0
  {
    if k == 0 {
      InitialSumsTo100(|ings|);
    } else if Iterate(ings, cons, k - 1).Some? {
      StepSumsTo100(ings, cons, Iterate(ings, cons, k - 1).value);
    }
  }

  /** An iteration from live percentages takes one step; one from
      not-a-number percentages stays not-a-number. */
  lemma IterateStep(ings: seq<Ingredient>, cons: seq<Constraint>, k: nat, pct: seq<real>)
    requires |ings| > 0
    ensures Iterate(ings, cons, k) == Some(pct) ==> Iterate(ings, cons, k + 1) == Step(ings, cons, pct)
    ensures Iterate(ings, cons, k) == None ==> Iterate(ings, cons, k + 1) == None
  {
  }

  /** One pass of the loop body on live percentages: the formula object,
      its totals, the penalty, the clamp, the sum and the rescaling. */
  method DescentStep(ings: seq<Ingredient>, cons: seq<Constraint>, percentages: array<real>)
    returns (next: array<real>, poisoned: bool)
    requires percentages.Length == |ings|
    modifies percentages
    ensures fresh(next) || next == percentages
    ensures next.Length == |ings|
    ensures Step(ings, cons, old(percentages[..])) == if poisoned then None else Some(next[..])
  {
    var mix := BuildCurrentMix(ings, percentages);
    var nutrients := CalculateFormulaNutrients(mix, ings);
    var totalPenalty := TotalPenalty(cons, nutrients);
    ApplyGradient(ings, percentages, totalPenalty);
    var sum := SumOf(percentages);
    if sum == 0.0 {
      next, poisoned := percentages, true;
    } else {
      next := Rescale(percentages, sum);
      poisoned := false;
    }
  }

  /** One turn of the descent loop: a live run takes a step, a run that
      became not-a-number stays so. */
  method Iteration(ings: seq<Ingredient>, cons: seq<Constraint>, percentages: array<real>, poisoned: bool,
                   ghost iter: nat)
    returns (next: array<real>, nextPoisoned: bool)
    requires |ings| > 0 && percentages.Length == |ings|
    requires poisoned ==> Iterate(ings, cons, iter) == None
    requires !poisoned ==> Iterate(ings, cons, iter) == Some(percentages[..])
    modifies percentages
    ensures fresh(next) || next == percentages
    ensures next.Length == |ings|
    ensures nextPoisoned ==> Iterate(ings, cons, iter + 1) == None
    ensures !nextPoisoned ==> Iterate(ings, cons, iter + 1) == Some(next[..])
  {
    IterateStep(ings, cons, iter, percentages[..]);
    if poisoned {
      next, nextPoisoned := percentages, true;
    } else {
      next, nextPoisoned := DescentStep(ings, cons, percentages);
    }
  }

  /** n equal percentages of 100 / n each. */
  method EqualShares(n: nat) returns (percentages: array<real>)
    requires n > 0
    ensures fresh(percentages) && percentages[..] == Initial(n)
  {
    percentages := new real[n](_ => 100.0 / n as real);
  }

  /** The descent loop, run for `steps` iterations (1000 in the optimiser).
      A run whose percentages became not-a-number stays so: every
      comparison with them fails and every sum with them is not-a-number. */
  method Descend(ings: seq<Ingredient>, cons: seq<Constraint>, steps: nat) returns (state: Option<seq<real>>)
    requires |ings| > 0
    ensures state == Iterate(ings, cons, steps)
  {
    var n := |ings|;
    var percentages := EqualShares(n);
    var poisoned := false;
    var iter := 0;
    while iter < steps
      invariant 0 <= iter <= steps
      invariant fresh(percentages) && percentages.Length == n
      invariant poisoned ==> Iterate(ings, cons, iter) == None
      invariant !poisoned ==> Iterate(ings, cons, iter) == Some(percentages[..])
    {
      percentages, poisoned := Iteration(ings, cons, percentages, poisoned, iter);
      iter := iter + 1;
    }
    state := if poisoned then None else Some(percentages[..]);
  }

  /** A percentage rounded half up to two decimals. */
  function Round2(p: real): (r: real)
    ensures p - 0.005 < r <= p + 0.005
    ensures p > 0.01 ==> r >= 0.01
  {
    RoundHalfUp(p * 100.0) as real / 100.0
  }

  /** The final formula object: every percentage above 0.01 rounded to two
      decimals and assigned to its ingredient's identifier. */
  function Kept(ings: seq<Ingredient>, pct: seq<real>): (r: Mix)
    requires |pct| == |ings|
  {
    if ings == [] then []
    else
      var rest := Kept(ings[..|ings| - 1], pct[..|pct| - 1]);
      var p := pct[|pct| - 1];
      if p > 0.01 then Put(rest, ings[|ings| - 1].id, Round2(p)) else rest
  }

  /** `e` is some kept ingredient's rounded percentage, at least 0.01. */
  predicate KeptFrom(ings: seq<Ingredient>, pct: seq<real>, e: (string, real))
    requires |pct| == |ings|
  {
    e.1 >= 0.01 && exists i :: 0 <= i < |ings| && ings[i].id == e.0 && pct[i] > 0.01 && e.1 == Round2(pct[i])
  }

  /** Every entry of `mix` is some kept ingredient's rounded percentage. */
  predicate AllKeptFrom(ings: seq<Ingredient>, pct: seq<real>, mix: Mix)
    requires |pct| == |ings|
  {
    forall k :: 0 <= k < |mix| ==> KeptFrom(ings, pct, mix[k])
  }

  /** Every entry of the final formula object is a kept ingredient's
      rounded percentage, at least 0.01, and no identifier occurs twice. */
  lemma {:induction false} KeptEntries(ings: seq<Ingredient>, pct: seq<real>)
    requires |pct| == |ings|
    ensures DistinctIds(Kept(ings, pct))
    ensures AllKeptFrom(ings, pct, Kept(ings, pct))
  {
    if ings != [] {
      var n := |ings|;
      KeptEntries(ings[..n - 1], pct[..n - 1]);
      if pct[n - 1] > 0.01 {
        KeptPut(ings, pct);
      } else {
        var r := Kept(ings, pct);
        forall k | 0 <= k < |r| ensures KeptFrom(ings, pct, r[k]) {
          KeptFromPrefix(ings, pct, r[k]);
        }
      }
    }
  }

  /** An entry kept from all but the last ingredient is kept from all. */
  lemma KeptFromPrefix(ings: seq<Ingredient>, pct: seq<real>, e: (string, real))
    requires |pct| == |ings| > 0
    requires KeptFrom(ings[..|ings| - 1], pct[..|pct| - 1], e)
    ensures KeptFrom(ings, pct, e)
  {
    var init, pinit := ings[..|ings| - 1], pct[..|pct| - 1];
    var i :| 0 <= i < |init| && init[i].id == e.0 && pinit[i] > 0.01 && e.1 == Round2(pinit[i]);
    assert ings[i] == init[i] && pct[i] == pinit[i];
  }

  /** Keeping the last ingredient assigns its rounded percentage and keeps
      the entries kept before it. */
  lemma KeptPut(ings: seq<Ingredient>, pct: seq<real>)
    requires |pct| == |ings| > 0 && pct[|pct| - 1] > 0.01
    requires DistinctIds(Kept(ings[..|ings| - 1], pct[..|pct| - 1]))
    requires AllKeptFrom(ings[..|ings| - 1], pct[..|pct| - 1], Kept(ings[..|ings| - 1], pct[..|pct| - 1]))
    ensures DistinctIds(Kept(ings, pct))
    ensures AllKeptFrom(ings, pct, Kept(ings, pct))
  {
    var n := |ings|;
    var rest := Kept(ings[..n - 1], pct[..n - 1]);
    var id, v := ings[n - 1].id, Round2(pct[n - 1]);
    PutDistinct(rest, id, v);
    var r := Put(rest, id, v);
    assert r == Kept(ings, pct);
    forall k | 0 <= k < |r| ensures KeptFrom(ings, pct, r[k]) {
      if r[k].0 == id {
        var m :| 0 <= m < |r| && r[m] == (id, v);
        assert m == k;
        assert ings[n - 1].id == r[k].0 && r[k].1 == Round2(pct[n - 1]);
      } else {
        assert k < |rest| && r[k] == rest[k];
        assert KeptFrom(ings[..n - 1], pct[..n - 1], rest[k]);
        KeptFromPrefix(ings, pct, r[k]);
      }
    }
  }

  /** A percentage just above 0.01 is kept and rounded to exactly 0.01, so
      it enters the cost and the nutrient totals, but the report lists only
      entries above 0.01 and leaves it out. */
  lemma PennyEntryUnlisted()
    ensures var ings := [Ingredient("salt", "Salt", 0.0, 1.0, 0.1, Zero)];
      Kept(ings, [0.012]) == [("salt", 0.01)] && Listed(ings, Kept(ings, [0.012])) == []
  {
    var ings := [Ingredient("salt", "Salt", 0.0, 1.0, 0.1, Zero)];
    assert ings[..0] == [];
    assert Round2(0.012) == 0.01;
    var kept: Mix := [("salt", 0.01)];
    assert Kept(ings, [0.012]) == Put([], "salt", 0.01);
    assert kept[..0] == [];
  }

  /** The final formula object of a run: empty once the percentages are
      not-a-number, since no comparison with them holds. */
  function FinalMix(ings: seq<Ingredient>, state: Option<seq<real>>): Mix
    requires state.Some? ==> |state.value| == |ings|
  {
    match state
    case None => []
    case Some(pct) => Kept(ings, pct)
  }

  /** The loop that builds the final formula object. */
  method BuildFinalMix(ings: seq<Ingredient>, pct: seq<real>) returns (result: Mix)
    requires |pct| == |ings|
    ensures result == Kept(ings, pct)
  {
    result := [];
    var i := 0;
    while i < |ings|
      invariant 0 <= i <= |ings|
      invariant result == Kept(ings[..i], pct[..i])
    {
      assert ings[..i + 1][..i] == ings[..i];
      assert pct[..i + 1][..i] == pct[..i];
      if pct[i] > 0.01 {
        result := Put(result, ings[i].id, RoundHalfUp(pct[i] * 100.0) as real / 100.0);
      }
      i := i + 1;
    }
    assert ings[..|ings|] == ings;
    assert pct[..|pct|] == pct;
  }

  /** `optimizeFormulation`. */
  method OptimizeFormulation(ings: seq<Ingredient>, cons: seq<Constraint>) returns (r: FormulationResult)
    ensures |ings| == 0 ==> r == FormulationResult([], [], 0.0, Infeasible, NoIngredientsMessage)
    ensures |ings| > 0 ==>
      var mix := FinalMix(ings, Iterate(ings, cons, MaxIterations));
      && r.totalCost == FormulaCost(mix, ings)
      && |r.nutrients| == |cons|
      && (forall i :: 0 <= i < |cons| ==> r.nutrients[i] == Assessed(cons[i], FormulaNutrients(mix, ings)))
      && (r.status == Feasible <==> forall i :: 0 <= i < |cons| ==> r.nutrients[i].status == Ok)
      && r.ingredients == IngredientResults(ings, mix)
      && Descending(r.ingredients)
      && (forall i :: 0 <= i < |r.ingredients| ==> r.ingredients[i].percentage > 0.01)
      && r.message == (if r.status == Feasible then FoundMessage(|r.ingredients|) else ApproximatedMessage)
  {
    if |ings| == 0 {
      return FormulationResult([], [], 0.0, Infeasible, NoIngredientsMessage);
    }
    var state := Descend(ings, cons, MaxIterations);
    var result: Mix := [];
    if state.Some? {
      result := BuildFinalMix(ings, state.value);
    }
    var finalNutrients := CalculateFormulaNutrients(result, ings);
    var cost := CalculateCost(result, ings);
    var nutrientResults, feasible := AssessNutrients(cons, finalNutrients);
    var ingredientResults := SortByPercentage(Listed(ings, result));
    IngredientResultsShape(ings, result);
    r := Conclude(ingredientResults, nutrientResults, cost, feasible);
  }
}
