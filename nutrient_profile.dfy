/** The nutrient profile of a mix: for every nutrient, the inclusion-weighted
    sum of the ingredients' values. */
module NutrientProfiles {
  import opened RealMath
  import opened NutrientKeys
  import opened Ingredients

  type Profile = map<NutrientKey, real>

  /** The value a profile records for a key, 0 when the key is missing. */
  function Achieved(profile: Profile, key: NutrientKey): real {
    if key in profile then profile[key] else 0.0
  }

  /** Contribution of the first n ingredients to one nutrient. */
  function Level(inclusions: seq<real>, ingredients: seq<Ingredient>, key: NutrientKey, n: nat): real
    requires n <= |inclusions| <= |ingredients|
  {
    if n == 0 then 0.0
    else Level(inclusions, ingredients, key, n - 1) + Weighted(inclusions[n - 1], ingredients[n - 1], key)
  }

  /** The column of one nutrient across the ingredients. */
  function Column(ingredients: seq<Ingredient>, key: NutrientKey): (r: seq<real>)
    ensures |r| == |ingredients|
    ensures forall i :: 0 <= i < |r| ==> r[i] == ingredients[i].Value(key)
  {
    seq(|ingredients|, i requires 0 <= i < |ingredients| => ingredients[i].Value(key))
  }

  /** The nutrient level of a full mix is the dot product of the inclusions
      with the nutrient's column. */
  lemma {:induction false} LevelIsDot(inclusions: seq<real>, ingredients: seq<Ingredient>, key: NutrientKey, n: nat)
    requires n <= |inclusions| <= |ingredients|
    ensures Level(inclusions, ingredients, key, n) == Dot(inclusions[..n], Column(ingredients, key)[..n])
  {
    if n > 0 {
      LevelIsDot(inclusions, ingredients, key, n - 1);
      DotStep(inclusions, Column(ingredients, key)[..|inclusions|], n - 1);
      assert inclusions[..n][..n - 1] == inclusions[..n - 1];
      assert Column(ingredients, key)[..n][..n - 1] == Column(ingredients, key)[..n - 1];
    }
  }

  /** With non-negative inclusions, a nutrient level lies between the
      smallest and the largest value of the nutrient, times the total
      inclusion: a mix summing to one is a convex combination. */
  lemma LevelBounds(inclusions: seq<real>, ingredients: seq<Ingredient>, key: NutrientKey,
                    n: nat, low: real, high: real)
    requires n <= |inclusions| <= |ingredients|
    requires forall i :: 0 <= i < n ==> inclusions[i] >= 0.0
    requires forall i :: 0 <= i < n ==> low <= ingredients[i].Value(key) <= high
    ensures low * Sum(inclusions[..n]) <= Level(inclusions, ingredients, key, n) <= high * Sum(inclusions[..n])
  {
    LevelAbove(inclusions, ingredients, key, n, low);
    LevelBelow(inclusions, ingredients, key, n, high);
  }

  lemma {:induction false} LevelAbove(inclusions: seq<real>, ingredients: seq<Ingredient>, key: NutrientKey,
                                      n: nat, low: real)
    requires n <= |inclusions| <= |ingredients|
    requires forall i :: 0 <= i < n ==> inclusions[i] >= 0.0
    requires forall i :: 0 <= i < n ==> low <= ingredients[i].Value(key)
    ensures low * Sum(inclusions[..n]) <= Level(inclusions, ingredients, key, n)
  {
    if n > 0 {
      LevelAbove(inclusions, ingredients, key, n - 1, low);
      SumStep(inclusions, n - 1);
      var w := inclusions[n - 1];
      WeightedBetween(w, ingredients[n - 1], key, low, ingredients[n - 1].Value(key));
      Distribute(low, Sum(inclusions[..n - 1]), w, Sum(inclusions[..n]));
    }
  }

  lemma {:induction false} LevelBelow(inclusions: seq<real>, ingredients: seq<Ingredient>, key: NutrientKey,
                                      n: nat, high: real)
    requires n <= |inclusions| <= |ingredients|
    requires forall i :: 0 <= i < n ==> inclusions[i] >= 0.0
    requires forall i :: 0 <= i < n ==> ingredients[i].Value(key) <= high
    ensures Level(inclusions, ingredients, key, n) <= high * Sum(inclusions[..n])
  {
    if n > 0 {
      LevelBelow(inclusions, ingredients, key, n - 1, high);
      SumStep(inclusions, n - 1);
      var w := inclusions[n - 1];
      WeightedBetween(w, ingredients[n - 1], key, ingredients[n - 1].Value(key), high);
      Distribute(high, Sum(inclusions[..n - 1]), w, Sum(inclusions[..n]));
    }
  }

  lemma WeightedBetween(w: real, ingredient: Ingredient, key: NutrientKey, low: real, high: real)
    requires w >= 0.0 && low <= ingredient.Value(key) <= high
    ensures low * w <= Weighted(w, ingredient, key) <= high * w
  {
    var v := ingredient.Value(key);
    ScaleOrder(low, v, w);
    ScaleOrder(v, high, w);
  }

  /** Scaling by a non-negative weight keeps an order. */
  lemma ScaleOrder(a: real, b: real, w: real)
    requires a <= b && w >= 0.0
    ensures a * w <= b * w
  {
    var d := b - a;
    assert d * w >= 0.0;
    assert b * w == a * w + d * w;
  }

  lemma Distribute(a: real, x: real, y: real, z: real)
    requires z == x + y
    ensures a * z == a * x + a * y
  {
  }

  /** The profile of a mix: a dictionary holding every nutrient, each at its
      level. Inclusions are paired with ingredients by position. */
  method ProfileFor(inclusions: seq<real>, ingredients: seq<Ingredient>) returns (profile: Profile)
    requires |inclusions| <= |ingredients|
    ensures forall k :: k in profile
    ensures forall k :: profile[k] == Level(inclusions, ingredients, k, |inclusions|)
  {
    AllCasesComplete();
    profile := map k: NutrientKey | k in AllCases :: 0.0;
    for index := 0 to |inclusions|
      invariant forall k :: k in profile
      invariant forall k :: profile[k] == Level(inclusions, ingredients, k, index)
    {
      profile := AddIngredient(profile, inclusions[index], ingredients[index]);
    }
  }

  /** One ingredient's contribution to one nutrient at a given inclusion. */
  function Weighted(inclusion: real, ingredient: Ingredient, key: NutrientKey): real {
    inclusion * ingredient.Value(key)
  }

  /** Adds one ingredient's weighted values to every nutrient of a profile. */
  method AddIngredient(profile: Profile, inclusion: real, ingredient: Ingredient) returns (next: Profile)
    requires forall k :: k in profile
    ensures forall k :: k in next
    ensures forall k :: next[k] == profile[k] + Weighted(inclusion, ingredient, k)
  {
    AllCasesComplete();
    next := profile;
    for j := 0 to |AllCases|
      invariant forall k :: k in next
      invariant forall k :: next[k] == profile[k] + (if Ordinal(k) < j then Weighted(inclusion, ingredient, k) else 0.0)
    {
      var key := AllCases[j];
      assert Ordinal(key) == j by {
        assert AllCases[Ordinal(key)] == key;
      }
      next := next[key := next[key] + Weighted(inclusion, ingredient, key)];
    }
  }

  /** A profile holding every nutrient reports its stored values. */
  lemma AchievedInProfile(profile: Profile, key: NutrientKey)
    requires key in profile
    ensures Achieved(profile, key) == profile[key]
  {
  }
}
