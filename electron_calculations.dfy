/** The nutrient and cost sums of the desktop web port, and its fixed
    apparent-metabolisable-energy estimate from crude protein. */
module ElectronCalculations {
  import opened Options
  import opened ElectronTypes

  /** `Math.round`: the nearest integer, halves rounded up. */
  function RoundHalfUp(x: real): (r: int)
    ensures x - 0.5 < r as real <= x + 0.5
  {
    (x + 0.5).Floor
  }

  /** Rounding never reverses an order. */
  lemma RoundHalfUpMonotone(x: real, y: real)
    requires x <= y
    ensures RoundHalfUp(x) <= RoundHalfUp(y)
  {
  }

  const AssumedEtherExtract: real := 3.0
  const AssumedCrudeFiber: real := 2.5
  const AssumedAsh: real := 5.0

  /** The WPSA energy estimate with the ether extract, crude fibre and ash
      fixed, rounded to a whole kcal/kg. Only the crude protein of the
      ingredient enters: the estimate falls by 6.65 kcal for each point of
      protein from 3395.61 at none. */
  function WPSAEnergy(ing: Ingredient): (r: int)
    ensures r == RoundHalfUp(3395.61 - 6.65 * ing.nutrients.crudeProtein)
    ensures 0.0 <= ing.nutrients.crudeProtein <= 100.0 ==> 2731 <= r <= 3396
  {
    var cp := ing.nutrients.crudeProtein;
    var nfe := 100.0 - cp - AssumedEtherExtract - AssumedCrudeFiber - AssumedAsh;
    var amen := 37.13 * cp + 81.68 * AssumedEtherExtract + 35.56 * nfe - 12.82 * AssumedCrudeFiber - 8.22 * cp;
    RoundHalfUp(amen)
  }

  /** More protein never raises the estimate. */
  lemma WPSAEnergyAntitone(a: Ingredient, b: Ingredient)
    requires a.nutrients.crudeProtein <= b.nutrients.crudeProtein
    ensures WPSAEnergy(b) <= WPSAEnergy(a)
  {
    RoundHalfUpMonotone(3395.61 - 6.65 * b.nutrients.crudeProtein, 3395.61 - 6.65 * a.nutrients.crudeProtein);
  }

  /** The lookup of an ingredient in the database by identifier: the first
      ingredient carrying it, or none. */
  function Find(db: seq<Ingredient>, id: string): (r: Option<Ingredient>)
    ensures r.None? <==> forall i :: 0 <= i < |db| ==> db[i].id != id
    ensures r.Some? ==> exists i :: (0 <= i < |db| && db[i] == r.value && r.value.id == id
      && forall j :: 0 <= j < i ==> db[j].id != id)
  {
    if db == [] then None
    else if db[0].id == id then
      Some(db[0])
    else
      var r := Find(db[1..], id);
      assert forall i :: 1 <= i < |db| ==> db[i] == db[1..][i - 1];
      if r.Some? then
        var i :| 0 <= i < |db[1..]| && db[1..][i] == r.value && r.value.id == id
          && forall j :: 0 <= j < i ==> db[1..][j].id != id;
        assert db[i + 1] == r.value;
        assert forall j :: 0 <= j < i + 1 ==> db[j].id != id by {
          forall j | 0 <= j < i + 1 ensures db[j].id != id {
            if j > 0 {
              assert db[j] == db[1..][j - 1];
            }
          }
        }
        r
      else
        r
  }

  /** Among ingredients with distinct identifiers, the one found is the one
      carrying the identifier. */
  lemma FindDistinct(db: seq<Ingredient>, i: nat)
    requires i < |db|
    requires forall a, b :: 0 <= a < b < |db| ==> db[a].id != db[b].id
    ensures Find(db, db[i].id) == Some(db[i])
  {
    var r := Find(db, db[i].id);
    var k :| 0 <= k < |db| && db[k] == r.value && r.value.id == db[i].id
      && forall j :: 0 <= j < k ==> db[j].id != db[i].id;
    assert !(k < i);
    assert !(i < k);
  }

  /** What one entry of the mix adds to the totals: its ingredient's
      analysis weighted by the entry's percentage over 100, or nothing when
      the identifier is not in the database. */
  function Contribution(entry: (string, real), db: seq<Ingredient>): NutrientValues {
    match Find(db, entry.0)
    case None => Zero
    case Some(ing) => Scale(ing.nutrients, entry.1 / 100.0)
  }

  /** The formula's nutrient totals: the contributions of the entries,
      added in enumeration order onto all-zero totals. */
  function FormulaNutrients(mix: Mix, db: seq<Ingredient>): NutrientValues {
    if mix == [] then Zero
    else Add(FormulaNutrients(mix[..|mix| - 1], db), Contribution(mix[|mix| - 1], db))
  }

  /** `calculateFormulaNutrients`: every key starts at zero and each entry
      whose identifier is known adds its weighted analysis. */
  method CalculateFormulaNutrients(mix: Mix, db: seq<Ingredient>) returns (totals: NutrientValues)
    ensures totals == FormulaNutrients(mix, db)
    ensures mix == [] ==> totals == Zero
  {
    totals := Zero;
    var i := 0;
    while i < |mix|
      invariant 0 <= i <= |mix|
      invariant totals == FormulaNutrients(mix[..i], db)
    {
      assert mix[..i + 1][..i] == mix[..i];
      totals := Add(totals, Contribution(mix[i], db));
      i := i + 1;
    }
    assert mix[..|mix|] == mix;
  }

  /** The cost of one entry: its ingredient's price per kilogram weighted
      by the percentage over 100, or nothing for an unknown identifier. */
  function EntryCost(entry: (string, real), db: seq<Ingredient>): real {
    match Find(db, entry.0)
    case None => 0.0
    case Some(ing) => ing.pricePerKg * (entry.1 / 100.0)
  }

  /** The formula's cost per kilogram: the entry costs in enumeration order. */
  function FormulaCost(mix: Mix, db: seq<Ingredient>): real {
    if mix == [] then 0.0
    else FormulaCost(mix[..|mix| - 1], db) + EntryCost(mix[|mix| - 1], db)
  }

  /** `calculateCost`: the running total over the known entries. */
  method CalculateCost(mix: Mix, db: seq<Ingredient>) returns (totalCost: real)
    ensures totalCost == FormulaCost(mix, db)
    ensures mix == [] ==> totalCost == 0.0
  {
    totalCost := 0.0;
    var i := 0;
    while i < |mix|
      invariant 0 <= i <= |mix|
      invariant totalCost == FormulaCost(mix[..i], db)
    {
      assert mix[..i + 1][..i] == mix[..i];
      var found := Find(db, mix[i].0);
      if found.Some? {
        totalCost := totalCost + found.value.pricePerKg * (mix[i].1 / 100.0);
      }
      i := i + 1;
    }
    assert mix[..|mix|] == mix;
  }

  /** The entries whose identifier is in the database. */
  function Known(mix: Mix, db: seq<Ingredient>): (r: Mix)
    ensures forall i :: 0 <= i < |r| ==> Find(db, r[i].0).Some?
    ensures |r| <= |mix|
  {
    if mix == [] then []
    else if Find(db, mix[|mix| - 1].0).Some? then Known(mix[..|mix| - 1], db) + [mix[|mix| - 1]]
    else Known(mix[..|mix| - 1], db)
  }

  /** Unknown identifiers do not change the totals. */
  lemma {:induction false} UnknownNutrientsIgnored(mix: Mix, db: seq<Ingredient>)
    ensures FormulaNutrients(Known(mix, db), db) == FormulaNutrients(mix, db)
  {
    if mix != [] {
      var init := mix[..|mix| - 1];
      var last := mix[|mix| - 1];
      UnknownNutrientsIgnored(init, db);
      if Find(db, last.0).Some? {
        var k := Known(init, db) + [last];
        assert k[..|k| - 1] == Known(init, db);
      } else {
        var t := FormulaNutrients(init, db);
        assert Add(t, Zero) == t;
      }
    }
  }

  /** Unknown identifiers do not change the cost. */
  lemma {:induction false} UnknownCostIgnored(mix: Mix, db: seq<Ingredient>)
    ensures FormulaCost(Known(mix, db), db) == FormulaCost(mix, db)
  {
    if mix != [] {
      var init := mix[..|mix| - 1];
      var last := mix[|mix| - 1];
      UnknownCostIgnored(init, db);
      if Find(db, last.0).Some? {
        var k := Known(init, db) + [last];
        assert k[..|k| - 1] == Known(init, db);
      }
    }
  }

  /** The totals and the cost of two mixes enumerated one after the other
      are the sums of their totals and costs. */
  lemma {:induction false} Additive(a: Mix, b: Mix, db: seq<Ingredient>)
    ensures forall k :: FormulaNutrients(a + b, db).Get(k) == FormulaNutrients(a, db).Get(k) + FormulaNutrients(b, db).Get(k)
    ensures FormulaCost(a + b, db) == FormulaCost(a, db) + FormulaCost(b, db)
  {
    if b == [] {
      assert a + b == a;
    } else {
      var init := b[..|b| - 1];
      Additive(a, init, db);
      assert (a + b)[..|a + b| - 1] == a + init;
      assert (a + b)[|a + b| - 1] == b[|b| - 1];
    }
  }

  /** A mix of one entry: a known identifier contributes its analysis and
      price weighted by the percentage over 100, an unknown one nothing. */
  lemma SingleEntry(id: string, pct: real, db: seq<Ingredient>)
    ensures Find(db, id).None? ==> FormulaNutrients([(id, pct)], db) == Zero && FormulaCost([(id, pct)], db) == 0.0
    ensures Find(db, id).Some? ==>
      FormulaNutrients([(id, pct)], db) == Scale(Find(db, id).value.nutrients, pct / 100.0)
      && FormulaCost([(id, pct)], db) == Find(db, id).value.pricePerKg * (pct / 100.0)
  {
    var m: Mix := [(id, pct)];
    assert m[..0] == [];
    var c := Contribution((id, pct), db);
    assert FormulaNutrients(m, db) == Add(Zero, c);
    assert Add(Zero, c) == c;
  }

  /** With non-negative prices and percentages the cost is non-negative. */
  lemma {:induction false} CostNonNegative(mix: Mix, db: seq<Ingredient>)
    requires forall i :: 0 <= i < |db| ==> 0.0 <= db[i].pricePerKg
    requires forall i :: 0 <= i < |mix| ==> 0.0 <= mix[i].1
    ensures 0.0 <= FormulaCost(mix, db)
  {
    if mix != [] {
      var last := mix[|mix| - 1];
      CostNonNegative(mix[..|mix| - 1], db);
      var found := Find(db, last.0);
      if found.Some? {
        var i :| 0 <= i < |db| && db[i] == found.value && found.value.id == last.0
          && forall j :: 0 <= j < i ==> db[j].id != last.0;
        assert 0.0 <= db[i].pricePerKg;
      }
    }
  }
}
