/** The data of the desktop web port: nine nutrients per ingredient,
    constraints whose bounds may be absent, and a formula held as an
    object from ingredient identifier to inclusion percentage. */
module ElectronTypes {
  import opened Options

  /** The nine nutrient keys, in declaration order. */
  datatype Nutrient =
    | CrudeProtein
    | MetabolizableEnergy
    | Lysine
    | Methionine
    | Threonine
    | Calcium
    | AvailablePhosphorus
    | Sodium
    | LinoleicAcid

  /** One value per nutrient key, as an ingredient's analysis or a formula's totals. */
  datatype NutrientValues = NutrientValues(
    crudeProtein: real,
    metabolizableEnergy: real,
    lysine: real,
    methionine: real,
    threonine: real,
    calcium: real,
    availablePhosphorus: real,
    sodium: real,
    linoleicAcid: real)
  {
    function Get(k: Nutrient): real {
      match k
      case CrudeProtein => crudeProtein
      case MetabolizableEnergy => metabolizableEnergy
      case Lysine => lysine
      case Methionine => methionine
      case Threonine => threonine
      case Calcium => calcium
      case AvailablePhosphorus => availablePhosphorus
      case Sodium => sodium
      case LinoleicAcid => linoleicAcid
    }
  }

  /** Every nutrient at zero: the totals before anything is added. */
  const Zero: NutrientValues := NutrientValues(0.0, 0.0, 0.0, 0.0, 0.0, 0.0, 0.0, 0.0, 0.0)

  /** Key-by-key sum. */
  function Add(a: NutrientValues, b: NutrientValues): (r: NutrientValues)
    ensures forall k :: r.Get(k) == a.Get(k) + b.Get(k)
  {
    NutrientValues(
      a.crudeProtein + b.crudeProtein,
      a.metabolizableEnergy + b.metabolizableEnergy,
      a.lysine + b.lysine,
      a.methionine + b.methionine,
      a.threonine + b.threonine,
      a.calcium + b.calcium,
      a.availablePhosphorus + b.availablePhosphorus,
      a.sodium + b.sodium,
      a.linoleicAcid + b.linoleicAcid)
  }

  /** Key-by-key product with a weight. */
  function Scale(a: NutrientValues, w: real): (r: NutrientValues)
    ensures forall k :: r.Get(k) == a.Get(k) * w
  {
    var r := NutrientValues(
      a.crudeProtein * w,
      a.metabolizableEnergy * w,
      a.lysine * w,
      a.methionine * w,
      a.threonine * w,
      a.calcium * w,
      a.availablePhosphorus * w,
      a.sodium * w,
      a.linoleicAcid * w);
    ScaledKeys(a, w, r);
    r
  }

  /** A record holding each field of `a` times `w` reads, at every key,
      the key's value times `w`. */
  lemma ScaledKeys(a: NutrientValues, w: real, r: NutrientValues)
    requires r.crudeProtein == a.crudeProtein * w && r.metabolizableEnergy == a.metabolizableEnergy * w
    requires r.lysine == a.lysine * w && r.methionine == a.methionine * w && r.threonine == a.threonine * w
    requires r.calcium == a.calcium * w && r.availablePhosphorus == a.availablePhosphorus * w
    requires r.sodium == a.sodium * w && r.linoleicAcid == a.linoleicAcid * w
    ensures forall k :: r.Get(k) == a.Get(k) * w
  {
    forall k ensures r.Get(k) == a.Get(k) * w {
      match k {
        case CrudeProtein =>
        case MetabolizableEnergy =>
        case Lysine =>
        case Methionine =>
        case Threonine =>
        case Calcium =>
        case AvailablePhosphorus =>
        case Sodium =>
        case LinoleicAcid =>
      }
    }
  }

  /** Two value sets that agree on every key are the same. */
  lemma ValuesExtensional(a: NutrientValues, b: NutrientValues)
    requires forall k :: a.Get(k) == b.Get(k)
    ensures a == b
  {
    assert a.crudeProtein == a.Get(CrudeProtein) == b.Get(CrudeProtein) == b.crudeProtein;
    assert a.metabolizableEnergy == a.Get(MetabolizableEnergy) == b.Get(MetabolizableEnergy);
    assert a.lysine == a.Get(Lysine) == b.Get(Lysine);
    assert a.methionine == a.Get(Methionine) == b.Get(Methionine);
    assert a.threonine == a.Get(Threonine) == b.Get(Threonine);
    assert a.calcium == a.Get(Calcium) == b.Get(Calcium);
    assert a.availablePhosphorus == a.Get(AvailablePhosphorus) == b.Get(AvailablePhosphorus);
    assert a.sodium == a.Get(Sodium) == b.Get(Sodium);
    assert a.linoleicAcid == a.Get(LinoleicAcid) == b.Get(LinoleicAcid);
  }

  datatype Ingredient = Ingredient(
    id: string,
    name: string,
    minPercent: real,
    maxPercent: real,
    pricePerKg: real,
    nutrients: NutrientValues)

  /** A nutrient constraint; an absent bound is not checked. */
  datatype Constraint = Constraint(
    key: Nutrient,
    name: string,
    unit: string,
    min: Option<real>,
    max: Option<real>)

  /** An object from identifier to percentage, as its entries in
      enumeration order. */
  type Mix = seq<(string, real)>

  predicate DistinctIds(mix: Mix) {
    forall i, j :: 0 <= i < j < |mix| ==> mix[i].0 != mix[j].0
  }

  /** The value stored under an identifier, if any. */
  function Lookup(mix: Mix, id: string): (r: Option<real>)
    ensures r.None? <==> forall i :: 0 <= i < |mix| ==> mix[i].0 != id
  {
    if mix == [] then None
    else if mix[|mix| - 1].0 == id then Some(mix[|mix| - 1].1)
    else
      var r := Lookup(mix[..|mix| - 1], id);
      assert r.None? ==> forall i :: 0 <= i < |mix| ==> mix[i].0 != id by {
        if r.None? {
          forall i | 0 <= i < |mix| ensures mix[i].0 != id {
            if i < |mix| - 1 {
              assert mix[..|mix| - 1][i] == mix[i];
            }
          }
        }
      }
      assert r.Some? ==> exists i :: 0 <= i < |mix| && mix[i].0 == id by {
        if r.Some? {
          var i :| 0 <= i < |mix| - 1 && mix[..|mix| - 1][i].0 == id;
          assert mix[i].0 == id;
        }
      }
      r
  }

  /** The first position holding an identifier, if any. */
  function IndexOf(mix: Mix, id: string): (r: Option<nat>)
    ensures r.Some? ==> r.value < |mix| && mix[r.value].0 == id
    ensures r.None? <==> forall i :: 0 <= i < |mix| ==> mix[i].0 != id
  {
    if mix == [] then None
    else if mix[0].0 == id then Some(0)
    else
      match IndexOf(mix[1..], id)
      case None =>
        assert forall i :: 1 <= i < |mix| ==> mix[i] == mix[1..][i - 1];
        None
      case Some(j) =>
        assert mix[j + 1] == mix[1..][j];
        Some(j + 1)
  }

  /** Assignment to an object key: an existing entry keeps its place and takes the
      new value; a new identifier is appended. */
  function Put(mix: Mix, id: string, value: real): (r: Mix)
    ensures |r| == |mix| || r == mix + [(id, value)]
    ensures forall i :: 0 <= i < |mix| ==> r[i].0 == mix[i].0
    ensures exists i :: 0 <= i < |r| && r[i] == (id, value)
    ensures forall i :: 0 <= i < |r| && r[i].0 != id ==> i < |mix| && r[i] == mix[i]
  {
    match IndexOf(mix, id)
    case Some(i) =>
      var r := mix[i := (id, value)];
      assert r[i] == (id, value);
      r
    case None =>
      var r := mix + [(id, value)];
      assert r[|mix|] == (id, value);
      r
  }

  /** Assignment keeps the identifiers distinct, and reading back gives the
      value written, leaving every other identifier as it was. */
  lemma PutLookup(mix: Mix, id: string, value: real, other: string)
    requires DistinctIds(mix)
    ensures DistinctIds(Put(mix, id, value))
    ensures Lookup(Put(mix, id, value), id) == Some(value)
    ensures other != id ==> Lookup(Put(mix, id, value), other) == Lookup(mix, other)
  {
    var r := Put(mix, id, value);
    PutDistinct(mix, id, value);
    LookupDistinct(r, id);
    if other != id {
      LookupDistinct(r, other);
      LookupDistinct(mix, other);
    }
  }

  /** Assignment keeps the identifiers distinct. */
  lemma PutDistinct(mix: Mix, id: string, value: real)
    requires DistinctIds(mix)
    ensures DistinctIds(Put(mix, id, value))
  {
    var r := Put(mix, id, value);
    forall i, j | 0 <= i < j < |r| ensures r[i].0 != r[j].0 {
      if j >= |mix| {
        assert r[j] == (id, value);
        assert mix[i].0 != id;
      }
    }
  }

  /** With distinct identifiers the value read is the one at the entry
      carrying the identifier. */
  lemma {:induction false} LookupDistinct(mix: Mix, id: string)
    requires DistinctIds(mix)
    ensures forall i :: 0 <= i < |mix| && mix[i].0 == id ==> Lookup(mix, id) == Some(mix[i].1)
  {
    if mix != [] {
      var init := mix[..|mix| - 1];
      assert DistinctIds(init) by {
        forall i, j | 0 <= i < j < |init| ensures init[i].0 != init[j].0 {
          assert init[i] == mix[i] && init[j] == mix[j];
        }
      }
      LookupDistinct(init, id);
      forall i | 0 <= i < |mix| && mix[i].0 == id ensures Lookup(mix, id) == Some(mix[i].1) {
        if i < |mix| - 1 {
          assert init[i] == mix[i];
        }
      }
    }
  }
}
