/** Nutrient bounds a formula must respect, and the presets that fill them
    in for a bird type and feeding goal (fixed tables, the broiler
    day-dependent workbook equations, and the layer and rooster workbook
    sheets). */
module NutrientConstraints {
  import opened NutrientKeys
  import opened RealMath

  datatype BirdType = Broiler | Layer | Rooster

  datatype FeedingGoal = Starter | Grower | Finisher | Maintenance

  datatype NutrientConstraint = NutrientConstraint(
    key: NutrientKey,
    useMin: bool,
    minValue: real,
    useMax: bool,
    maxValue: real)
  {
    /** A constraint takes part in solving when either bound is enabled. */
    predicate IsActive() {
      useMin || useMax
    }
  }

  /** Every constraint with both bounds enabled has min <= max: the lists
      the solver accepts without the "Min greater than Max" rejection. */
  predicate WellFormed(cs: seq<NutrientConstraint>) {
    forall i :: 0 <= i < |cs| && cs[i].useMin && cs[i].useMax ==> cs[i].minValue <= cs[i].maxValue
  }

  /** One constraint per key, in key declaration order, enabling exactly the
      bounds that have a target; a missing target reads as 0. */
  function ConstraintsFromTargets(minTargets: map<NutrientKey, real>, maxTargets: map<NutrientKey, real>)
    : (r: seq<NutrientConstraint>)
    ensures |r| == |AllCases|
    ensures forall i :: 0 <= i < |r| ==> r[i].key == AllCases[i]
    ensures forall i :: 0 <= i < |r| ==>
      && (r[i].useMin <==> AllCases[i] in minTargets)
      && (r[i].useMax <==> AllCases[i] in maxTargets)
      && r[i].minValue == (if AllCases[i] in minTargets then minTargets[AllCases[i]] else 0.0)
      && r[i].maxValue == (if AllCases[i] in maxTargets then maxTargets[AllCases[i]] else 0.0)
  {
    seq(|AllCases|, i requires 0 <= i < |AllCases| =>
      var key := AllCases[i];
      NutrientConstraint(
        key,
        key in minTargets,
        if key in minTargets then minTargets[key] else 0.0,
        key in maxTargets,
        if key in maxTargets then maxTargets[key] else 0.0))
  }

  /** Whenever a key has both targets, the minimum is not above the maximum. */
  predicate TargetsConsistent(minTargets: map<NutrientKey, real>, maxTargets: map<NutrientKey, real>) {
    forall k :: k in minTargets && k in maxTargets ==> minTargets[k] <= maxTargets[k]
  }

  lemma ConsistentTargetsWellFormed(minTargets: map<NutrientKey, real>, maxTargets: map<NutrientKey, real>)
    requires TargetsConsistent(minTargets, maxTargets)
    ensures WellFormed(ConstraintsFromTargets(minTargets, maxTargets))
  {
  }

  // ---------------------------------------------------------------- fixed presets

  function PresetMinTargets(bird: BirdType, goal: FeedingGoal): map<NutrientKey, real> {
    match (bird, goal)
    case (Broiler, Starter) =>
      map[CrudeProtein := 22.0, MetabolizableEnergy := 3200.0, Lysine := 1.10, Methionine := 0.50,
          Threonine := 0.80, Calcium := 1.00, AvailablePhosphorus := 0.45, Sodium := 0.20,
          LinoleicAcid := 1.00]
    case (Broiler, Grower) =>
      map[CrudeProtein := 20.0, MetabolizableEnergy := 3200.0, Lysine := 1.00, Methionine := 0.38,
          Threonine := 0.74, Calcium := 0.90, AvailablePhosphorus := 0.35, Sodium := 0.18,
          LinoleicAcid := 1.00]
    case (Broiler, Finisher) =>
      map[CrudeProtein := 18.0, MetabolizableEnergy := 3200.0, Lysine := 0.88, Methionine := 0.32,
          Threonine := 0.68, Calcium := 0.80, AvailablePhosphorus := 0.30, Sodium := 0.18,
          LinoleicAcid := 1.00]
    case (Layer, _) =>
      map[CrudeProtein := 16.0, MetabolizableEnergy := 2800.0, Lysine := 0.77, Methionine := 0.32,
          Threonine := 0.59, Calcium := 3.60, AvailablePhosphorus := 0.35, Sodium := 0.16,
          LinoleicAcid := 1.00]
    case _ =>
      map[CrudeProtein := 14.0, MetabolizableEnergy := 2700.0, Lysine := 0.60, Methionine := 0.25,
          Threonine := 0.50, Calcium := 1.20, AvailablePhosphorus := 0.30, Sodium := 0.15,
          LinoleicAcid := 0.80]
  }

  function PresetMaxTargets(bird: BirdType, goal: FeedingGoal): map<NutrientKey, real> {
    match (bird, goal)
    case (Broiler, Starter) => map[Calcium := 1.20, Sodium := 0.25]
    case (Broiler, Grower) => map[Calcium := 1.10, Sodium := 0.24]
    case (Broiler, Finisher) => map[Calcium := 1.00, Sodium := 0.24]
    case (Layer, _) => map[Calcium := 4.20, Sodium := 0.22]
    case _ => map[Calcium := 1.60, Sodium := 0.21]
  }

  function Preset(bird: BirdType, goal: FeedingGoal): seq<NutrientConstraint> {
    ConstraintsFromTargets(PresetMinTargets(bird, goal), PresetMaxTargets(bird, goal))
  }

  /** The fixed presets list every key once, in order, cap only calcium and
      sodium, and never put a minimum above its maximum. */
  lemma PresetShape(bird: BirdType, goal: FeedingGoal)
    ensures |Preset(bird, goal)| == |AllCases|
    ensures forall i :: 0 <= i < |Preset(bird, goal)| ==> Preset(bird, goal)[i].key == AllCases[i]
    ensures forall i :: 0 <= i < |Preset(bird, goal)| ==>
      (Preset(bird, goal)[i].useMax <==> AllCases[i] in {Calcium, Sodium})
    ensures WellFormed(Preset(bird, goal))
  {
    var mins, maxs := PresetMinTargets(bird, goal), PresetMaxTargets(bird, goal);
    assert forall k :: k in maxs <==> k in {Calcium, Sodium};
    assert Calcium in mins && Sodium in mins;
    assert mins[Calcium] <= maxs[Calcium] && mins[Sodium] <= maxs[Sodium];
    ConsistentTargetsWellFormed(mins, maxs);
  }

  // ---------------------------------------------------------------- workbook presets

  datatype WorkbookRequirement = WorkbookRequirement(
    metabolizableEnergy: real,
    crudeProtein: real,
    lysine: real,
    methioninePlusCystine: real,
    threonine: real,
    calcium: real,
    availablePhosphorus: real,
    sodium: real,
    linoleicAcid: real)

  /** Calcium is capped at the larger of +0.20 and +10% over its minimum. */
  function CalciumCap(calcium: real): (r: real)
    ensures r >= calcium + 0.20 && r >= calcium * 1.1
    ensures r == calcium + 0.20 || r == calcium * 1.1
  {
    Max(calcium + 0.20, calcium * 1.1)
  }

  function WorkbookMinTargets(target: WorkbookRequirement): map<NutrientKey, real> {
    map[CrudeProtein := target.crudeProtein,
        MetabolizableEnergy := target.metabolizableEnergy,
        Lysine := target.lysine,
        Methionine := target.methioninePlusCystine * 0.55,
        Threonine := target.threonine,
        Calcium := target.calcium,
        AvailablePhosphorus := target.availablePhosphorus,
        Sodium := target.sodium,
        LinoleicAcid := target.linoleicAcid]
  }

  function BuildConstraints(target: WorkbookRequirement, sodiumMax: real): seq<NutrientConstraint> {
    ConstraintsFromTargets(
      WorkbookMinTargets(target),
      map[Calcium := CalciumCap(target.calcium), Sodium := sodiumMax])
  }

  /** Workbook constraints: one per key in order; the nine macro and amino
      keys get a minimum, methionine at 55% of Met+Cys; only calcium and
      sodium get a maximum, calcium's never below its minimum. */
  lemma BuildConstraintsShape(target: WorkbookRequirement, sodiumMax: real)
    ensures |BuildConstraints(target, sodiumMax)| == |AllCases|
    ensures forall i :: 0 <= i < |BuildConstraints(target, sodiumMax)| ==>
      && BuildConstraints(target, sodiumMax)[i].key == AllCases[i]
      && (BuildConstraints(target, sodiumMax)[i].useMin <==> Group(AllCases[i]) in {Macro, Amino})
      && (BuildConstraints(target, sodiumMax)[i].useMax <==> AllCases[i] in {Calcium, Sodium})
    ensures BuildConstraints(target, sodiumMax)[Ordinal(Methionine)].minValue == target.methioninePlusCystine * 0.55
    ensures BuildConstraints(target, sodiumMax)[Ordinal(Calcium)].maxValue
      >= BuildConstraints(target, sodiumMax)[Ordinal(Calcium)].minValue
    ensures target.sodium <= sodiumMax ==> WellFormed(BuildConstraints(target, sodiumMax))
  {
    var mins := WorkbookMinTargets(target);
    var maxs := map[Calcium := CalciumCap(target.calcium), Sodium := sodiumMax];
    assert forall k :: k in mins <==> Group(k) in {Macro, Amino};
    assert forall k :: k in maxs <==> k in {Calcium, Sodium};
    if target.sodium <= sodiumMax {
      ConsistentTargetsWellFormed(mins, maxs);
    }
  }

  /** Broiler requirements from the workbook's day-dependent polynomials,
      floored (and, for protein, capped) at the workbook's limits. */
  function BroilerRequirement(day: real): (r: WorkbookRequirement)
    ensures r.metabolizableEnergy >= 2750.0
    ensures 17.0 <= r.crudeProtein <= 23.0
    ensures r.lysine >= 0.85 && r.methioninePlusCystine >= 0.62 && r.threonine >= 0.56
    ensures r.calcium >= 0.72 && r.availablePhosphorus >= 0.34
    ensures r.sodium == 0.16 && r.linoleicAcid == 1.00
  {
    var lysine :=
      0.0000000003674287 * Pow(day, 6)
      - 0.00000006227310833 * Pow(day, 5)
      + 0.00000412854698776 * Pow(day, 4)
      - 0.00014031019021032 * Pow(day, 3)
      + 0.0028103429548989 * Pow(day, 2)
      - 0.0435462829680875 * day
      + 1.43827279762856;
    var metabolizableEnergy :=
      (-0.0036963 * Pow(day, 3) + 0.1605779 * Pow(day, 2) + 5.9348078 * day + 2966.7735466) * 0.95;
    var calcium :=
      0.000107037617168617 * Pow(day, 2) - 0.0121508210423812 * day + 1.01373450997689;
    WorkbookRequirement(
      Max(2750.0, metabolizableEnergy),
      Max(17.0, Min(23.0, lysine * 18.0)),
      Max(0.85, lysine),
      Max(0.62, lysine * 0.74),
      Max(0.56, lysine * 0.66),
      Max(0.72, calcium),
      Max(0.34, calcium / 2.0),
      0.16,
      1.00)
  }

  function BroilerWorkbookPreset(day: real): seq<NutrientConstraint> {
    BuildConstraints(BroilerRequirement(day), 0.24)
  }

  function LayerRequirement(goal: FeedingGoal): (r: WorkbookRequirement)
    ensures r.sodium <= 0.22
  {
    match goal
    case Starter => WorkbookRequirement(2860.0, 19.0, 1.00, 0.75, 0.66, 1.05, 0.48, 0.16, 1.00)
    case Grower => WorkbookRequirement(2750.0, 17.5, 0.86, 0.688, 0.602, 1.00, 0.45, 0.16, 1.00)
    case Finisher => WorkbookRequirement(2700.0, 17.5, 0.70, 0.63, 0.49, 2.00, 0.40, 0.16, 1.00)
    case Maintenance => WorkbookRequirement(2960.08, 17.6, 0.82, 0.7462, 0.574, 4.00, 0.447, 0.18, 1.00)
  }

  function LayerWorkbookPreset(goal: FeedingGoal): seq<NutrientConstraint> {
    BuildConstraints(LayerRequirement(goal), 0.22)
  }

  function RoosterRequirement(goal: FeedingGoal): (r: WorkbookRequirement)
    ensures r.sodium <= 0.20
  {
    match goal
    case Starter => WorkbookRequirement(2800.0, 19.0, 0.95, 0.74005, 0.66025, 1.00, 0.45, 0.16, 0.90)
    case Grower => WorkbookRequirement(2800.0, 14.0, 0.52, 0.52, 0.43992, 0.90, 0.42, 0.16, 0.90)
    case Finisher => WorkbookRequirement(2750.0, 15.0, 0.62, 0.60946, 0.50654, 3.00, 0.35, 0.16, 0.90)
    case Maintenance => WorkbookRequirement(2700.0, 11.5, 0.44, 0.4202, 0.33, 0.70, 0.35, 0.16, 0.80)
  }

  function RoosterWorkbookPreset(goal: FeedingGoal): seq<NutrientConstraint> {
    BuildConstraints(RoosterRequirement(goal), 0.20)
  }

  /** The broiler formula is evaluated at the midpoint of the day range,
      clamped to days 1..42. */
  function BroilerDay(dayFrom: int, dayTo: int): (day: real)
    ensures 1.0 <= day <= 42.0
    ensures 1.0 <= (dayFrom + dayTo) as real / 2.0 <= 42.0 ==> day == (dayFrom + dayTo) as real / 2.0
  {
    Max(1.0, Min(42.0, (dayFrom + dayTo) as real / 2.0))
  }

  function PresetFromDayRange(bird: BirdType, goal: FeedingGoal, dayFrom: int, dayTo: int)
    : seq<NutrientConstraint>
  {
    match bird
    case Broiler => BroilerWorkbookPreset(BroilerDay(dayFrom, dayTo))
    case Layer => LayerWorkbookPreset(goal)
    case Rooster => RoosterWorkbookPreset(goal)
  }

  /** Every workbook preset, for any bird, goal and day range, passes the
      solver's Min>Max check and lists each key once in order. */
  lemma WorkbookPresetsWellFormed(bird: BirdType, goal: FeedingGoal, dayFrom: int, dayTo: int)
    ensures WellFormed(PresetFromDayRange(bird, goal, dayFrom, dayTo))
    ensures |PresetFromDayRange(bird, goal, dayFrom, dayTo)| == |AllCases|
    ensures forall i :: 0 <= i < |AllCases| ==> PresetFromDayRange(bird, goal, dayFrom, dayTo)[i].key == AllCases[i]
  {
    match bird
    case Broiler => BuildConstraintsShape(BroilerRequirement(BroilerDay(dayFrom, dayTo)), 0.24);
    case Layer => BuildConstraintsShape(LayerRequirement(goal), 0.22);
    case Rooster => BuildConstraintsShape(RoosterRequirement(goal), 0.20);
  }

  // ---------------------------------------------------------------- interpolation

  /** Linear interpolation between two anchors (day, value); a zero-width
      segment is widened to 1e-9 so the division is defined. */
  function Lerp(a: (real, real), b: (real, real), day: real): (r: real)
    requires a.0 <= day <= b.0
    ensures Min(a.1, b.1) <= r <= Max(a.1, b.1)
    ensures day == a.0 ==> r == a.1
  {
    var span := Max(b.0 - a.0, 1e-9);
    var t := (day - a.0) / span;
    assert 0.0 <= t <= 1.0 by {
      assert day - a.0 <= span;
    }
    LerpBetween(a.1, b.1, t);
    a.1 + (b.1 - a.1) * t
  }

  lemma LerpBetween(x: real, y: real, t: real)
    requires 0.0 <= t <= 1.0
    ensures Min(x, y) <= x + (y - x) * t <= Max(x, y)
  {
    var p := (y - x) * t;
    if x <= y {
      ScaleWithin(y - x, t, p);
    } else {
      ScaleWithin(x - y, t, -p);
    }
  }

  /** A fraction in [0, 1] of a non-negative width lies within [0, width]. */
  lemma ScaleWithin(d: real, t: real, p: real)
    requires d >= 0.0 && 0.0 <= t <= 1.0 && p == d * t
    ensures 0.0 <= p <= d
  {
    assert d - p == d * (1.0 - t);
  }

  /** Piecewise-linear lookup in a table of anchors. */
  function Interpolate(day: real, anchors: seq<(real, real)>): real {
    if |anchors| == 0 then 0.0
    else if day <= anchors[0].0 then anchors[0].1
    else if day >= anchors[|anchors| - 1].0 then anchors[|anchors| - 1].1
    else SearchSegment(day, anchors, 0)
  }

  /** The scan for the first segment [index, index+1] that brackets the day;
      the last value when none does. */
  function SearchSegment(day: real, anchors: seq<(real, real)>, index: nat): real
    requires index < |anchors|
    decreases |anchors| - index
  {
    if index == |anchors| - 1 then anchors[|anchors| - 1].1
    else if anchors[index].0 <= day <= anchors[index + 1].0 then Lerp(anchors[index], anchors[index + 1], day)
    else SearchSegment(day, anchors, index + 1)
  }

  predicate Brackets(anchors: seq<(real, real)>, i: nat, day: real)
    requires i + 1 < |anchors|
  {
    anchors[i].0 <= day <= anchors[i + 1].0
  }

  /** For a day at or after anchor index and before the last anchor, the
      scan stops at the first segment that brackets the day and
      interpolates on it. */
  lemma {:induction false} SearchSegmentInside(day: real, anchors: seq<(real, real)>, index: nat)
    returns (i: nat)
    requires index + 1 < |anchors|
    requires anchors[index].0 <= day < anchors[|anchors| - 1].0
    ensures index <= i && i + 1 < |anchors| && Brackets(anchors, i, day)
    ensures forall j :: index <= j < i ==> !Brackets(anchors, j, day)
    ensures SearchSegment(day, anchors, index) == Lerp(anchors[i], anchors[i + 1], day)
    decreases |anchors| - index
  {
    if Brackets(anchors, index, day) {
      i := index;
    } else {
      i := SearchSegmentInside(day, anchors, index + 1);
    }
  }

  /** Interpolation returns 0 for an empty table, the first or last value
      outside the anchors' range, and otherwise the linear interpolation on
      the first segment that brackets the day, which lies between that
      segment's two values. */
  lemma InterpolateSpec(day: real, anchors: seq<(real, real)>)
    ensures |anchors| == 0 ==> Interpolate(day, anchors) == 0.0
    ensures |anchors| > 0 && day <= anchors[0].0 ==> Interpolate(day, anchors) == anchors[0].1
    ensures |anchors| > 0 && anchors[0].0 < day && day >= anchors[|anchors| - 1].0 ==>
      Interpolate(day, anchors) == anchors[|anchors| - 1].1
    ensures |anchors| > 0 && anchors[0].0 < day < anchors[|anchors| - 1].0 ==>
      exists i :: 0 <= i && i + 1 < |anchors| && Brackets(anchors, i, day)
        && (forall j :: 0 <= j < i ==> !Brackets(anchors, j, day))
        && Interpolate(day, anchors) == Lerp(anchors[i], anchors[i + 1], day)
        && Min(anchors[i].1, anchors[i + 1].1) <= Interpolate(day, anchors) <= Max(anchors[i].1, anchors[i + 1].1)
  {
    if |anchors| > 0 && anchors[0].0 < day < anchors[|anchors| - 1].0 {
      var i := SearchSegmentInside(day, anchors, 0);
      assert Interpolate(day, anchors) == Lerp(anchors[i], anchors[i + 1], day);
    }
  }

  // ---------------------------------------------------------------- micronutrients

  /** Recommended minimums for the vitamins and trace minerals. */
  function MicronutrientMinimums(): (r: map<NutrientKey, real>)
    ensures forall k :: k in r <==> Group(k) in {Vitamin, Mineral}
    ensures forall k :: k in r ==> r[k] > 0.0
  {
    map[VitaminA := 3300.0, VitaminD3 := 660.0, VitaminE := 11.0,
        Manganese := 26.0, Zinc := 22.0, Copper := 4.0, Iron := 40.0, Selenium := 0.10]
  }
}
