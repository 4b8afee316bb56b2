/** The seventeen nutrients a ration is formulated against, with the
    display metadata (unit, group, decimal places) attached to each. */
module NutrientKeys {

  datatype NutrientKey =
    | CrudeProtein
    | MetabolizableEnergy
    | Lysine
    | Methionine
    | Threonine
    | Calcium
    | AvailablePhosphorus
    | Sodium
    | LinoleicAcid
    | VitaminA
    | VitaminD3
    | VitaminE
    | Manganese
    | Zinc
    | Copper
    | Iron
    | Selenium

  datatype NutrientGroup = Macro | Amino | Vitamin | Mineral

  /** Declaration order of the cases; every list built "per key" follows it. */
  const AllCases: seq<NutrientKey> :=
    [CrudeProtein, MetabolizableEnergy, Lysine, Methionine, Threonine]
    + [Calcium, AvailablePhosphorus, Sodium, LinoleicAcid]
    + [VitaminA, VitaminD3, VitaminE]
    + [Manganese, Zinc, Copper, Iron, Selenium]

  /** The string raw value of a case (its Swift case name). */
  function RawValue(k: NutrientKey): string {
    match k
    case CrudeProtein => "crudeProtein"
    case MetabolizableEnergy => "metabolizableEnergy"
    case Lysine => "lysine"
    case Methionine => "methionine"
    case Threonine => "threonine"
    case Calcium => "calcium"
    case AvailablePhosphorus => "availablePhosphorus"
    case Sodium => "sodium"
    case LinoleicAcid => "linoleicAcid"
    case VitaminA => "vitaminA"
    case VitaminD3 => "vitaminD3"
    case VitaminE => "vitaminE"
    case Manganese => "manganese"
    case Zinc => "zinc"
    case Copper => "copper"
    case Iron => "iron"
    case Selenium => "selenium"
  }

  /** The identity used by lists and dictionaries: the raw value, which is
      different for every key. */
  function Id(k: NutrientKey): (r: string)
    ensures r == RawValue(k)
    ensures forall j: NutrientKey :: j != k ==> RawValue(j) != r
  {
    RawValue(k)
  }

  function Unit(k: NutrientKey): string {
    match k
    case MetabolizableEnergy => "kcal/kg"
    case VitaminA | VitaminD3 | VitaminE => "IU/kg"
    case Manganese | Zinc | Copper | Iron | Selenium => "mg/kg"
    case _ => "%"
  }

  function Group(k: NutrientKey): NutrientGroup {
    match k
    case CrudeProtein | MetabolizableEnergy | Calcium | AvailablePhosphorus | Sodium | LinoleicAcid => Macro
    case Lysine | Methionine | Threonine => Amino
    case VitaminA | VitaminD3 | VitaminE => Vitamin
    case Manganese | Zinc | Copper | Iron | Selenium => Mineral
  }

  function Decimals(k: NutrientKey): nat {
    match k
    case MetabolizableEnergy => 0
    case VitaminA | VitaminD3 | VitaminE | Manganese | Zinc | Copper | Iron | Selenium => 0
    case _ => 2
  }

  /** The keys of one group, in declaration order. */
  function KeysOf(g: NutrientGroup): (r: seq<NutrientKey>)
    ensures forall k :: k in r <==> k in AllCases && Group(k) == g
  {
    FilterGroupMembers(AllCases, g);
    FilterGroup(AllCases, g)
  }

  function FilterGroup(ks: seq<NutrientKey>, g: NutrientGroup): seq<NutrientKey> {
    if ks == [] then []
    else if Group(ks[0]) == g then [ks[0]] + FilterGroup(ks[1..], g)
    else FilterGroup(ks[1..], g)
  }

  /** Position of a key in AllCases. */
  function Ordinal(k: NutrientKey): (r: nat)
    ensures r < |AllCases| && AllCases[r] == k
  {
    match k
    case CrudeProtein => 0
    case MetabolizableEnergy => 1
    case Lysine => 2
    case Methionine => 3
    case Threonine => 4
    case Calcium => 5
    case AvailablePhosphorus => 6
    case Sodium => 7
    case LinoleicAcid => 8
    case VitaminA => 9
    case VitaminD3 => 10
    case VitaminE => 11
    case Manganese => 12
    case Zinc => 13
    case Copper => 14
    case Iron => 15
    case Selenium => 16
  }

  /** AllCases lists every key exactly once: 17 distinct cases. */
  lemma AllCasesComplete()
    ensures |AllCases| == 17
    ensures forall k: NutrientKey :: k in AllCases
    ensures forall i, j :: 0 <= i < j < |AllCases| ==> AllCases[i] != AllCases[j]
  {
    forall k: NutrientKey ensures k in AllCases {
      assert AllCases[Ordinal(k)] == k;
    }
  }

  lemma {:induction false} FilterGroupMembers(ks: seq<NutrientKey>, g: NutrientGroup)
    ensures forall k :: k in FilterGroup(ks, g) <==> k in ks && Group(k) == g
  {
    if ks != [] {
      FilterGroupMembers(ks[1..], g);
      assert forall k :: k in ks <==> k == ks[0] || k in ks[1..];
    }
  }

  /** The unit is kcal/kg for energy only, IU/kg exactly for the vitamins,
      mg/kg exactly for the minerals and percent for everything else. */
  lemma UnitByGroup(k: NutrientKey)
    ensures Unit(k) == "kcal/kg" <==> k == MetabolizableEnergy
    ensures Unit(k) == "IU/kg" <==> Group(k) == Vitamin
    ensures Unit(k) == "mg/kg" <==> Group(k) == Mineral
    ensures Unit(k) == "%" <==> (Group(k) in {Macro, Amino} && k != MetabolizableEnergy)
  {
  }

  /** Groups partition the keys into 6 macro, 3 amino, 3 vitamin and 5 mineral. */
  lemma GroupSizes()
    ensures |KeysOf(Macro)| == 6 && |KeysOf(Amino)| == 3
    ensures |KeysOf(Vitamin)| == 3 && |KeysOf(Mineral)| == 5
  {
    MacroSize();
    AminoSize();
    VitaminSize();
    MineralSize();
  }

  lemma MacroSize()
    ensures |FilterGroup(AllCases, Macro)| == 6
  {
    SplitAllCases(Macro);
    Chunk1Count(Macro);
    Chunk2Count(Macro);
    Chunk3Count(Macro);
    Chunk4Count(Macro);
  }

  lemma AminoSize()
    ensures |FilterGroup(AllCases, Amino)| == 3
  {
    SplitAllCases(Amino);
    Chunk1Count(Amino);
    Chunk2Count(Amino);
    Chunk3Count(Amino);
    Chunk4Count(Amino);
  }

  lemma VitaminSize()
    ensures |FilterGroup(AllCases, Vitamin)| == 3
  {
    SplitAllCases(Vitamin);
    Chunk1Count(Vitamin);
    Chunk2Count(Vitamin);
    Chunk3Count(Vitamin);
    Chunk4Count(Vitamin);
  }

  lemma MineralSize()
    ensures |FilterGroup(AllCases, Mineral)| == 5
  {
    SplitAllCases(Mineral);
    Chunk1Count(Mineral);
    Chunk2Count(Mineral);
    Chunk3Count(Mineral);
    Chunk4Count(Mineral);
  }

  lemma Chunk1Count(g: NutrientGroup)
    ensures |FilterGroup([CrudeProtein, MetabolizableEnergy, Lysine, Methionine, Threonine], g)| == (match g case Macro => 2 case Amino => 3 case Vitamin => 0 case Mineral => 0)
  {
  }

  lemma Chunk2Count(g: NutrientGroup)
    ensures |FilterGroup([Calcium, AvailablePhosphorus, Sodium, LinoleicAcid], g)| == (match g case Macro => 4 case Amino => 0 case Vitamin => 0 case Mineral => 0)
  {
  }

  lemma Chunk3Count(g: NutrientGroup)
    ensures |FilterGroup([VitaminA, VitaminD3, VitaminE], g)| == (match g case Macro => 0 case Amino => 0 case Vitamin => 3 case Mineral => 0)
  {
  }

  lemma Chunk4Count(g: NutrientGroup)
    ensures |FilterGroup([Manganese, Zinc, Copper, Iron, Selenium], g)| == (match g case Macro => 0 case Amino => 0 case Vitamin => 0 case Mineral => 5)
  {
  }

  lemma SplitAllCases(g: NutrientGroup)
    ensures FilterGroup(AllCases, g) ==
      FilterGroup([CrudeProtein, MetabolizableEnergy, Lysine, Methionine, Threonine], g)
      + FilterGroup([Calcium, AvailablePhosphorus, Sodium, LinoleicAcid], g)
      + FilterGroup([VitaminA, VitaminD3, VitaminE], g)
      + FilterGroup([Manganese, Zinc, Copper, Iron, Selenium], g)
  {
    var a := [CrudeProtein, MetabolizableEnergy, Lysine, Methionine, Threonine];
    var b := [Calcium, AvailablePhosphorus, Sodium, LinoleicAcid];
    var c := [VitaminA, VitaminD3, VitaminE];
    var d := [Manganese, Zinc, Copper, Iron, Selenium];
    assert AllCases == a + b + c + d;
    FilterGroupConcat(a + b + c, d, g);
    FilterGroupConcat(a + b, c, g);
    FilterGroupConcat(a, b, g);
  }

  lemma {:induction false} FilterGroupConcat(a: seq<NutrientKey>, b: seq<NutrientKey>, g: NutrientGroup)
    ensures FilterGroup(a + b, g) == FilterGroup(a, g) + FilterGroup(b, g)
  {
    if a == [] {
      assert a + b == b;
    } else {
      assert (a + b)[0] == a[0];
      assert (a + b)[1..] == a[1..] + b;
      FilterGroupConcat(a[1..], b, g);
    }
  }

  /** Values are shown without decimals for energy and all micronutrients,
      with two decimals otherwise. */
  lemma DecimalsByGroup(k: NutrientKey)
    ensures Decimals(k) == 0 <==> (k == MetabolizableEnergy || Group(k) in {Vitamin, Mineral})
    ensures Decimals(k) == 2 <==> Decimals(k) != 0
  {
  }
}
