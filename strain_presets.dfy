/** Broiler nutrient requirements by strain and age: three strain tables
    indexed by growth phase, and a polynomial model in the age. */
module StrainPresets {
  import opened RealMath

  datatype BroilerStrain = Dynamic | Ross | Cobb | AminoChick

  datatype BroilerPhase = Starter | GrowerPhase | Finisher1 | Finisher2

  /** Ages, in days, that a phase is named for. */
  datatype DayRange = DayRange(first: int, last: int) {
    predicate Contains(day: int) { first <= day <= last }
  }

  function PhaseDays(phase: BroilerPhase): DayRange {
    match phase
    case Starter => DayRange(0, 10)
    case GrowerPhase => DayRange(11, 24)
    case Finisher1 => DayRange(25, 39)
    case Finisher2 => DayRange(40, 60)
  }

  /** Position of a phase in the growth sequence. */
  function PhaseIndex(phase: BroilerPhase): nat {
    match phase
    case Starter => 0
    case GrowerPhase => 1
    case Finisher1 => 2
    case Finisher2 => 3
  }

  datatype NutrientRequirements = NutrientRequirements(
    metabolizableEnergy: real,
    crudeProtein: real,
    sidLysine: real,
    sidMethionine: real,
    sidMetCys: real,
    sidThreonine: real,
    sidTryptophan: real,
    sidArginine: real,
    sidIsoleucine: real,
    sidLeucine: real,
    sidValine: real,
    calcium: real,
    availablePhosphorus: real,
    sodium: real,
    potassium: real,
    chloride: real,
    choline: real)

  /** The phase the strain tables use for an age: up to day 10 starter, up
      to 24 grower, up to 39 finisher 1, later finisher 2. */
  function PhaseFor(ageInDays: int): BroilerPhase {
    if ageInDays <= 10 then Starter
    else if ageInDays <= 24 then GrowerPhase
    else if ageInDays <= 39 then Finisher1
    else Finisher2
  }

  /** On days 0 to 60 the phase chosen for an age is exactly the phase whose
      day range holds it; older birds stay in finisher 2 and younger ages
      count as starter. */
  lemma PhaseForSpec(ageInDays: int, phase: BroilerPhase)
    ensures 0 <= ageInDays <= 60 ==> (PhaseFor(ageInDays) == phase <==> PhaseDays(phase).Contains(ageInDays))
    ensures ageInDays > 60 ==> PhaseFor(ageInDays) == Finisher2
    ensures ageInDays < 0 ==> PhaseFor(ageInDays) == Starter
  {
  }

  /** Older birds are never in an earlier phase. */
  lemma PhaseForMonotone(a: int, b: int)
    requires a <= b
    ensures PhaseIndex(PhaseFor(a)) <= PhaseIndex(PhaseFor(b))
  {
  }

  /** The requirements for a strain at an age: the polynomial model for the
      dynamic strain, the strain's phase table otherwise. */
  function BroilerRequirements(strain: BroilerStrain, ageInDays: int): NutrientRequirements {
    match strain
    case Dynamic => DynamicRequirements(ageInDays)
    case Ross => RossTable(PhaseFor(ageInDays))
    case Cobb => CobbTable(PhaseFor(ageInDays))
    case AminoChick => AminoChickTable(PhaseFor(ageInDays))
  }

  /** A table strain's requirements change with age only where the phase
      changes. */
  lemma TablesFollowPhase(strain: BroilerStrain, a: int, b: int)
    requires strain != Dynamic && PhaseFor(a) == PhaseFor(b)
    ensures BroilerRequirements(strain, a) == BroilerRequirements(strain, b)
  {
  }

  function DynamicEnergy(age: real): real {
    (-0.0036963 * Pow(age, 3) + 0.1605779 * Pow(age, 2) + 5.9348078 * age + 2966.7735466) * 0.95
  }

  function DynamicLysine(age: real): real {
    0.0000000003674287 * Pow(age, 6)
      - 0.00000006227310833 * Pow(age, 5)
      + 0.00000412854698776 * Pow(age, 4)
      - 0.00014031019021032 * Pow(age, 3)
      + 0.0028103429548989 * Pow(age, 2)
      - 0.0435462829680875 * age
      + 1.43827279762856
  }

  function DynamicCalcium(age: real): real {
    0.0000001226543 * Pow(age, 4) - 0.0000125 * Pow(age, 3) + 0.0004583 * Pow(age, 2) - 0.0141667 * age + 1.125
  }

  function DynamicCholine(age: real): real {
    -0.0000003968 * Pow(age, 4) + 0.00004 * Pow(age, 3) - 0.0015 * Pow(age, 2) + 0.0004 * age + 1.7
  }

  /** The polynomial model: energy, lysine, calcium and choline are
      polynomials in the age; the other amino acids and crude protein follow
      lysine by fixed ratios, phosphorus is half the calcium, and sodium,
      potassium and chloride are fixed. */
  function DynamicRequirements(ageInDays: int): NutrientRequirements {
    var age := ageInDays as real;
    var lysine := DynamicLysine(age);
    var metCys := lysine * 0.74;
    var calcium := DynamicCalcium(age);
    NutrientRequirements(
      DynamicEnergy(age),
      lysine / 0.062,
      lysine,
      metCys * 0.46,
      metCys,
      lysine * 0.66,
      lysine * 0.18,
      lysine * 1.07,
      lysine * 0.68,
      lysine * 1.20,
      lysine * 0.77,
      calcium,
      calcium / 2.0,
      0.16,
      0.70,
      0.23,
      DynamicCholine(age))
  }

  /** In the polynomial model every amino acid is a fixed multiple of
      lysine (methionine 0.3404, through methionine plus cystine at 0.74),
      crude protein is the amount of which lysine is 6.2%, and available
      phosphorus is half the calcium. */
  lemma DynamicRatios(ageInDays: int)
    ensures var r := DynamicRequirements(ageInDays);
      && r.sidMetCys == 0.74 * r.sidLysine
      && r.sidMethionine == 0.46 * r.sidMetCys == 0.3404 * r.sidLysine
      && r.sidThreonine == 0.66 * r.sidLysine
      && r.crudeProtein * 0.062 == r.sidLysine
      && r.availablePhosphorus * 2.0 == r.calcium
      && r.sodium == 0.16 && r.potassium == 0.70 && r.chloride == 0.23
      && r.metabolizableEnergy == 0.95 * (-0.0036963 * Pow(ageInDays as real, 3) + 0.1605779 * Pow(ageInDays as real, 2)
                                          + 5.9348078 * (ageInDays as real) + 2966.7735466)
  {
  }

  /** At hatch the model asks for 2818.43 kcal/kg, about 1.438% lysine and
      1.125% calcium. */
  lemma DynamicAtHatch()
    ensures var r := DynamicRequirements(0);
      && r.metabolizableEnergy == 2966.7735466 * 0.95
      && r.sidLysine == 1.43827279762856
      && r.calcium == 1.125 && r.availablePhosphorus == 0.5625
  {
    assert Pow(0.0, 2) == 0.0 && Pow(0.0, 3) == 0.0 && Pow(0.0, 4) == 0.0;
    assert Pow(0.0, 5) == 0.0 && Pow(0.0, 6) == 0.0;
  }

  function RossTable(phase: BroilerPhase): NutrientRequirements {
    match phase
    case Starter => NutrientRequirements(2975.0, 23.0, 1.320, 0.528, 1.003, 0.880, 0.211, 1.449, 0.898, 1.584, 1.016,
                                         0.96, 0.48, 0.16, 0.85, 0.23, 1.70)
    case GrowerPhase => NutrientRequirements(3050.0, 21.5, 1.180, 0.483, 0.913, 0.787, 0.190, 1.289, 0.803, 1.416, 0.909,
                                             0.87, 0.44, 0.16, 0.77, 0.23, 1.60)
    case Finisher1 => NutrientRequirements(3100.0, 19.5, 1.080, 0.450, 0.868, 0.720, 0.169, 1.146, 0.734, 1.296, 0.832,
                                           0.78, 0.39, 0.16, 0.68, 0.23, 1.50)
    case Finisher2 => NutrientRequirements(3125.0, 18.0, 1.020, 0.429, 0.820, 0.680, 0.160, 1.082, 0.694, 1.224, 0.785,
                                           0.71, 0.36, 0.16, 0.64, 0.23, 1.45)
  }

  function CobbTable(phase: BroilerPhase): NutrientRequirements {
    match phase
    case Starter => NutrientRequirements(3000.0, 23.0, 1.260, 0.505, 0.958, 0.840, 0.202, 1.383, 0.857, 1.512, 0.970,
                                         0.92, 0.46, 0.16, 0.82, 0.23, 1.60)
    case GrowerPhase => NutrientRequirements(3075.0, 21.0, 1.160, 0.475, 0.898, 0.774, 0.187, 1.267, 0.789, 1.392, 0.893,
                                             0.84, 0.42, 0.16, 0.74, 0.23, 1.50)
    case Finisher1 => NutrientRequirements(3150.0, 19.0, 1.080, 0.450, 0.868, 0.720, 0.170, 1.146, 0.734, 1.296, 0.832,
                                           0.76, 0.38, 0.16, 0.66, 0.23, 1.40)
    case Finisher2 => NutrientRequirements(3175.0, 17.5, 1.040, 0.438, 0.836, 0.694, 0.163, 1.103, 0.707, 1.248, 0.801,
                                           0.68, 0.34, 0.16, 0.62, 0.23, 1.35)
  }

  function AminoChickTable(phase: BroilerPhase): NutrientRequirements {
    match phase
    case Starter => NutrientRequirements(2950.0, 22.5, 1.280, 0.512, 0.973, 0.854, 0.205, 1.406, 0.870, 1.536, 0.986,
                                         0.94, 0.47, 0.16, 0.80, 0.23, 1.65)
    case GrowerPhase => NutrientRequirements(3025.0, 20.5, 1.070, 0.438, 0.828, 0.714, 0.172, 1.172, 0.728, 1.284, 0.824,
                                             0.81, 0.41, 0.16, 0.71, 0.23, 1.50)
    case Finisher1 => NutrientRequirements(3075.0, 18.5, 0.950, 0.396, 0.764, 0.634, 0.149, 1.008, 0.646, 1.140, 0.732,
                                           0.72, 0.36, 0.16, 0.63, 0.23, 1.40)
    case Finisher2 => NutrientRequirements(3100.0, 17.0, 0.890, 0.375, 0.716, 0.594, 0.140, 0.944, 0.605, 1.068, 0.685,
                                           0.65, 0.33, 0.16, 0.58, 0.23, 1.30)
  }

  /** The later row asks for more energy and for less crude protein,
      lysine and calcium. */
  predicate LaterPhaseLeaner(earlier: NutrientRequirements, later: NutrientRequirements) {
    && earlier.metabolizableEnergy < later.metabolizableEnergy
    && earlier.crudeProtein > later.crudeProtein
    && earlier.sidLysine > later.sidLysine
    && earlier.calcium > later.calcium
  }

  /** Along the growth phases of every strain table, energy rises while
      crude protein, lysine and calcium fall. */
  lemma TablesByPhase(strain: BroilerStrain, a: int, b: int)
    requires strain != Dynamic
    requires PhaseIndex(PhaseFor(a)) < PhaseIndex(PhaseFor(b))
    ensures LaterPhaseLeaner(BroilerRequirements(strain, a), BroilerRequirements(strain, b))
  {
  }

  /** Every table row asks for 0.16% sodium and 0.23% chloride, and for
      less methionine than methionine plus cystine. */
  lemma TableConstants(strain: BroilerStrain, ageInDays: int)
    requires strain != Dynamic
    ensures var r := BroilerRequirements(strain, ageInDays);
      r.sodium == 0.16 && r.chloride == 0.23 && 0.0 < r.sidMethionine < r.sidMetCys
  {
  }
}
