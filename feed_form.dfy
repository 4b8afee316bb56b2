/** The formula editor's state and the bookkeeping done on it: the clamping
    setters, the ingredient selection and stock rows kept in place, purchase
    planning, the data-quality list, the premix conversions, and the
    generation counter that drops answers to superseded requests. */
module FeedForms {
  import opened Options
  import opened RealMath
  import opened Ingredients
  import opened NutrientKeys
  import opened NutrientConstraints
  import opened RationSolutions
  import opened Inventory
  import opened QualityAlerts
  import opened FeedFormRules
  import RationSolver
  import SolverInputs
  import Candidates
  import RationAssembly

  const DirtyMessage: string := "Changes saved. Click Calculate Formula to run."
  const ReadyMessage: string := "Ready. Click Calculate Formula when you want to run optimization."
  const ScenarioPrompt: string := "Run What-if Scenario to compare baseline vs changed prices."
  const RecalculatingMessage: string := "Recalculating formula..."
  const BatchSizeConversionMessage: string := "Batch size must be greater than zero for conversion."
  const SelectPremixMessage: string := "Select a premix ingredient first."
  const PremixAppliedMessage: string := "Premix converted and applied as minimum inclusion in formula."
  const PresetAppliedMessage: string :=
    "Workbook formulas applied (Dynamic Model + strain presets). Click Calculate Formula."

  /** Every ingredient group, all enabled on start-up. */
  const AllGroups: set<IngredientGroup> :=
    {Grain, Protein, PlantByProducts, AnimalSource, Fat, IngredientGroup.Mineral, SupplementsAdditives, UserFeed}

  /** The scalar settings and status of the form. */
  datatype FormSettings = FormSettings(
    dayFrom: int,
    dayTo: int,
    birdType: BirdType,
    feedingGoal: FeedingGoal,
    optimizationMode: OptimizationMode,
    profitWeight: real,
    flockSize: int,
    dailyFeedPerBirdKg: real,
    batchSizeKg: real,
    enabledGroups: set<IngredientGroup>,
    premixPercent: real,
    premixKg: real,
    purchaseLeadTimeDays: int,
    expectedWeightGainPerBirdKg: real,
    solution: Option<RationSolution>,
    statusMessage: string,
    isCalculating: bool,
    calculationGeneration: nat,
    scenarioSolution: Option<RationSolution>,
    scenarioMessage: string,
    isScenarioRunning: bool)

  /** Start-up settings: broiler grower, days 1 to 35, least cost, a flock of
      1000 eating 0.115 kg a day, 1000 kg batches, every group enabled,
      0.5% (5 kg) premix, a 7-day lead time, no solution, generation 0. */
  const StartSettings: FormSettings := FormSettings(
    1, 35, Broiler, Grower, LeastCost, 0.16, 1000, 0.115, 1000.0, AllGroups,
    0.5, 5.0, 7, 1.90, None, ReadyMessage, false, 0, None, ScenarioPrompt, false)

  /** The stock table after seeding: one row per ingredient, the existing
      row kept and a default row for an ingredient without one; rows of
      identifiers no ingredient carries are dropped. */
  function Seeded(inventory: map<IngredientId, InventorySetting>, ings: seq<Ingredient>, batchSizeKg: real)
    : (r: map<IngredientId, InventorySetting>)
    ensures r.Keys == IdsOf(ings)
    ensures forall id :: id in r && id in inventory ==> r[id] == inventory[id]
    ensures forall id :: id in r && id !in inventory ==> r[id] == DefaultStock(batchSizeKg)
  {
    map id | id in IdsOf(ings) :: if id in inventory then inventory[id] else DefaultStock(batchSizeKg)
  }

  /** What a calculation request hands to the optimiser, stamped with the
      generation it was issued in. */
  datatype SolveRequest = SolveRequest(
    generation: nat,
    ingredients: seq<Ingredient>,
    constraints: seq<NutrientConstraint>,
    mode: OptimizationMode,
    profitWeight: real)

  /** Identifiers of the ingredients of one group. */
  function GroupIds(ings: seq<Ingredient>, group: IngredientGroup): set<IngredientId> {
    if ings == [] then {}
    else
      var last := ings[|ings| - 1];
      GroupIds(ings[..|ings| - 1], group) + (if last.group == group then {last.id} else {})
  }

  /** Extending a prefix by one ingredient adds its identifier when it is
      of the group, and nothing otherwise. */
  lemma GroupIdsStep(ings: seq<Ingredient>, i: nat, group: IngredientGroup)
    requires i < |ings|
    ensures GroupIds(ings[..i + 1], group)
      == GroupIds(ings[..i], group) + (if ings[i].group == group then {ings[i].id} else {})
  {
    assert ings[..i + 1][..i] == ings[..i];
  }

  /** An identifier is collected exactly when some ingredient of the group
      carries it. */
  lemma {:induction false} GroupIdsMember(ings: seq<Ingredient>, group: IngredientGroup, id: IngredientId)
    ensures id in GroupIds(ings, group) <==> exists x :: x in ings && x.group == group && x.id == id
  {
    if ings != [] {
      var init, last := ings[..|ings| - 1], ings[|ings| - 1];
      GroupIdsMember(init, group, id);
      assert ings == init + [last];
      if id in GroupIds(init, group) {
        var x :| x in init && x.group == group && x.id == id;
        assert x in ings;
      } else if last.group == group && last.id == id {
        assert last in ings;
      } else {
        forall x | x in ings ensures !(x.group == group && x.id == id) {
          if x != last {
            assert x in init;
          }
        }
      }
    }
  }

  class FeedForm {
    var dayFrom: int
    var dayTo: int
    var optimizationMode: OptimizationMode
    var birdType: BirdType
    var feedingGoal: FeedingGoal
    var profitWeight: real
    var flockSize: int
    var dailyFeedPerBirdKg: real
    var batchSizeKg: real
    var nutrientConstraints: seq<NutrientConstraint>
    var ingredients: seq<Ingredient>
    var enabledGroups: set<IngredientGroup>
    var solution: Option<RationSolution>
    var statusMessage: string
    var isCalculating: bool
    var selectedPremixID: Option<IngredientId>
    var premixPercent: real
    var premixKg: real
    var selectedIngredientIDs: set<IngredientId>
    var inventoryByIngredient: map<IngredientId, InventorySetting>
    var purchaseLeadTimeDays: int
    var scenarioSolution: Option<RationSolution>
    var scenarioMessage: string
    var isScenarioRunning: bool
    var expectedWeightGainPerBirdKg: real
    var calculationGeneration: nat

    /** Every stock row holds non-negative quantities. */
    predicate Valid()
      reads this
    {
      forall id :: id in inventoryByIngredient ==>
        inventoryByIngredient[id].onHandKg >= 0.0 && inventoryByIngredient[id].safetyStockKg >= 0.0
    }

    /** The effect of marking the form edited: a new generation, no
        calculation or scenario in flight, and the message shown. */
    twostate predicate Dirtied(message: string)
      reads this
    {
      && calculationGeneration == old(calculationGeneration) + 1
      && !isCalculating && statusMessage == message
      && scenarioSolution.None? && scenarioMessage == ScenarioPrompt && !isScenarioRunning
    }

    /** The form's scalar settings and status, as one value. */
    function Settings(): FormSettings
      reads this
    {
      FormSettings(
        dayFrom, dayTo, birdType, feedingGoal, optimizationMode, profitWeight,
        flockSize, dailyFeedPerBirdKg, batchSizeKg, enabledGroups,
        premixPercent, premixKg, purchaseLeadTimeDays, expectedWeightGainPerBirdKg,
        solution, statusMessage, isCalculating, calculationGeneration,
        scenarioSolution, scenarioMessage, isScenarioRunning)
    }

    /** The start-up state over an ingredient library: the broiler grower
        preset for days 1 to 35, legacy dollar prices converted, every group
        enabled, the staple ingredients selected and stocked. */
    constructor (library: seq<Ingredient>)
      ensures Settings() == StartSettings
      ensures nutrientConstraints == PresetFromDayRange(Broiler, Grower, 1, 35)
      ensures ingredients == ConvertIngredientPricesToToman(library, TomanPerDollarBase, LegacyDollarThreshold)
      ensures selectedIngredientIDs == CoreSelection(ingredients)
      ensures selectedPremixID == FirstNamedPremix(ingredients)
      ensures inventoryByIngredient == Seeded(map[], ingredients, batchSizeKg)
      ensures Valid()
    {
      dayFrom, dayTo := 1, 35;
      birdType, feedingGoal := Broiler, Grower;
      optimizationMode, profitWeight := LeastCost, 0.16;
      flockSize, dailyFeedPerBirdKg, batchSizeKg := 1000, 0.115, 1000.0;
      nutrientConstraints := PresetFromDayRange(Broiler, Grower, 1, 35);
      var converted := ConvertIngredientPricesToToman(library, TomanPerDollarBase, LegacyDollarThreshold);
      ingredients := converted;
      enabledGroups := AllGroups;
      solution := None;
      isCalculating := false;
      selectedPremixID := FirstNamedPremix(converted);
      premixPercent, premixKg := 0.5, 5.0;
      selectedIngredientIDs := CoreSelection(converted);
      inventoryByIngredient := Seeded(map[], converted, 1000.0);
      purchaseLeadTimeDays := 7;
      scenarioSolution, scenarioMessage, isScenarioRunning := None, ScenarioPrompt, false;
      expectedWeightGainPerBirdKg := 1.90;
      calculationGeneration := 0;
      statusMessage := ReadyMessage;
    }

    // ---- derived quantities ----

    function MinTotalPercent(): real
      reads this
    {
      Sum(MinPercents(ingredients))
    }

    function MaxTotalPercent(): real
      reads this
    {
      Sum(MaxPercents(ingredients))
    }

    function TotalDailyFeedKg(): real
      reads this
    {
      flockSize as real * dailyFeedPerBirdKg
    }

    /** The selected ingredients, in library order. */
    function SelectedIngredients(): (r: seq<Ingredient>)
      reads this
      ensures forall x :: x in r <==> x in ingredients && x.id in selectedIngredientIDs
    {
      SelectedOf(ingredients, selectedIngredientIDs)
    }

    function SelectedIngredientCount(): nat
      reads this
    {
      |SelectedIngredients()|
    }

    /** The ingredients a calculation runs on. */
    function ActiveIngredients(): seq<Ingredient>
      reads this`ingredients, this`enabledGroups, this`selectedIngredientIDs
    {
      ActiveOf(ingredients, enabledGroups, selectedIngredientIDs)
    }

    /** What stops a calculation from starting, if anything. */
    function Blocker(): Option<string>
      reads this`ingredients, this`enabledGroups, this`selectedIngredientIDs, this`nutrientConstraints
    {
      CalculationBlocker(ActiveIngredients(), nutrientConstraints)
    }

    /** Days in the formula period, counting both ends; at least one. */
    function FormulaPeriodDays(): (r: nat)
      reads this
      ensures r >= 1
      ensures dayFrom <= dayTo ==> r == dayTo - dayFrom + 1
      ensures dayFrom > dayTo ==> r == 1
    {
      if dayTo - dayFrom + 1 >= 1 then dayTo - dayFrom + 1 else 1
    }

    function PeriodFeedDemandKg(): real
      reads this
    {
      TotalDailyFeedKg() * FormulaPeriodDays() as real
    }

    /** Batches needed for the period's feed; zero when the batch size is
        not positive. */
    function PlannedBatchCount(): (r: real)
      reads this
      ensures batchSizeKg > 0.0 ==> r * batchSizeKg == PeriodFeedDemandKg()
      ensures batchSizeKg <= 0.0 ==> r == 0.0
    {
      if batchSizeKg > 0.0 then PeriodFeedDemandKg() / batchSizeKg else 0.0
    }

    /** Feed eaten per bird over the period per kg of expected gain; zero
        when no gain is expected. */
    function EstimatedFCR(): (r: real)
      reads this
      ensures expectedWeightGainPerBirdKg > 0.0 ==>
        r * expectedWeightGainPerBirdKg == dailyFeedPerBirdKg * FormulaPeriodDays() as real
      ensures expectedWeightGainPerBirdKg <= 0.0 ==> r == 0.0
    {
      var feedIntakePerBird := dailyFeedPerBirdKg * FormulaPeriodDays() as real;
      if expectedWeightGainPerBirdKg > 0.0 then feedIntakePerBird / expectedWeightGainPerBirdKg else 0.0
    }

    // ---- stock and purchase planning ----

    /** Stock on hand; an ingredient without a row has none. */
    function OnHandKg(id: IngredientId): (r: real)
      reads this
      ensures id !in inventoryByIngredient ==> r == 0.0
      ensures Valid() ==> r >= 0.0
    {
      if id in inventoryByIngredient then inventoryByIngredient[id].onHandKg else 0.0
    }

    /** Safety stock; an ingredient without a row has none. */
    function SafetyStockKg(id: IngredientId): (r: real)
      reads this
      ensures id !in inventoryByIngredient ==> r == 0.0
      ensures Valid() ==> r >= 0.0
    {
      if id in inventoryByIngredient then inventoryByIngredient[id].safetyStockKg else 0.0
    }

    /** Daily use of an ingredient by the flock under the current solution:
        its inclusion share of the daily feed, zero without a solution or an
        allocation. */
    function DailyUsageKg(id: IngredientId): (r: real)
      reads this
      ensures solution.None? ==> r == 0.0
      ensures solution.Some? && AllocationFor(solution.value.allocations, id).None? ==> r == 0.0
      ensures solution.Some? && AllocationFor(solution.value.allocations, id).Some? ==>
        r == AllocationFor(solution.value.allocations, id).value.inclusionPercent / 100.0 * TotalDailyFeedKg()
    {
      match solution
      case None => 0.0
      case Some(s) =>
        match AllocationFor(s.allocations, id)
        case None => 0.0
        case Some(allocation) => allocation.inclusionPercent / 100.0 * TotalDailyFeedKg()
    }

    /** Days the stock on hand lasts at the daily usage; zero when usage is
        negligible. */
    function DaysCover(id: IngredientId): (r: real)
      reads this
      ensures DailyUsageKg(id) > 1e-9 ==> r * DailyUsageKg(id) == OnHandKg(id)
      ensures DailyUsageKg(id) <= 1e-9 ==> r == 0.0
      ensures Valid() ==> r >= 0.0
    {
      var usage := DailyUsageKg(id);
      if usage > 1e-9 then OnHandKg(id) / usage else 0.0
    }

    /** What to buy to cover the period's use plus the safety stock. */
    function ReorderRecommendationKg(id: IngredientId): (r: real)
      reads this
      ensures r >= 0.0
      ensures OnHandKg(id) + r >= DailyUsageKg(id) * FormulaPeriodDays() as real + SafetyStockKg(id)
      ensures r > 0.0 ==> OnHandKg(id) + r == DailyUsageKg(id) * FormulaPeriodDays() as real + SafetyStockKg(id)
    {
      Shortfall(DailyUsageKg(id) * FormulaPeriodDays() as real + SafetyStockKg(id), OnHandKg(id))
    }

    /** The lead time used for planning: at least one day. */
    function LeadDays(): (r: real)
      reads this
      ensures r >= 1.0
      ensures purchaseLeadTimeDays >= 1 ==> r == purchaseLeadTimeDays as real
    {
      if purchaseLeadTimeDays >= 1 then purchaseLeadTimeDays as real else 1.0
    }

    /** The purchase line for one ingredient: demand over the lead time,
        and an order that brings stock up to that demand plus the safety
        stock, or nothing when stock already covers it. */
    function OrderLine(x: Ingredient): (line: MRPOrderLine)
      reads this
      ensures line.id == x.id && line.ingredientName == x.name && line.group == x.group
      ensures line.dailyUsageKg == DailyUsageKg(x.id) && line.leadDemandKg == line.dailyUsageKg * LeadDays()
      ensures line.safetyKg == SafetyStockKg(x.id) && line.onHandKg == OnHandKg(x.id)
      ensures line.reorderKg >= 0.0 && line.onHandKg + line.reorderKg >= line.leadDemandKg + line.safetyKg
      ensures line.reorderKg > 0.0 ==> line.onHandKg + line.reorderKg == line.leadDemandKg + line.safetyKg
      ensures line.daysCover == DaysCover(x.id)
    {
      var usage := DailyUsageKg(x.id);
      var leadDemand := usage * LeadDays();
      var safety := SafetyStockKg(x.id);
      var onHand := OnHandKg(x.id);
      MRPOrderLine(x.id, x.name, x.group, usage, leadDemand, safety, onHand,
                   Shortfall(leadDemand + safety, onHand), DaysCover(x.id))
    }

    function OrderLines(xs: seq<Ingredient>): (r: seq<MRPOrderLine>)
      reads this
      ensures |r| == |xs| && forall i :: 0 <= i < |xs| ==> r[i] == OrderLine(xs[i])
    {
      if xs == [] then [] else [OrderLine(xs[0])] + OrderLines(xs[1..])
    }

    /** One purchase line per selected ingredient, largest order first. */
    function MrpOrderLines(): (r: seq<MRPOrderLine>)
      reads this
      ensures |r| == |SelectedIngredients()|
      ensures multiset(r) == multiset(OrderLines(SelectedIngredients()))
      ensures SortedByReorder(r)
      ensures forall i :: 0 <= i < |r| ==> r[i].reorderKg >= 0.0
    {
      var lines := OrderLines(SelectedIngredients());
      var r := SortByReorder(lines);
      ReorderedNonNegative(r, lines);
      r
    }

    // ---- data quality ----

    /** Whether no check of the quality list fires. */
    predicate NoIssues()
      reads this
    {
      && dayFrom <= dayTo
      && batchSizeKg > 0.0
      && MinTotalPercent() <= 100.0001
      && MaxTotalPercent() >= 99.9999
      && SelectedIngredientCount() >= 2
      && WellFormed(nutrientConstraints)
      && forall x :: x in SelectedIngredients() ==> !IngredientIssue(x)
    }

    /** The findings about the form as a whole, in the order they are
        checked. */
    function FormAlerts(): seq<QualityAlert>
      reads this
    {
      FormAlertsOf(dayFrom > dayTo, batchSizeKg <= 0.0, MinTotalPercent() > 100.0001,
                   MaxTotalPercent() < 99.9999, SelectedIngredientCount() < 2, !WellFormed(nutrientConstraints))
    }

    /** The data-quality list: the form findings, then the findings of each
        selected ingredient; when nothing fires, the all-clear alone. */
    function QualityList(): seq<QualityAlert>
      reads this
    {
      QualityListOf(FormAlerts(), SelectedIngredients())
    }

    /** The list is never empty, and it holds the all-clear exactly when no
        check fires, in which case it holds nothing else. */
    lemma AllClear()
      ensures |QualityList()| >= 1
      ensures ChecksPassed in QualityList() <==> NoIssues()
      ensures ChecksPassed in QualityList() <==> QualityList() == [ChecksPassed]
    {
      var selected := SelectedIngredients();
      AlertsForAllEmpty(selected);
      AlertsForAllMember(selected, ChecksPassed);
    }

    /** A form finding is listed exactly when the form checks raise it. */
    lemma FormListed(a: QualityAlert)
      requires !a.AboutIngredient() && a != ChecksPassed
      ensures a in QualityList() <==> a in FormAlerts()
    {
      var selected := SelectedIngredients();
      if a in AlertsForAll(selected) {
        AlertsForAllAbout(selected, a);
      }
    }

    /** Each form finding is listed exactly when its check fails. */
    lemma FormFindings()
      ensures DayRangeReversed in QualityList() <==> dayFrom > dayTo
      ensures NonPositiveBatch in QualityList() <==> batchSizeKg <= 0.0
      ensures MinimumsOverHundred in QualityList() <==> MinTotalPercent() > 100.0001
      ensures MaximumsUnderHundred in QualityList() <==> MaxTotalPercent() < 99.9999
      ensures TooFewSelected in QualityList() <==> SelectedIngredientCount() < 2
      ensures ConstraintCrossed in QualityList() <==> !WellFormed(nutrientConstraints)
    {
      FormFindingsOf(dayFrom > dayTo, batchSizeKg <= 0.0, MinTotalPercent() > 100.0001,
                     MaxTotalPercent() < 99.9999, SelectedIngredientCount() < 2, !WellFormed(nutrientConstraints),
                     SelectedIngredients());
    }

    /** A finding about an ingredient is listed exactly when some selected
        ingredient raises it. */
    lemma IngredientFindings(a: QualityAlert)
      requires a.AboutIngredient()
      ensures a in QualityList() <==> exists x :: x in SelectedIngredients() && Raises(x, a)
    {
      AlertsForAllMember(SelectedIngredients(), a);
    }

    /** Builds the data-quality list check by check. */
    method QualityAlerts() returns (alerts: seq<QualityAlert>)
      ensures alerts == QualityList()
    {
      alerts := CollectAlerts(FormAlerts(), SelectedIngredients());
      if alerts == [] {
        alerts := alerts + [ChecksPassed];
      }
    }

    // ---- editing: constraints ----

    /** Turns a constraint's minimum on or off; an unknown key changes
        nothing. */
    method SetConstraintUseMin(enabled: bool, key: NutrientKey)
      modifies this`nutrientConstraints, this`calculationGeneration, this`isCalculating, this`statusMessage,
               this`scenarioSolution, this`scenarioMessage, this`isScenarioRunning
      ensures FirstConstraintIndex(old(nutrientConstraints), key).None? ==> unchanged(this)
      ensures FirstConstraintIndex(old(nutrientConstraints), key).Some? ==>
        var i := FirstConstraintIndex(old(nutrientConstraints), key).value;
        && nutrientConstraints == old(nutrientConstraints)[i := old(nutrientConstraints)[i].(useMin := enabled)]
        && Dirtied(DirtyMessage)
    {
      var index := FirstConstraintIndex(nutrientConstraints, key);
      if index.None? { return; }
      var i := index.value;
      nutrientConstraints := nutrientConstraints[i := nutrientConstraints[i].(useMin := enabled)];
      MarkDirty(DirtyMessage);
    }

    /** Stores a constraint minimum, never below zero. */
    method SetConstraintMinValue(value: real, key: NutrientKey)
      modifies this`nutrientConstraints, this`calculationGeneration, this`isCalculating, this`statusMessage,
               this`scenarioSolution, this`scenarioMessage, this`isScenarioRunning
      ensures FirstConstraintIndex(old(nutrientConstraints), key).None? ==> unchanged(this)
      ensures FirstConstraintIndex(old(nutrientConstraints), key).Some? ==>
        var i := FirstConstraintIndex(old(nutrientConstraints), key).value;
        && nutrientConstraints == old(nutrientConstraints)[i := old(nutrientConstraints)[i].(minValue := Max(0.0, value))]
        && nutrientConstraints[i].minValue >= 0.0
        && Dirtied(DirtyMessage)
    {
      var index := FirstConstraintIndex(nutrientConstraints, key);
      if index.None? { return; }
      var i := index.value;
      nutrientConstraints := nutrientConstraints[i := nutrientConstraints[i].(minValue := Max(0.0, value))];
      MarkDirty(DirtyMessage);
    }

    /** Turns a constraint's maximum on or off; an unknown key changes
        nothing. */
    method SetConstraintUseMax(enabled: bool, key: NutrientKey)
      modifies this`nutrientConstraints, this`calculationGeneration, this`isCalculating, this`statusMessage,
               this`scenarioSolution, this`scenarioMessage, this`isScenarioRunning
      ensures FirstConstraintIndex(old(nutrientConstraints), key).None? ==> unchanged(this)
      ensures FirstConstraintIndex(old(nutrientConstraints), key).Some? ==>
        var i := FirstConstraintIndex(old(nutrientConstraints), key).value;
        && nutrientConstraints == old(nutrientConstraints)[i := old(nutrientConstraints)[i].(useMax := enabled)]
        && Dirtied(DirtyMessage)
    {
      var index := FirstConstraintIndex(nutrientConstraints, key);
      if index.None? { return; }
      var i := index.value;
      nutrientConstraints := nutrientConstraints[i := nutrientConstraints[i].(useMax := enabled)];
      MarkDirty(DirtyMessage);
    }

    /** Stores a constraint maximum, never below zero. */
    method SetConstraintMaxValue(value: real, key: NutrientKey)
      modifies this`nutrientConstraints, this`calculationGeneration, this`isCalculating, this`statusMessage,
               this`scenarioSolution, this`scenarioMessage, this`isScenarioRunning
      ensures FirstConstraintIndex(old(nutrientConstraints), key).None? ==> unchanged(this)
      ensures FirstConstraintIndex(old(nutrientConstraints), key).Some? ==>
        var i := FirstConstraintIndex(old(nutrientConstraints), key).value;
        && nutrientConstraints == old(nutrientConstraints)[i := old(nutrientConstraints)[i].(maxValue := Max(0.0, value))]
        && nutrientConstraints[i].maxValue >= 0.0
        && Dirtied(DirtyMessage)
    {
      var index := FirstConstraintIndex(nutrientConstraints, key);
      if index.None? { return; }
      var i := index.value;
      nutrientConstraints := nutrientConstraints[i := nutrientConstraints[i].(maxValue := Max(0.0, value))];
      MarkDirty(DirtyMessage);
    }

    // ---- editing: ingredients ----

    /** Stores one nutrient value of an ingredient, never below zero; an
        unknown ingredient changes nothing. */
    method SetNutrientValue(value: real, id: IngredientId, key: NutrientKey)
      modifies this`ingredients, this`calculationGeneration, this`isCalculating, this`statusMessage,
               this`scenarioSolution, this`scenarioMessage, this`isScenarioRunning
      ensures FirstIngredientIndex(old(ingredients), id).None? ==> unchanged(this)
      ensures FirstIngredientIndex(old(ingredients), id).Some? ==>
        var i := FirstIngredientIndex(old(ingredients), id).value;
        && ingredients == old(ingredients)[i := old(ingredients)[i].WithValue(key, Max(0.0, value))]
        && ingredients[i].Value(key) >= 0.0
        && Dirtied(DirtyMessage)
    {
      var index := FirstIngredientIndex(ingredients, id);
      if index.None? { return; }
      var i := index.value;
      ingredients := ingredients[i := ingredients[i].WithValue(key, Max(0.0, value))];
      MarkDirty(DirtyMessage);
    }

    /** Stores a workbook nutrient value, never below zero: through its
        nutrient key when `coreKeys` maps the name to one, otherwise in the
        ingredient's extra values, where zero removes the entry. */
    method SetWorkbookNutrientValue(value: real, id: IngredientId, name: string, coreKeys: map<string, NutrientKey>)
      modifies this`ingredients, this`calculationGeneration, this`isCalculating, this`statusMessage,
               this`scenarioSolution, this`scenarioMessage, this`isScenarioRunning
      ensures FirstIngredientIndex(old(ingredients), id).None? ==> unchanged(this)
      ensures FirstIngredientIndex(old(ingredients), id).Some? ==>
        var i := FirstIngredientIndex(old(ingredients), id).value;
        var x := old(ingredients)[i];
        var safe := Max(0.0, value);
        && (name in coreKeys ==> ingredients == old(ingredients)[i := x.WithValue(coreKeys[name], safe)])
        && (name !in coreKeys && safe == 0.0 ==>
              ingredients == old(ingredients)[i := x.(extraNutrients := x.extraNutrients - {name})])
        && (name !in coreKeys && safe != 0.0 ==>
              ingredients == old(ingredients)[i := x.(extraNutrients := x.extraNutrients[name := safe])])
        && Dirtied(DirtyMessage)
    {
      var index := FirstIngredientIndex(ingredients, id);
      if index.None? { return; }
      var i := index.value;
      var safe := Max(0.0, value);
      if name in coreKeys {
        SetNutrientValue(safe, id, coreKeys[name]);
      } else {
        var x := ingredients[i];
        if safe == 0.0 {
          ingredients := ingredients[i := x.(extraNutrients := x.extraNutrients - {name})];
        } else {
          ingredients := ingredients[i := x.(extraNutrients := x.extraNutrients[name := safe])];
        }
        MarkDirty(DirtyMessage);
      }
    }

    /** Stores an ingredient price, never below zero. */
    method SetIngredientPrice(value: real, id: IngredientId)
      modifies this`ingredients, this`calculationGeneration, this`isCalculating, this`statusMessage,
               this`scenarioSolution, this`scenarioMessage, this`isScenarioRunning
      ensures FirstIngredientIndex(old(ingredients), id).None? ==> unchanged(this)
      ensures FirstIngredientIndex(old(ingredients), id).Some? ==>
        var i := FirstIngredientIndex(old(ingredients), id).value;
        && ingredients == old(ingredients)[i := old(ingredients)[i].(pricePerKg := Max(0.0, value))]
        && ingredients[i].pricePerKg >= 0.0
        && Dirtied(DirtyMessage)
    {
      var index := FirstIngredientIndex(ingredients, id);
      if index.None? { return; }
      var i := index.value;
      ingredients := ingredients[i := ingredients[i].(pricePerKg := Max(0.0, value))];
      MarkDirty(DirtyMessage);
    }

    /** Stores an ingredient's Min%, clamped to 0..100. */
    method SetIngredientMinPercent(value: real, id: IngredientId)
      modifies this`ingredients, this`calculationGeneration, this`isCalculating, this`statusMessage,
               this`scenarioSolution, this`scenarioMessage, this`isScenarioRunning
      ensures FirstIngredientIndex(old(ingredients), id).None? ==> unchanged(this)
      ensures FirstIngredientIndex(old(ingredients), id).Some? ==>
        var i := FirstIngredientIndex(old(ingredients), id).value;
        && ingredients == old(ingredients)[i := old(ingredients)[i].(minPercent := Max(0.0, Min(100.0, value)))]
        && 0.0 <= ingredients[i].minPercent <= 100.0
        && (0.0 <= value <= 100.0 ==> ingredients[i].minPercent == value)
        && Dirtied(DirtyMessage)
    {
      var index := FirstIngredientIndex(ingredients, id);
      if index.None? { return; }
      var i := index.value;
      ingredients := ingredients[i := ingredients[i].(minPercent := Max(0.0, Min(100.0, value)))];
      MarkDirty(DirtyMessage);
    }

    /** Stores an ingredient's Max%, clamped to 0..100. */
    method SetIngredientMaxPercent(value: real, id: IngredientId)
      modifies this`ingredients, this`calculationGeneration, this`isCalculating, this`statusMessage,
               this`scenarioSolution, this`scenarioMessage, this`isScenarioRunning
      ensures FirstIngredientIndex(old(ingredients), id).None? ==> unchanged(this)
      ensures FirstIngredientIndex(old(ingredients), id).Some? ==>
        var i := FirstIngredientIndex(old(ingredients), id).value;
        && ingredients == old(ingredients)[i := old(ingredients)[i].(maxPercent := Max(0.0, Min(100.0, value)))]
        && 0.0 <= ingredients[i].maxPercent <= 100.0
        && (0.0 <= value <= 100.0 ==> ingredients[i].maxPercent == value)
        && Dirtied(DirtyMessage)
    {
      var index := FirstIngredientIndex(ingredients, id);
      if index.None? { return; }
      var i := index.value;
      ingredients := ingredients[i := ingredients[i].(maxPercent := Max(0.0, Min(100.0, value)))];
      MarkDirty(DirtyMessage);
    }

    /** Appends a blank user ingredient under a fresh identifier, selects
        it and gives it a stock row. */
    method AddIngredient(id: IngredientId)
      modifies this`ingredients, this`selectedIngredientIDs, this`inventoryByIngredient,
               this`calculationGeneration, this`isCalculating, this`statusMessage,
               this`scenarioSolution, this`scenarioMessage, this`isScenarioRunning
      requires Valid()
      ensures Valid()
      ensures ingredients == old(ingredients) + [NewIngredient(id)]
      ensures selectedIngredientIDs == old(selectedIngredientIDs) + {id}
      ensures inventoryByIngredient == Seeded(old(inventoryByIngredient), ingredients, batchSizeKg)
      ensures inventoryByIngredient.Keys == IdsOf(ingredients)
      ensures forall k :: k in inventoryByIngredient && k in old(inventoryByIngredient) ==>
        inventoryByIngredient[k] == old(inventoryByIngredient)[k]
      ensures Dirtied(DirtyMessage)
    {
      ingredients := ingredients + [NewIngredient(id)];
      selectedIngredientIDs := selectedIngredientIDs + {id};
      SeedInventoryIfNeeded();
      MarkDirty(DirtyMessage);
    }

    /** Drops every ingredient with this identifier, with its selection and
        stock row; a premix choice that pointed at it moves to the first
        premix candidate left. */
    method RemoveIngredient(id: IngredientId)
      modifies this`ingredients, this`selectedIngredientIDs, this`inventoryByIngredient, this`selectedPremixID,
               this`calculationGeneration, this`isCalculating, this`statusMessage,
               this`scenarioSolution, this`scenarioMessage, this`isScenarioRunning
      ensures ingredients == Without(old(ingredients), id)
      ensures forall x :: x in ingredients ==> x.id != id
      ensures selectedIngredientIDs == old(selectedIngredientIDs) - {id}
      ensures inventoryByIngredient == old(inventoryByIngredient) - {id}
      ensures old(selectedPremixID) == Some(id) ==> selectedPremixID == FirstPremixCandidate(ingredients)
      ensures old(selectedPremixID) != Some(id) ==> selectedPremixID == old(selectedPremixID)
      ensures old(Valid()) ==> Valid()
      ensures Dirtied(DirtyMessage)
    {
      ingredients := Without(ingredients, id);
      selectedIngredientIDs := selectedIngredientIDs - {id};
      inventoryByIngredient := inventoryByIngredient - {id};
      if selectedPremixID == Some(id) {
        selectedPremixID := FirstPremixCandidate(ingredients);
      }
      MarkDirty(DirtyMessage);
    }

    /** Enables a disabled group or disables an enabled one. */
    method ToggleGroup(group: IngredientGroup)
      modifies this`enabledGroups, this`calculationGeneration, this`isCalculating, this`statusMessage,
               this`scenarioSolution, this`scenarioMessage, this`isScenarioRunning
      ensures group in enabledGroups <==> group !in old(enabledGroups)
      ensures enabledGroups - {group} == old(enabledGroups) - {group}
      ensures Dirtied(DirtyMessage)
    {
      if group in enabledGroups {
        enabledGroups := enabledGroups - {group};
      } else {
        enabledGroups := enabledGroups + {group};
      }
      MarkDirty(DirtyMessage);
    }

    // ---- selection ----

    method SetIngredientSelection(id: IngredientId, isOn: bool)
      modifies this`selectedIngredientIDs, this`calculationGeneration, this`isCalculating, this`statusMessage,
               this`scenarioSolution, this`scenarioMessage, this`isScenarioRunning
      ensures (id in selectedIngredientIDs) == isOn
      ensures selectedIngredientIDs - {id} == old(selectedIngredientIDs) - {id}
      ensures Dirtied(DirtyMessage)
    {
      if isOn {
        selectedIngredientIDs := selectedIngredientIDs + {id};
      } else {
        selectedIngredientIDs := selectedIngredientIDs - {id};
      }
      MarkDirty(DirtyMessage);
    }

    method ClearSelectedIngredients()
      modifies this`selectedIngredientIDs, this`calculationGeneration, this`isCalculating, this`statusMessage,
               this`scenarioSolution, this`scenarioMessage, this`isScenarioRunning
      ensures selectedIngredientIDs == {}
      ensures Dirtied(DirtyMessage)
    {
      selectedIngredientIDs := {};
      MarkDirty(DirtyMessage);
    }

    /** Selects every ingredient of a group, one at a time. */
    method SelectAllIngredients(group: IngredientGroup)
      modifies this`selectedIngredientIDs, this`calculationGeneration, this`isCalculating, this`statusMessage,
               this`scenarioSolution, this`scenarioMessage, this`isScenarioRunning
      ensures selectedIngredientIDs == old(selectedIngredientIDs) + GroupIds(ingredients, group)
      ensures Dirtied(DirtyMessage)
    {
      var ings, start := ingredients, selectedIngredientIDs;
      var selected := start;
      for i := 0 to |ings|
        modifies {}
        invariant selected == start + GroupIds(ings[..i], group)
      {
        GroupIdsStep(ings, i, group);
        if ings[i].group == group {
          selected := selected + {ings[i].id};
        }
      }
      assert ings[..|ings|] == ings;
      selectedIngredientIDs := selected;
      MarkDirty(DirtyMessage);
    }

    /** Deselects every ingredient of a group, one at a time. */
    method ClearSelectedIngredientsIn(group: IngredientGroup)
      modifies this`selectedIngredientIDs, this`calculationGeneration, this`isCalculating, this`statusMessage,
               this`scenarioSolution, this`scenarioMessage, this`isScenarioRunning
      ensures selectedIngredientIDs == old(selectedIngredientIDs) - GroupIds(ingredients, group)
      ensures Dirtied(DirtyMessage)
    {
      var ings, start := ingredients, selectedIngredientIDs;
      var selected := start;
      for i := 0 to |ings|
        modifies {}
        invariant selected == start - GroupIds(ings[..i], group)
      {
        GroupIdsStep(ings, i, group);
        if ings[i].group == group {
          selected := selected - {ings[i].id};
        }
      }
      assert ings[..|ings|] == ings;
      selectedIngredientIDs := selected;
      MarkDirty(DirtyMessage);
    }

    /** Replaces the selection with the staple template. */
    method SelectCoreTemplate()
      modifies this`selectedIngredientIDs, this`calculationGeneration, this`isCalculating, this`statusMessage,
               this`scenarioSolution, this`scenarioMessage, this`isScenarioRunning
      ensures selectedIngredientIDs == CoreSelection(ingredients)
      ensures selectedIngredientIDs <= IdsOf(ingredients)
      ensures Dirtied(DirtyMessage)
    {
      selectedIngredientIDs := CoreSelection(ingredients);
      MarkDirty(DirtyMessage);
    }

    // ---- stock rows ----

    /** Stores the stock on hand, never below zero, creating an empty row
        when the ingredient has none. */
    method SetOnHandKg(value: real, id: IngredientId)
      modifies this`inventoryByIngredient
      ensures inventoryByIngredient ==
        old(inventoryByIngredient)[id := InventorySetting(Max(0.0, value), old(SafetyStockKg(id)))]
      ensures old(Valid()) ==> Valid()
    {
      var row := if id in inventoryByIngredient then inventoryByIngredient[id] else InventorySetting(0.0, 0.0);
      inventoryByIngredient := inventoryByIngredient[id := row.(onHandKg := Max(0.0, value))];
    }

    /** Stores the safety stock, never below zero, creating an empty row
        when the ingredient has none. */
    method SetSafetyStockKg(value: real, id: IngredientId)
      modifies this`inventoryByIngredient
      ensures inventoryByIngredient ==
        old(inventoryByIngredient)[id := InventorySetting(old(OnHandKg(id)), Max(0.0, value))]
      ensures old(Valid()) ==> Valid()
    {
      var row := if id in inventoryByIngredient then inventoryByIngredient[id] else InventorySetting(0.0, 0.0);
      inventoryByIngredient := inventoryByIngredient[id := row.(safetyStockKg := Max(0.0, value))];
    }

    /** Rebuilds the stock rows over the current ingredients: a row is kept
        where one exists, other ingredients get the default stock for the
        batch size, and rows of ingredients no longer listed go. */
    method SeedInventoryIfNeeded()
      modifies this`inventoryByIngredient
      ensures inventoryByIngredient == Seeded(old(inventoryByIngredient), ingredients, batchSizeKg)
      ensures old(Valid()) ==> Valid()
    {
      var rebuilt: map<IngredientId, InventorySetting> := map[];
      for i := 0 to |ingredients|
        invariant rebuilt.Keys == set j | 0 <= j < i :: ingredients[j].id
        invariant forall id :: id in rebuilt ==>
          rebuilt[id] == if id in inventoryByIngredient then inventoryByIngredient[id] else DefaultStock(batchSizeKg)
      {
        var id := ingredients[i].id;
        var row := if id in inventoryByIngredient then inventoryByIngredient[id] else DefaultStock(batchSizeKg);
        rebuilt := rebuilt[id := row];
      }
      assert rebuilt == Seeded(inventoryByIngredient, ingredients, batchSizeKg);
      inventoryByIngredient := rebuilt;
    }

    /** Replaces the constraint table with the workbook preset of the
        chosen bird, goal and day range. */
    method ApplyPreset()
      modifies this`nutrientConstraints,
               this`calculationGeneration, this`isCalculating, this`statusMessage,
               this`scenarioSolution, this`scenarioMessage, this`isScenarioRunning
      ensures nutrientConstraints == PresetFromDayRange(birdType, feedingGoal, dayFrom, dayTo)
      ensures WellFormed(nutrientConstraints)
      ensures Dirtied(PresetAppliedMessage)
    {
      nutrientConstraints := PresetFromDayRange(birdType, feedingGoal, dayFrom, dayTo);
      WorkbookPresetsWellFormed(birdType, feedingGoal, dayFrom, dayTo);
      MarkDirty(PresetAppliedMessage);
    }

    // ---- premix ----

    method ConvertPremixPercentToKg()
      modifies this`premixKg
      ensures premixKg == PercentToKg(batchSizeKg, premixPercent)
    {
      premixKg := batchSizeKg * premixPercent / 100.0;
    }

    /** Converts the premix quantity back to a share; refused, with a
        message, when the batch size is not positive. */
    method ConvertPremixKgToPercent()
      modifies this`premixPercent, this`statusMessage
      ensures batchSizeKg > 0.0 ==> premixPercent == KgToPercent(batchSizeKg, premixKg) && statusMessage == old(statusMessage)
      ensures batchSizeKg <= 0.0 ==> premixPercent == old(premixPercent) && statusMessage == BatchSizeConversionMessage
    {
      if batchSizeKg <= 0.0 {
        statusMessage := BatchSizeConversionMessage;
        return;
      }
      premixPercent := premixKg / batchSizeKg * 100.0;
    }

    /** Makes the premix share the chosen premix's minimum inclusion,
        raising its maximum to match when needed. The edit then marks the
        form changed, whose message replaces the "applied" one. */
    method ApplyPremixToFormula()
      modifies this`ingredients, this`calculationGeneration, this`isCalculating, this`statusMessage,
               this`scenarioSolution, this`scenarioMessage, this`isScenarioRunning
      ensures selectedPremixID.None? || FirstIngredientIndex(old(ingredients), selectedPremixID.value).None? ==>
        ingredients == old(ingredients) && statusMessage == SelectPremixMessage
        && calculationGeneration == old(calculationGeneration) && isCalculating == old(isCalculating)
        && scenarioSolution == old(scenarioSolution) && scenarioMessage == old(scenarioMessage)
        && isScenarioRunning == old(isScenarioRunning)
      ensures selectedPremixID.Some? && FirstIngredientIndex(old(ingredients), selectedPremixID.value).Some? ==>
        var i := FirstIngredientIndex(old(ingredients), selectedPremixID.value).value;
        var x := old(ingredients)[i];
        && ingredients == old(ingredients)[i := x.(minPercent := premixPercent, maxPercent := Max(x.maxPercent, premixPercent))]
        && ingredients[i].minPercent == premixPercent <= ingredients[i].maxPercent
        && Dirtied(DirtyMessage)
    {
      if selectedPremixID.None? {
        statusMessage := SelectPremixMessage;
        return;
      }
      var index := FirstIngredientIndex(ingredients, selectedPremixID.value);
      if index.None? {
        statusMessage := SelectPremixMessage;
        return;
      }
      var i := index.value;
      var x := ingredients[i];
      ingredients := ingredients[i := x.(minPercent := premixPercent, maxPercent := Max(x.maxPercent, premixPercent))];
      statusMessage := PremixAppliedMessage;
      MarkDirty(DirtyMessage);
    }

    // ---- calculation requests ----

    /** Marks the form edited: cancels any calculation or scenario in
        flight by moving to a new generation, and shows `message`. */
    method MarkDirty(message: string)
      modifies this`calculationGeneration, this`isCalculating, this`statusMessage,
               this`scenarioSolution, this`scenarioMessage, this`isScenarioRunning
      ensures Dirtied(message)
    {
      scenarioSolution := None;
      scenarioMessage := ScenarioPrompt;
      isScenarioRunning := false;
      calculationGeneration := calculationGeneration + 1;
      isCalculating := false;
      statusMessage := message;
    }

    /** Asks for a calculation. Unless forced this only marks the form
        edited. A forced request starts a new generation and either refuses,
        clearing the solution and naming the first blocker, or hands the
        active ingredients and constraints to the optimiser under that
        generation. */
    method RequestCalculation(immediate: bool, force: bool) returns (request: Option<SolveRequest>)
      modifies this`calculationGeneration, this`isCalculating, this`statusMessage, this`solution,
               this`scenarioSolution, this`scenarioMessage, this`isScenarioRunning
      ensures calculationGeneration == old(calculationGeneration) + 1
      ensures scenarioSolution.None? && scenarioMessage == ScenarioPrompt && !isScenarioRunning
      ensures !force ==> request.None? && solution == old(solution) && Dirtied(DirtyMessage)
      ensures force ==> (request.Some? <==> CalculationBlocker(ActiveIngredients(), nutrientConstraints).None?)
      ensures force && request.None? ==>
        && solution.None? && !isCalculating
        && Some(statusMessage) == CalculationBlocker(ActiveIngredients(), nutrientConstraints)
      ensures request.Some? ==>
        && request.value == SolveRequest(calculationGeneration, ActiveIngredients(), nutrientConstraints,
                                         optimizationMode, profitWeight)
        && isCalculating && solution == old(solution)
        && statusMessage == (if immediate then old(statusMessage) else RecalculatingMessage)
    {
      if force {
        request := ForcedRequest(immediate);
      } else {
        MarkDirty(DirtyMessage);
        request := None;
      }
    }

    /** A forced request: a new generation, the scenario cleared, and
        either the first blocker shown with the solution cleared or the
        request handed out. */
    method ForcedRequest(immediate: bool) returns (request: Option<SolveRequest>)
      modifies this`calculationGeneration, this`isCalculating, this`statusMessage, this`solution,
               this`scenarioSolution, this`scenarioMessage, this`isScenarioRunning
      ensures calculationGeneration == old(calculationGeneration) + 1
      ensures scenarioSolution.None? && scenarioMessage == ScenarioPrompt && !isScenarioRunning
      ensures request.Some? <==> old(Blocker()).None?
      ensures request.None? ==>
        && solution.None? && !isCalculating
        && Some(statusMessage) == old(Blocker())
      ensures request.Some? ==>
        && request.value == SolveRequest(calculationGeneration, old(ActiveIngredients()), nutrientConstraints,
                                         optimizationMode, profitWeight)
        && isCalculating && solution == old(solution)
        && statusMessage == (if immediate then old(statusMessage) else RecalculatingMessage)
    {
      var active := ActiveIngredients();
      var blocker := Blocker();
      scenarioSolution := None;
      scenarioMessage := ScenarioPrompt;
      isScenarioRunning := false;
      calculationGeneration := calculationGeneration + 1;
      if blocker.Some? {
        statusMessage := blocker.value;
        solution := None;
        isCalculating := false;
        request := None;
      } else {
        isCalculating := true;
        if !immediate {
          statusMessage := RecalculatingMessage;
        }
        request := Some(SolveRequest(calculationGeneration, active, nutrientConstraints, optimizationMode, profitWeight));
      }
    }

    /** The Calculate Formula action: a forced, immediate request. */
    method CalculateFormula() returns (request: Option<SolveRequest>)
      modifies this`calculationGeneration, this`isCalculating, this`statusMessage, this`solution,
               this`scenarioSolution, this`scenarioMessage, this`isScenarioRunning
      ensures calculationGeneration == old(calculationGeneration) + 1
      ensures scenarioSolution.None? && scenarioMessage == ScenarioPrompt && !isScenarioRunning
      ensures request.Some? <==> CalculationBlocker(ActiveIngredients(), nutrientConstraints).None?
      ensures request.None? ==>
        && solution.None? && !isCalculating
        && Some(statusMessage) == CalculationBlocker(ActiveIngredients(), nutrientConstraints)
      ensures request.Some? ==>
        && request.value == SolveRequest(calculationGeneration, ActiveIngredients(), nutrientConstraints,
                                         optimizationMode, profitWeight)
        && isCalculating && solution == old(solution) && statusMessage == old(statusMessage)
    {
      request := RequestCalculation(true, true);
    }

    /** Delivers an optimiser answer: applied only when no edit or newer
        request has happened since `request` was issued, ignored
        otherwise. */
    method Complete(request: SolveRequest, result: RationSolution)
      modifies this`solution, this`statusMessage, this`isCalculating
      ensures request.generation == calculationGeneration ==>
        solution == Some(result) && statusMessage == result.message && !isCalculating
      ensures request.generation != calculationGeneration ==> unchanged(this)
    {
      if request.generation != calculationGeneration {
        return;
      }
      solution := Some(result);
      statusMessage := result.message;
      isCalculating := false;
    }

    /** The scheduled work for a request: run the optimiser on the request's
        snapshot and deliver its answer. `result` is that answer, with the
        candidates the optimiser visited, the winner's position among them
        and the restarts, as `RationSolver.Solve` describes them. */
    method RunScheduled(request: SolveRequest, draw: (nat, nat) -> real)
      returns (ghost result: RationSolution, ghost visited: seq<Candidates.Candidate>, ghost winner: nat,
               ghost runs: seq<seq<Candidates.Candidate>>)
      modifies this`solution, this`statusMessage, this`isCalculating
      ensures request.generation != calculationGeneration ==> unchanged(this)
      ensures request.generation == calculationGeneration ==>
        solution == Some(result) && statusMessage == result.message && !isCalculating
      ensures SolverInputs.Validate(request.ingredients, request.constraints).Some? ==>
        result == Empty(SolverInputs.Validate(request.ingredients, request.constraints).value)
      ensures SolverInputs.Validate(request.ingredients, request.constraints).None? ==>
        var ingredients, constraints := request.ingredients, request.constraints;
        var coefficients := SolverInputs.ObjectiveCoefficients(ingredients, request.mode, request.profitWeight);
        var lower, upper := SolverInputs.LowerBounds(ingredients), SolverInputs.UpperBounds(ingredients);
        && |runs| == RationSolver.RestartCount && visited == RationSolver.Concat(runs)
        && (forall r :: 0 <= r < |runs| ==>
              RationSolver.RestartRun(runs[r], r, ingredients, constraints, coefficients, lower, upper, draw))
        && RationSolver.AllVisited(visited, ingredients, constraints, coefficients, lower, upper)
        && winner < |visited|
        && RationSolver.Visited(visited[winner], ingredients, constraints, coefficients, lower, upper)
        && result == RationAssembly.Assemble(visited[winner], Candidates.IsFeasible(visited[winner]), request.mode,
                                             ingredients, constraints, coefficients)
        && (Candidates.IsFeasible(visited[winner]) <==>
              exists i :: 0 <= i < |visited| && Candidates.IsFeasible(visited[i]))
        && (Candidates.IsFeasible(visited[winner]) ==> Candidates.CheapestFirst(visited, winner))
        && (!Candidates.IsFeasible(visited[winner]) ==> Candidates.BestApprox(visited) == Some(visited[winner]))
    {
      var answer;
      answer, visited, winner, runs :=
        RationSolver.Solve(request.ingredients, request.constraints, request.mode, request.profitWeight, draw);
      result := answer;
      Complete(request, answer);
    }
  }
}
