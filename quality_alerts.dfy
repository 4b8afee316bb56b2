/** The data-quality findings the editor reports before a formula is run,
    each with its severity and the text shown to the user. */
module QualityAlerts {
  import opened Ingredients

  datatype QualitySeverity = Info | Warning | Critical

  /** The display name of a severity. */
  function SeverityName(s: QualitySeverity): string {
    match s
    case Info => "Info"
    case Warning => "Warning"
    case Critical => "Critical"
  }

  /** One finding: six about the form as a whole, four about one selected
      ingredient (carrying its name), and the all-clear. */
  datatype QualityAlert =
    | DayRangeReversed
    | NonPositiveBatch
    | MinimumsOverHundred
    | MaximumsUnderHundred
    | TooFewSelected
    | ConstraintCrossed
    | NonPositivePrice(name: string)
    | IngredientCrossed(name: string)
    | MaxOverNinetyFive(name: string)
    | EnergyOutOfRange(name: string)
    | ChecksPassed
  {
    predicate AboutIngredient() {
      NonPositivePrice? || IngredientCrossed? || MaxOverNinetyFive? || EnergyOutOfRange?
    }

    function Severity(): QualitySeverity {
      match this
      case NonPositivePrice(_) => Warning
      case MaxOverNinetyFive(_) => Warning
      case EnergyOutOfRange(_) => Warning
      case ChecksPassed => Info
      case _ => Critical
    }

    function Message(): string {
      match this
      case DayRangeReversed => "Day From is greater than Day To."
      case NonPositiveBatch => "Batch Size must be greater than zero."
      case MinimumsOverHundred => "Total ingredient minimum inclusion exceeds 100%."
      case MaximumsUnderHundred => "Total ingredient maximum inclusion is below 100%."
      case TooFewSelected => "At least two selected ingredients are required."
      case ConstraintCrossed => "One or more nutrient constraints have Min greater than Max."
      case NonPositivePrice(name) => name + ": price is zero or negative."
      case IngredientCrossed(name) => name + ": Min% is greater than Max%."
      case MaxOverNinetyFive(name) => name + ": Max% over 95% may reduce formulation flexibility."
      case EnergyOutOfRange(name) => name + ": ME value appears out of range."
      case ChecksPassed => "QC checks passed. No data quality issues found."
    }
  }

  /** The findings about the form as a whole, in the order they are
      checked, given which checks fail: the day range is reversed, the batch
      size is not positive, the minimums exceed 100%, the maximums fall
      short of 100%, fewer than two ingredients are selected, a constraint's
      bounds cross. */
  function FormAlertsOf(reversed: bool, noBatch: bool, minsOver: bool, maxUnder: bool, tooFew: bool, crossed: bool)
    : (r: seq<QualityAlert>)
    ensures forall a :: a in r ==> !a.AboutIngredient() && a != ChecksPassed
    ensures DayRangeReversed in r <==> reversed
    ensures NonPositiveBatch in r <==> noBatch
    ensures MinimumsOverHundred in r <==> minsOver
    ensures MaximumsUnderHundred in r <==> maxUnder
    ensures TooFewSelected in r <==> tooFew
    ensures ConstraintCrossed in r <==> crossed
    ensures r == [] <==> !(reversed || noBatch || minsOver || maxUnder || tooFew || crossed)
  {
    Prepend(reversed, DayRangeReversed,
      Prepend(noBatch, NonPositiveBatch,
        Prepend(minsOver, MinimumsOverHundred,
          Prepend(maxUnder, MaximumsUnderHundred,
            Prepend(tooFew, TooFewSelected,
              Prepend(crossed, ConstraintCrossed, []))))))
  }

  /** `rest`, preceded by `a` when `fails`. */
  function Prepend(fails: bool, a: QualityAlert, rest: seq<QualityAlert>): (r: seq<QualityAlert>)
    ensures forall b :: b in r <==> (fails && b == a) || b in rest
    ensures r == [] <==> !fails && rest == []
  {
    if fails then [a] + rest else rest
  }

  /** Whether a selected ingredient's own data raises a finding. */
  predicate IngredientIssue(x: Ingredient) {
    || x.pricePerKg <= 0.0
    || x.minPercent > x.maxPercent
    || x.maxPercent > 95.0
    || x.metabolizableEnergy < 0.0 || x.metabolizableEnergy > 9500.0
  }

  /** Whether ingredient `x` raises finding `a`: the finding names it and
      its check fails. */
  predicate Raises(x: Ingredient, a: QualityAlert) {
    match a
    case NonPositivePrice(n) => n == x.name && x.pricePerKg <= 0.0
    case IngredientCrossed(n) => n == x.name && x.minPercent > x.maxPercent
    case MaxOverNinetyFive(n) => n == x.name && x.maxPercent > 95.0
    case EnergyOutOfRange(n) => n == x.name && (x.metabolizableEnergy < 0.0 || x.metabolizableEnergy > 9500.0)
    case _ => false
  }

  /** The findings about one selected ingredient, in the order they are
      checked: price, crossed inclusion bounds, a Max% over 95, energy out
      of range. */
  function IngredientAlerts(x: Ingredient): (r: seq<QualityAlert>)
    ensures forall a :: a in r <==> Raises(x, a)
    ensures r == [] <==> !IngredientIssue(x)
  {
    (if x.pricePerKg <= 0.0 then [NonPositivePrice(x.name)] else [])
    + (if x.minPercent > x.maxPercent then [IngredientCrossed(x.name)] else [])
    + (if x.maxPercent > 95.0 then [MaxOverNinetyFive(x.name)] else [])
    + (if x.metabolizableEnergy < 0.0 || x.metabolizableEnergy > 9500.0 then [EnergyOutOfRange(x.name)] else [])
  }

  /** Runs the four checks on one selected ingredient, collecting a finding
      for each that fails. */
  method CheckIngredient(x: Ingredient) returns (issues: seq<QualityAlert>)
    ensures issues == IngredientAlerts(x)
  {
    issues := [];
    if x.pricePerKg <= 0.0 { issues := issues + [NonPositivePrice(x.name)]; }
    if x.minPercent > x.maxPercent { issues := issues + [IngredientCrossed(x.name)]; }
    if x.maxPercent > 95.0 { issues := issues + [MaxOverNinetyFive(x.name)]; }
    if x.metabolizableEnergy < 0.0 || x.metabolizableEnergy > 9500.0 {
      issues := issues + [EnergyOutOfRange(x.name)];
    }
  }

  /** Appends the findings of each ingredient in turn to those found so
      far. */
  method CollectAlerts(found: seq<QualityAlert>, xs: seq<Ingredient>) returns (alerts: seq<QualityAlert>)
    ensures alerts == found + AlertsForAll(xs)
  {
    alerts := found;
    for i := 0 to |xs|
      invariant alerts == found + AlertsForAll(xs[..i])
    {
      var issues := CheckIngredient(xs[i]);
      assert (found + AlertsForAll(xs[..i])) + issues == found + (AlertsForAll(xs[..i]) + issues);
      assert xs[..i + 1][..i] == xs[..i];
      alerts := alerts + issues;
    }
    assert xs[..|xs|] == xs;
  }

  /** The findings about each ingredient in turn. */
  function AlertsForAll(xs: seq<Ingredient>): seq<QualityAlert> {
    if xs == [] then [] else AlertsForAll(xs[..|xs| - 1]) + IngredientAlerts(xs[|xs| - 1])
  }

  /** A finding is in the list exactly when one of the ingredients raises
      it. */
  lemma {:induction false} AlertsForAllMember(xs: seq<Ingredient>, a: QualityAlert)
    ensures a in AlertsForAll(xs) <==> exists x :: x in xs && Raises(x, a)
  {
    if xs != [] {
      var init, last := xs[..|xs| - 1], xs[|xs| - 1];
      AlertsForAllMember(init, a);
      assert xs == init + [last];
      assert AlertsForAll(xs) == AlertsForAll(init) + IngredientAlerts(last);
      if a in AlertsForAll(init) {
        var x :| x in init && Raises(x, a);
        assert x in xs;
      } else if a in IngredientAlerts(last) {
        assert last in xs;
      } else {
        forall x | x in xs ensures !Raises(x, a) {
          if x != last {
            assert x in init;
          }
        }
      }
    }
  }

  /** The data-quality list over the form findings and the selected
      ingredients: the form findings, then each ingredient's; when nothing
      fires, the all-clear alone. */
  function QualityListOf(form: seq<QualityAlert>, xs: seq<Ingredient>): seq<QualityAlert> {
    var found := form + AlertsForAll(xs);
    if found == [] then [ChecksPassed] else found
  }

  /** Each form finding is listed exactly when its check fails. */
  lemma FormFindingsOf(reversed: bool, noBatch: bool, minsOver: bool, maxUnder: bool, tooFew: bool, crossed: bool,
                       xs: seq<Ingredient>)
    ensures var l := QualityListOf(FormAlertsOf(reversed, noBatch, minsOver, maxUnder, tooFew, crossed), xs);
      && (DayRangeReversed in l <==> reversed)
      && (NonPositiveBatch in l <==> noBatch)
      && (MinimumsOverHundred in l <==> minsOver)
      && (MaximumsUnderHundred in l <==> maxUnder)
      && (TooFewSelected in l <==> tooFew)
      && (ConstraintCrossed in l <==> crossed)
  {
    forall a | a in AlertsForAll(xs) ensures a.AboutIngredient() {
      AlertsForAllAbout(xs, a);
    }
  }

  /** Only findings about ingredients are in the list. */
  lemma AlertsForAllAbout(xs: seq<Ingredient>, a: QualityAlert)
    requires a in AlertsForAll(xs)
    ensures a.AboutIngredient()
  {
    AlertsForAllMember(xs, a);
  }

  /** No finding is raised exactly when no ingredient has an issue. */
  lemma {:induction false} AlertsForAllEmpty(xs: seq<Ingredient>)
    ensures AlertsForAll(xs) == [] <==> forall x :: x in xs ==> !IngredientIssue(x)
  {
    if xs != [] {
      var init, last := xs[..|xs| - 1], xs[|xs| - 1];
      AlertsForAllEmpty(init);
      assert xs == init + [last];
    }
  }
}
