/** What the desktop web optimiser reports: a status per nutrient
    constraint, the listed ingredients in decreasing order of inclusion, and
    the summary message. */
module ElectronResults {
  import opened Options
  import opened ElectronTypes
  import opened ElectronCalculations

  datatype Status = Ok | Low | High

  datatype NutrientResult = NutrientResult(name: string, value: real, unit: string, status: Status)

  datatype IngredientResult = IngredientResult(name: string, percentage: real)

  datatype Verdict = Feasible | Infeasible

  datatype FormulationResult = FormulationResult(
    ingredients: seq<IngredientResult>,
    nutrients: seq<NutrientResult>,
    totalCost: real,
    status: Verdict,
    message: string)

  const NoIngredientsMessage: string := "No ingredients selected"
  const ApproximatedMessage: string := "Formulation approximated - some constraints may not be met exactly"

  /** Share of a bound a value may fall short of a minimum, or run over a
      maximum, before it is reported. */
  const LowTolerance: real := 0.95
  const HighTolerance: real := 1.05

  /** Whether a value meets both bounds a constraint sets, exactly. */
  predicate Satisfied(c: Constraint, v: real) {
    (c.min.None? || v >= c.min.value) && (c.max.None? || v <= c.max.value)
  }

  /** The status of one nutrient: high beyond 105% of a maximum, otherwise
      low under 95% of a minimum, otherwise ok. */
  function Assess(c: Constraint, v: real): (r: Status)
    ensures r == High <==> c.max.Some? && v > c.max.value * HighTolerance
    ensures r == Low <==> (c.min.Some? && v < c.min.value * LowTolerance
      && !(c.max.Some? && v > c.max.value * HighTolerance))
    ensures r == Ok <==> ((c.min.None? || v >= c.min.value * LowTolerance)
      && (c.max.None? || v <= c.max.value * HighTolerance))
  {
    var status := if c.min.Some? && v < c.min.value * LowTolerance then Low else Ok;
    if c.max.Some? && v > c.max.value * HighTolerance then High else status
  }

  /** With non-negative bounds a value that meets a constraint exactly is
      reported ok: the tolerances only widen the accepted range. */
  lemma SatisfiedIsOk(c: Constraint, v: real)
    requires c.min.None? || c.min.value >= 0.0
    requires c.max.None? || c.max.value >= 0.0
    requires Satisfied(c, v)
    ensures Assess(c, v) == Ok
  {
  }

  /** A bound may be reported as met while being missed by up to 5%. */
  lemma ToleranceAcceptsShortfall()
    ensures var c := Constraint(CrudeProtein, "Crude Protein", "%", Some(20.0), None);
      !Satisfied(c, 19.5) && Assess(c, 19.5) == Ok
  {
  }

  /** The reported line of one constraint for the formula's totals. */
  function Assessed(c: Constraint, totals: NutrientValues): NutrientResult {
    var v := totals.Get(c.key);
    NutrientResult(c.name, v, c.unit, Assess(c, v))
  }

  /** The constraint pass: one line per constraint, in order, and the
      feasible flag cleared by any line that is low or high. */
  method AssessNutrients(cons: seq<Constraint>, totals: NutrientValues)
    returns (results: seq<NutrientResult>, feasible: bool)
    ensures |results| == |cons|
    ensures forall i :: 0 <= i < |cons| ==> results[i] == Assessed(cons[i], totals)
    ensures feasible <==> forall i :: 0 <= i < |cons| ==> results[i].status == Ok
  {
    feasible := true;
    results := [];
    var i := 0;
    while i < |cons|
      invariant 0 <= i <= |cons|
      invariant |results| == i
      invariant forall j :: 0 <= j < i ==> results[j] == Assessed(cons[j], totals)
      invariant feasible <==> forall j :: 0 <= j < i ==> results[j].status == Ok
    {
      var c := cons[i];
      var value := totals.Get(c.key);
      var status := Ok;
      if c.min.Some? && value < c.min.value * LowTolerance {
        feasible := false;
        status := Low;
      }
      if c.max.Some? && value > c.max.value * HighTolerance {
        feasible := false;
        status := High;
      }
      results := results + [NutrientResult(c.name, value, c.unit, status)];
      i := i + 1;
    }
  }

  /** The name shown for a mix entry: the ingredient's name, or the
      identifier when the ingredient is unknown or its name is empty. */
  function Label(ings: seq<Ingredient>, entry: (string, real)): (r: IngredientResult)
    ensures r.percentage == entry.1
    ensures r.name == entry.0 || exists i :: 0 <= i < |ings| && ings[i].id == entry.0 && ings[i].name == r.name
  {
    match Find(ings, entry.0)
    case Some(ing) => IngredientResult(if ing.name != "" then ing.name else entry.0, entry.1)
    case None => IngredientResult(entry.0, entry.1)
  }

  /** The labelled entries above 0.01%, in enumeration order. */
  function Listed(ings: seq<Ingredient>, mix: Mix): (r: seq<IngredientResult>)
    ensures |r| <= |mix|
    ensures forall i :: 0 <= i < |r| ==> r[i].percentage > 0.01
  {
    if mix == [] then []
    else
      var rest := Listed(ings, mix[..|mix| - 1]);
      var x := Label(ings, mix[|mix| - 1]);
      if x.percentage > 0.01 then rest + [x] else rest
  }

  /** Exactly the labels of the entries above 0.01% are listed. */
  lemma {:induction false} ListedContents(ings: seq<Ingredient>, mix: Mix, x: IngredientResult)
    ensures x in Listed(ings, mix) <==>
      exists i :: 0 <= i < |mix| && mix[i].1 > 0.01 && Label(ings, mix[i]) == x
  {
    if mix != [] {
      var init := mix[..|mix| - 1];
      ListedContents(ings, init, x);
      if exists i :: 0 <= i < |mix| && mix[i].1 > 0.01 && Label(ings, mix[i]) == x {
        var i :| 0 <= i < |mix| && mix[i].1 > 0.01 && Label(ings, mix[i]) == x;
        if i < |mix| - 1 {
          assert init[i] == mix[i];
        }
      }
      if x in Listed(ings, init) {
        var i :| 0 <= i < |init| && init[i].1 > 0.01 && Label(ings, init[i]) == x;
        assert mix[i] == init[i];
      }
    }
  }

  predicate Descending(r: seq<IngredientResult>) {
    forall i, j :: 0 <= i < j < |r| ==> r[i].percentage >= r[j].percentage
  }

  /** `x` placed into a descending list before the first entry it is not
      smaller than. */
  function InsertByPercentage(x: IngredientResult, sorted: seq<IngredientResult>): (r: seq<IngredientResult>)
    requires Descending(sorted)
    ensures Descending(r)
    ensures multiset(r) == multiset(sorted) + multiset{x}
  {
    if sorted == [] || x.percentage >= sorted[0].percentage then
      InsertFront(x, sorted);
      [x] + sorted
    else
      DescendingTail(sorted);
      var rest := InsertByPercentage(x, sorted[1..]);
      InsertBehind(x, sorted, rest);
      [sorted[0]] + rest
  }

  /** Dropping the head keeps a list descending. */
  lemma DescendingTail(sorted: seq<IngredientResult>)
    requires sorted != [] && Descending(sorted)
    ensures Descending(sorted[1..])
  {
    var t := sorted[1..];
    forall i, j | 0 <= i < j < |t| ensures t[i].percentage >= t[j].percentage {
      assert t[i] == sorted[i + 1] && t[j] == sorted[j + 1];
    }
  }

  /** An entry not smaller than the head of a descending list may go first. */
  lemma InsertFront(x: IngredientResult, sorted: seq<IngredientResult>)
    requires Descending(sorted)
    requires sorted == [] || x.percentage >= sorted[0].percentage
    ensures Descending([x] + sorted)
    ensures multiset([x] + sorted) == multiset(sorted) + multiset{x}
  {
    var r := [x] + sorted;
    forall i, j | 0 <= i < j < |r| ensures r[i].percentage >= r[j].percentage {
      assert r[j] == sorted[j - 1];
      if i > 0 {
        assert r[i] == sorted[i - 1];
      } else {
        assert sorted[0].percentage >= sorted[j - 1].percentage;
      }
    }
  }

  /** The head of a descending list stays in front of the list's tail with
      a smaller entry inserted. */
  lemma InsertBehind(x: IngredientResult, sorted: seq<IngredientResult>, rest: seq<IngredientResult>)
    requires sorted != [] && Descending(sorted)
    requires x.percentage < sorted[0].percentage
    requires Descending(rest)
    requires multiset(rest) == multiset(sorted[1..]) + multiset{x}
    ensures Descending([sorted[0]] + rest)
    ensures multiset([sorted[0]] + rest) == multiset(sorted) + multiset{x}
  {
    assert sorted == [sorted[0]] + sorted[1..];
    forall y | y in sorted[1..] ensures sorted[0].percentage >= y.percentage {
      var k :| 0 <= k < |sorted[1..]| && sorted[1..][k] == y;
      assert sorted[k + 1] == y;
    }
    HeadDominates(sorted[0], rest, sorted[1..], x);
    var r := [sorted[0]] + rest;
    forall i, j | 0 <= i < j < |r| ensures r[i].percentage >= r[j].percentage {
      assert r[j] == rest[j - 1];
      if i > 0 {
        assert r[i] == rest[i - 1];
      }
    }
  }

  /** An entry at least as large as every entry of `tail` and as `x` is at
      least as large as every entry of a permutation of the two. */
  lemma HeadDominates(head: IngredientResult, rest: seq<IngredientResult>, tail: seq<IngredientResult>, x: IngredientResult)
    requires multiset(rest) == multiset(tail) + multiset{x}
    requires forall y :: y in tail ==> head.percentage >= y.percentage
    requires head.percentage >= x.percentage
    ensures forall i :: 0 <= i < |rest| ==> head.percentage >= rest[i].percentage
  {
    forall i | 0 <= i < |rest| ensures head.percentage >= rest[i].percentage {
      assert rest[i] in multiset(rest);
      assert rest[i] in multiset(tail) || rest[i] == x;
    }
  }

  /** The listed entries sorted by percentage, largest first: the same
      entries in non-increasing order of percentage. */
  function SortByPercentage(s: seq<IngredientResult>): (r: seq<IngredientResult>)
    ensures Descending(r)
    ensures multiset(r) == multiset(s)
    ensures |r| == |s|
  {
    if s == [] then []
    else
      assert s == [s[0]] + s[1..];
      InsertByPercentage(s[0], SortByPercentage(s[1..]))
  }

  /** The ingredient lines of the report. */
  function IngredientResults(ings: seq<Ingredient>, mix: Mix): seq<IngredientResult> {
    SortByPercentage(Listed(ings, mix))
  }

  /** The report lists, in non-increasing order, exactly the labels of the
      entries above 0.01%, each as often as it occurs. */
  lemma IngredientResultsShape(ings: seq<Ingredient>, mix: Mix)
    ensures Descending(IngredientResults(ings, mix))
    ensures multiset(IngredientResults(ings, mix)) == multiset(Listed(ings, mix))
    ensures forall i :: 0 <= i < |IngredientResults(ings, mix)| ==> IngredientResults(ings, mix)[i].percentage > 0.01
  {
    var r := IngredientResults(ings, mix);
    var l := Listed(ings, mix);
    forall i | 0 <= i < |r| ensures r[i].percentage > 0.01 {
      assert r[i] in multiset(l);
    }
  }

  /** The digit character for 0 to 9. */
  function Digit(d: nat): char
    requires d < 10
  {
    "0123456789"[d]
  }

  /** The decimal rendering of a count, as a template literal prints it. */
  function DecimalString(n: nat): (r: string)
    ensures |r| >= 1
    ensures forall i :: 0 <= i < |r| ==> '0' <= r[i] <= '9'
    ensures |r| > 1 ==> r[0] != '0'
    decreases n
  {
    if n < 10 then [Digit(n)] else DecimalString(n / 10) + [Digit(n % 10)]
  }

  /** The value of a string of decimal digits. */
  function DecimalValue(s: string): nat
    requires forall i :: 0 <= i < |s| ==> '0' <= s[i] <= '9'
  {
    if s == [] then 0
    else DecimalValue(s[..|s| - 1]) * 10 + (s[|s| - 1] as int - '0' as int)
  }

  /** Reading back a rendered count gives the count. */
  lemma {:induction false} DecimalRoundTrip(n: nat)
    ensures DecimalValue(DecimalString(n)) == n
  {
    var s := DecimalString(n);
    if n < 10 {
      assert s[..0] == [];
    } else {
      DecimalRoundTrip(n / 10);
      assert s[..|s| - 1] == DecimalString(n / 10);
    }
  }

  /** The message of a feasible formulation. */
  function FoundMessage(count: nat): string {
    "Optimized formulation found with " + DecimalString(count) + " ingredients"
  }

  /** The report's verdict and message from the feasible flag. */
  function Conclude(ingredients: seq<IngredientResult>, nutrients: seq<NutrientResult>, totalCost: real, feasible: bool): (r: FormulationResult)
    ensures r.status == Feasible <==> feasible
    ensures r.message == (if feasible then FoundMessage(|ingredients|) else ApproximatedMessage)
    ensures r.ingredients == ingredients && r.nutrients == nutrients && r.totalCost == totalCost
  {
    FormulationResult(ingredients, nutrients, totalCost,
      if feasible then Feasible else Infeasible,
      if feasible then FoundMessage(|ingredients|) else ApproximatedMessage)
  }
}
