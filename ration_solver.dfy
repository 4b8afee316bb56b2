/** The optimiser: twelve restarts of projected gradient descent on the
    penalised objective, recording every visited mix, and the answer built
    from the best feasible mix or, failing that, the best approximation. */
module RationSolver {
  import opened Options
  import opened RealMath
  import opened Ingredients
  import opened NutrientConstraints
  import opened NutrientProfiles
  import opened Penalties
  import opened Gradients
  import opened BoundedSimplex
  import opened SolverInputs
  import opened Candidates
  import opened RationSolutions
  import opened RationAssembly

  const RestartCount: nat := 12
  const MaxIterations: nat := 1200

  /** A restart stops early once the worst violation is below this ... */
  const EarlyExitViolation: real := 0.0001
  /** ... and this many iterations have passed. */
  const EarlyExitIteration: nat := 260

  const OptimizationFailedMessage: string := "Optimization failed. Please review constraints and ingredient data."

  /** What the projection guarantees of a mix: within the bounds and, when
      ordered bounds admit a total of one, summing to one up to 1e-9 plus
      1e-12 per ingredient. */
  predicate Admissible(x: seq<real>, lower: seq<real>, upper: seq<real>) {
    && SameLength(x, lower, upper)
    && Within(x, lower, upper)
    && (Reachable(lower, upper, 1.0) && Ordered(lower, upper) ==> Abs(Sum(x) - 1.0) <= 1e-9 + |x| as real * 1e-12)
  }

  /** A candidate's figures are those of its inclusions: the profile they
      give, their cost, the penalty and worst violation of that profile, and
      the penalised objective. */
  predicate Evaluated(c: Candidate, ingredients: seq<Ingredient>, constraints: seq<NutrientConstraint>,
                      coefficients: seq<real>)
  {
    && |c.inclusions| == |ingredients| == |coefficients|
    && (forall k :: k in c.profile && c.profile[k] == Level(c.inclusions, ingredients, k, |c.inclusions|))
    && c.cost == Dot(c.inclusions, Prices(ingredients))
    && c.penalty == PenaltyOf(constraints, c.profile)
    && c.maxViolation == MaxViolationOf(constraints, c.profile)
    && c.objective == Dot(c.inclusions, coefficients) + PenaltyWeight * c.penalty
  }

  /** A visited candidate: its figures are those of its mix, and the mix is admissible. */
  predicate Visited(c: Candidate, ingredients: seq<Ingredient>, constraints: seq<NutrientConstraint>,
                    coefficients: seq<real>, lower: seq<real>, upper: seq<real>)
  {
    Evaluated(c, ingredients, constraints, coefficients) && Admissible(c.inclusions, lower, upper)
  }

  /** Every candidate of `seen` is a visited candidate. */
  predicate AllVisited(seen: seq<Candidate>, ingredients: seq<Ingredient>, constraints: seq<NutrientConstraint>,
                       coefficients: seq<real>, lower: seq<real>, upper: seq<real>)
  {
    forall i {:trigger Visited(seen[i], ingredients, constraints, coefficients, lower, upper)} :: 0 <= i < |seen| ==>
      Visited(seen[i], ingredients, constraints, coefficients, lower, upper)
  }

  /** The mix after one descent step from a candidate at a given
      iteration: a step of the scheduled size against the gradient at the
      candidate's profile, projected back onto the bounds with total one. */
  function NextMix(c: Candidate, iteration: nat, ingredients: seq<Ingredient>, constraints: seq<NutrientConstraint>,
                   coefficients: seq<real>, lower: seq<real>, upper: seq<real>): (r: seq<real>)
    requires |c.inclusions| == |ingredients| == |coefficients| == |lower| == |upper|
    ensures |r| == |c.inclusions|
  {
    Projected(GradientStep(c.inclusions, GradientOf(coefficients, constraints, ingredients, c.profile),
                           StepSize(iteration)), lower, upper, 1.0)
  }

  /** A restart stops after evaluating a candidate at this iteration. */
  predicate EarlyExit(c: Candidate, iteration: nat) {
    c.maxViolation < EarlyExitViolation && iteration > EarlyExitIteration
  }

  /** The descent a restart follows, as a function of the candidate just
      evaluated and its iteration: the next mix for a right-sized
      candidate. */
  function Descent(ingredients: seq<Ingredient>, constraints: seq<NutrientConstraint>, coefficients: seq<real>,
                   lower: seq<real>, upper: seq<real>): (step: (Candidate, nat) -> seq<real>)
    requires |ingredients| == |coefficients| == |lower| == |upper|
  {
    (c: Candidate, k: nat) =>
      if |c.inclusions| == |ingredients| then NextMix(c, k, ingredients, constraints, coefficients, lower, upper)
      else c.inclusions
  }

  /** `step` agrees with the descent wherever a descent step is taken. The
      rule is only instantiated at a NextMix term, so a caller that never
      takes a step does not unfold the projection. */
  ghost predicate StepsLike(step: (Candidate, nat) -> seq<real>, ingredients: seq<Ingredient>,
                      constraints: seq<NutrientConstraint>, coefficients: seq<real>,
                      lower: seq<real>, upper: seq<real>)
    requires |ingredients| == |coefficients| == |lower| == |upper|
  {
    forall c: Candidate, k: nat {:trigger NextMix(c, k, ingredients, constraints, coefficients, lower, upper)} ::
      |c.inclusions| == |ingredients| ==>
        step(c, k) == NextMix(c, k, ingredients, constraints, coefficients, lower, upper)
  }

  /** The descent itself steps like the descent. */
  lemma DescentStepsLike(ingredients: seq<Ingredient>, constraints: seq<NutrientConstraint>, coefficients: seq<real>,
                         lower: seq<real>, upper: seq<real>)
    requires |ingredients| == |coefficients| == |lower| == |upper|
    ensures StepsLike(Descent(ingredients, constraints, coefficients, lower, upper),
                      ingredients, constraints, coefficients, lower, upper)
  {
    var step := Descent(ingredients, constraints, coefficients, lower, upper);
    forall c: Candidate, k: nat | |c.inclusions| == |ingredients|
      ensures step(c, k) == NextMix(c, k, ingredients, constraints, coefficients, lower, upper)
    {
    }
  }

  /** The candidates of a restart so far follow a descent from `start`:
      each holds `width` shares, the first sits at `start`, each later one
      at the step from its predecessor, and none before the last one
      triggered the early exit. */
  predicate Follows(run: seq<Candidate>, start: seq<real>, step: (Candidate, nat) -> seq<real>, width: nat)
    decreases |run|
  {
    if |run| == 0 then true
    else
      var k := |run| - 1;
      && Follows(run[..k], start, step, width)
      && |run[k].inclusions| == width
      && (k == 0 ==> run[k].inclusions == start)
      && (k > 0 ==> !EarlyExit(run[k - 1], k - 1) && run[k].inclusions == step(run[k - 1], k - 1))
  }

  /** A followed run, read candidate by candidate. */
  lemma {:induction false} FollowsAt(run: seq<Candidate>, start: seq<real>, step: (Candidate, nat) -> seq<real>,
                                     width: nat, k: nat)
    requires Follows(run, start, step, width)
    requires k < |run|
    ensures |run[k].inclusions| == width
    ensures k == 0 ==> run[0].inclusions == start
    ensures k > 0 ==> !EarlyExit(run[k - 1], k - 1) && run[k].inclusions == step(run[k - 1], k - 1)
    decreases |run|
  {
    var prefix := run[..|run| - 1];
    if k < |run| - 1 {
      FollowsAt(prefix, start, step, width, k);
      assert prefix[k] == run[k];
      if k > 0 {
        assert prefix[k - 1] == run[k - 1];
      }
    } else if k > 0 {
      assert prefix[k - 1] == run[k - 1];
    }
  }

  /** The mix a restart evaluates next, given its candidates so far:
      `start` for an empty run, otherwise the step from the last candidate,
      which did not exit early. */
  predicate Continues(run: seq<Candidate>, x: seq<real>, start: seq<real>, step: (Candidate, nat) -> seq<real>,
                      width: nat)
  {
    && (|run| == 0 ==> x == start)
    && (|run| > 0 ==>
          && |run[|run| - 1].inclusions| == width
          && !EarlyExit(run[|run| - 1], |run| - 1)
          && x == step(run[|run| - 1], |run| - 1))
  }

  /** After a candidate that does not exit early, the restart continues at
      the step from it. */
  lemma ContinuesStep(run: seq<Candidate>, c: Candidate, x: seq<real>, start: seq<real>,
                      step: (Candidate, nat) -> seq<real>, width: nat)
    requires |c.inclusions| == width && !EarlyExit(c, |run|) && x == step(c, |run|)
    ensures Continues(run + [c], x, start, step, width)
  {
    assert (run + [c])[|run|] == c;
  }

  /** Appending the candidate at the mix the restart continues at keeps a
      run followed. */
  lemma FollowsExtend(run: seq<Candidate>, c: Candidate, start: seq<real>, step: (Candidate, nat) -> seq<real>,
                      width: nat)
    requires Follows(run, start, step, width)
    requires |c.inclusions| == width
    requires Continues(run, c.inclusions, start, step, width)
    ensures Follows(run + [c], start, step, width)
  {
    assert (run + [c])[..|run|] == run;
  }

  /** A whole restart: a descent from the projected starting vector that
      ends after 1200 candidates or at the first candidate that triggers
      the early exit. */
  predicate RestartRun(run: seq<Candidate>, restart: nat, ingredients: seq<Ingredient>,
                       constraints: seq<NutrientConstraint>, coefficients: seq<real>, lower: seq<real>,
                       upper: seq<real>, draw: (nat, nat) -> real)
  {
    && |ingredients| == |coefficients| == |lower| == |upper|
    && 0 < |run| <= MaxIterations
    && Follows(run, Projected(StartVector(restart, lower, upper, draw), lower, upper, 1.0),
               Descent(ingredients, constraints, coefficients, lower, upper), |ingredients|)
    && (|run| == MaxIterations || EarlyExit(run[|run| - 1], |run| - 1))
  }

  /** A whole restart, read candidate by candidate: every candidate is
      right-sized, the first sits at the projected start, each later one at
      the descent step from its predecessor, and no candidate but the last
      triggered the early exit. */
  lemma RestartRunAt(run: seq<Candidate>, restart: nat, ingredients: seq<Ingredient>,
                     constraints: seq<NutrientConstraint>, coefficients: seq<real>, lower: seq<real>,
                     upper: seq<real>, draw: (nat, nat) -> real, k: nat)
    requires RestartRun(run, restart, ingredients, constraints, coefficients, lower, upper, draw)
    requires k < |run|
    ensures |run[k].inclusions| == |ingredients|
    ensures k == 0 ==> run[0].inclusions == Projected(StartVector(restart, lower, upper, draw), lower, upper, 1.0)
    ensures k > 0 ==>
      && |run[k - 1].inclusions| == |ingredients|
      && !EarlyExit(run[k - 1], k - 1)
      && run[k].inclusions == NextMix(run[k - 1], k - 1, ingredients, constraints, coefficients, lower, upper)
    ensures k < |run| - 1 ==> !EarlyExit(run[k], k)
  {
    var start := Projected(StartVector(restart, lower, upper, draw), lower, upper, 1.0);
    var step := Descent(ingredients, constraints, coefficients, lower, upper);
    FollowsAt(run, start, step, |ingredients|, k);
    if k > 0 {
      FollowsAt(run, start, step, |ingredients|, k - 1);
      assert step(run[k - 1], k - 1) == NextMix(run[k - 1], k - 1, ingredients, constraints, coefficients, lower, upper);
    }
    if k < |run| - 1 {
      FollowsAt(run, start, step, |ingredients|, k + 1);
    }
  }

  /** A run that follows the descent from the projected start, has at most
      1200 candidates and is full or ends at an early exit is a whole
      restart. */
  lemma RestartRunIntro(run: seq<Candidate>, restart: nat, ingredients: seq<Ingredient>,
                        constraints: seq<NutrientConstraint>, coefficients: seq<real>, lower: seq<real>,
                        upper: seq<real>, draw: (nat, nat) -> real, start: seq<real>)
    requires |ingredients| == |coefficients| == |lower| == |upper|
    requires start == Projected(StartVector(restart, lower, upper, draw), lower, upper, 1.0)
    requires 0 < |run| <= MaxIterations
    requires Follows(run, start, Descent(ingredients, constraints, coefficients, lower, upper), |ingredients|)
    requires |run| == MaxIterations || EarlyExit(run[|run| - 1], |run| - 1)
    ensures RestartRun(run, restart, ingredients, constraints, coefficients, lower, upper, draw)
  {
  }

  /** The candidates of several restarts, one after the other. */
  function Concat(runs: seq<seq<Candidate>>): (r: seq<Candidate>)
    ensures |runs| > 0 ==> r == Concat(runs[..|runs| - 1]) + runs[|runs| - 1]
  {
    if runs == [] then [] else Concat(runs[..|runs| - 1]) + runs[|runs| - 1]
  }

  /** The starting mix of a restart: the midpoints of the bounds on the
      first restart, a draw within them on the others, projected. */
  method InitialGuess(restart: nat, lower: seq<real>, upper: seq<real>, draw: (nat, nat) -> real)
    returns (inclusions: seq<real>)
    requires |lower| == |upper|
    ensures inclusions == Projected(StartVector(restart, lower, upper, draw), lower, upper, 1.0)
    ensures Admissible(inclusions, lower, upper)
    ensures !Reachable(lower, upper, 1.0) ==> inclusions == Shifted(StartVector(restart, lower, upper, draw), lower, upper, 0.0)
  {
    var guess := StartVector(restart, lower, upper, draw);
    inclusions := ProjectToBoundedSimplex(guess, lower, upper, 1.0);
  }

  /** The candidate at a mix: its profile, cost, penalty, worst violation
      and penalised objective. */
  method Assess(inclusions: seq<real>, ingredients: seq<Ingredient>, constraints: seq<NutrientConstraint>,
                coefficients: seq<real>) returns (c: Candidate)
    requires |inclusions| == |ingredients| == |coefficients|
    ensures c.inclusions == inclusions
    ensures Evaluated(c, ingredients, constraints, coefficients)
  {
    var profile := ProfileFor(inclusions, ingredients);
    var penalty, maxViolation := Evaluate(profile, constraints);
    var cost := Dot(inclusions, Prices(ingredients));
    var objective := Dot(inclusions, coefficients) + PenaltyWeight * penalty;
    c := Candidate(inclusions, profile, cost, penalty, maxViolation, objective);
  }

  /** One descent step from a candidate: the gradient at its profile, a
      step of the scheduled size against it, and the projection back onto
      the bounds. */
  method Descend(c: Candidate, iteration: nat, ingredients: seq<Ingredient>, constraints: seq<NutrientConstraint>,
                 coefficients: seq<real>, lower: seq<real>, upper: seq<real>) returns (next: seq<real>)
    requires |c.inclusions| == |ingredients| == |coefficients| == |lower| == |upper|
    ensures next == NextMix(c, iteration, ingredients, constraints, coefficients, lower, upper)
    ensures Admissible(next, lower, upper)
    ensures !Reachable(lower, upper, 1.0) ==>
      next == Shifted(GradientStep(c.inclusions, GradientOf(coefficients, constraints, ingredients, c.profile),
                                   StepSize(iteration)), lower, upper, 0.0)
  {
    var gradient := ComputeGradient(coefficients, constraints, ingredients, c.profile);
    var step := StepSize(iteration);
    var moved := GradientStep(c.inclusions, gradient, step);
    next := ProjectToBoundedSimplex(moved, lower, upper, 1.0);
  }

  /** One restart from the mix `start`: up to 1200 iterations, each
      evaluating the current mix, keeping it if it beats the best so far,
      and descending by `step`; it stops early when the mix it just
      evaluated violates nothing by 0.01% or more after iteration 260. The
      candidates it visits are `run`. */
  method RunRestart(start: seq<real>, ingredients: seq<Ingredient>, constraints: seq<NutrientConstraint>,
                    coefficients: seq<real>, lower: seq<real>, upper: seq<real>,
                    ghost step: (Candidate, nat) -> seq<real>,
                    feasible0: Option<Candidate>, approx0: Option<Candidate>, ghost seen0: seq<Candidate>)
    returns (feasible: Option<Candidate>, approx: Option<Candidate>, ghost seen: seq<Candidate>,
             ghost run: seq<Candidate>)
    requires |ingredients| == |coefficients| == |lower| == |upper|
    requires StepsLike(step, ingredients, constraints, coefficients, lower, upper)
    requires Admissible(start, lower, upper)
    requires feasible0 == BestFeasible(seen0) && approx0 == BestApprox(seen0)
    requires AllVisited(seen0, ingredients, constraints, coefficients, lower, upper)
    ensures seen == seen0 + run
    ensures 0 < |run| <= MaxIterations
    ensures Follows(run, start, step, |ingredients|)
    ensures |run| == MaxIterations || EarlyExit(run[|run| - 1], |run| - 1)
    ensures feasible == BestFeasible(seen) && approx == BestApprox(seen)
    ensures AllVisited(seen, ingredients, constraints, coefficients, lower, upper)
  {
    var inclusions := start;
    feasible, approx, seen, run := feasible0, approx0, seen0, [];
    for iteration := 0 to MaxIterations
      invariant |run| == iteration && seen == seen0 + run
      invariant feasible == BestFeasible(seen) && approx == BestApprox(seen)
      invariant AllVisited(seen, ingredients, constraints, coefficients, lower, upper)
      invariant Admissible(inclusions, lower, upper)
      invariant Follows(run, start, step, |ingredients|)
      invariant Continues(run, inclusions, start, step, |ingredients|)
    {
      var candidate;
      candidate, inclusions, feasible, approx, seen, run :=
        Iterate(ingredients, constraints, coefficients, lower, upper, start, step,
                iteration, inclusions, feasible, approx, seen0, seen, run);
      if EarlyExit(candidate, iteration) {
        break;
      }
    }
  }

  /** One iteration of a restart whose candidates so far are `run`: the
      candidate at the current mix, recorded if it beats the best so far,
      and the descent step from it. */
  method Iterate(ingredients: seq<Ingredient>, constraints: seq<NutrientConstraint>, coefficients: seq<real>,
                 lower: seq<real>, upper: seq<real>, ghost start: seq<real>, ghost step: (Candidate, nat) -> seq<real>,
                 iteration: nat, inclusions: seq<real>, feasible0: Option<Candidate>, approx0: Option<Candidate>,
                 ghost seen0: seq<Candidate>, ghost seen: seq<Candidate>, ghost run: seq<Candidate>)
    returns (candidate: Candidate, next: seq<real>, feasible: Option<Candidate>, approx: Option<Candidate>,
             ghost seen': seq<Candidate>, ghost run': seq<Candidate>)
    requires |ingredients| == |coefficients| == |lower| == |upper|
    requires StepsLike(step, ingredients, constraints, coefficients, lower, upper)
    requires iteration == |run| && seen == seen0 + run
    requires feasible0 == BestFeasible(seen) && approx0 == BestApprox(seen)
    requires AllVisited(seen, ingredients, constraints, coefficients, lower, upper)
    requires Admissible(inclusions, lower, upper)
    requires Follows(run, start, step, |ingredients|)
    requires Continues(run, inclusions, start, step, |ingredients|)
    ensures run' == run + [candidate] && seen' == seen0 + run'
    ensures feasible == BestFeasible(seen') && approx == BestApprox(seen')
    ensures AllVisited(seen', ingredients, constraints, coefficients, lower, upper)
    ensures Admissible(next, lower, upper)
    ensures Follows(run', start, step, |ingredients|)
    ensures !EarlyExit(candidate, iteration) ==> Continues(run', next, start, step, |ingredients|)
  {
    candidate := Assess(inclusions, ingredients, constraints, coefficients);
    feasible := RecordFeasible(feasible0, candidate);
    approx := RecordApprox(approx0, candidate);
    seen' := Extend(seen, candidate, ingredients, constraints, coefficients, lower, upper);
    AppendOne(seen0, run, candidate);
    FollowsExtend(run, candidate, start, step, |ingredients|);
    run' := run + [candidate];
    next := Descend(candidate, iteration, ingredients, constraints, coefficients, lower, upper);
    if !EarlyExit(candidate, iteration) {
      ContinuesStep(run, candidate, next, start, step, |ingredients|);
    }
  }

  lemma AppendOne(a: seq<Candidate>, b: seq<Candidate>, c: Candidate)
    ensures (a + b) + [c] == a + (b + [c])
  {
  }

  /** Appending a visited candidate: the best-so-far functions take one
      recording step and every candidate stays a visited one. */
  lemma Extend(seen: seq<Candidate>, c: Candidate, ingredients: seq<Ingredient>, constraints: seq<NutrientConstraint>,
               coefficients: seq<real>, lower: seq<real>, upper: seq<real>) returns (extended: seq<Candidate>)
    requires AllVisited(seen, ingredients, constraints, coefficients, lower, upper)
    requires Evaluated(c, ingredients, constraints, coefficients) && Admissible(c.inclusions, lower, upper)
    ensures extended == seen + [c]
    ensures extended[..|seen|] == seen && extended[|seen|] == c
    ensures BestFeasible(extended) == RecordFeasible(BestFeasible(seen), c)
    ensures BestApprox(extended) == RecordApprox(BestApprox(seen), c)
    ensures AllVisited(extended, ingredients, constraints, coefficients, lower, upper)
  {
    extended := seen + [c];
    assert extended[..|extended| - 1] == seen;
  }

  /** All restarts, each from its projected starting vector, carrying the
      best candidates from one to the next; `runs` holds the candidates of
      each restart in order. */
  method Search(ingredients: seq<Ingredient>, constraints: seq<NutrientConstraint>, coefficients: seq<real>,
                lower: seq<real>, upper: seq<real>, draw: (nat, nat) -> real)
    returns (feasible: Option<Candidate>, approx: Option<Candidate>, ghost seen: seq<Candidate>,
             ghost runs: seq<seq<Candidate>>)
    requires |ingredients| == |coefficients| == |lower| == |upper|
    ensures |runs| == RestartCount && seen == Concat(runs)
    ensures forall r :: 0 <= r < |runs| ==>
      RestartRun(runs[r], r, ingredients, constraints, coefficients, lower, upper, draw)
    ensures feasible == BestFeasible(seen) && approx == BestApprox(seen)
    ensures AllVisited(seen, ingredients, constraints, coefficients, lower, upper)
    ensures RestartCount <= |seen| <= RestartCount * MaxIterations
  {
    ghost var step := Descent(ingredients, constraints, coefficients, lower, upper);
    DescentStepsLike(ingredients, constraints, coefficients, lower, upper);
    feasible, approx, seen, runs := None, None, [], [];
    for restart := 0 to RestartCount
      invariant |runs| == restart && seen == Concat(runs)
      invariant forall r :: 0 <= r < |runs| ==>
        RestartRun(runs[r], r, ingredients, constraints, coefficients, lower, upper, draw)
      invariant feasible == BestFeasible(seen) && approx == BestApprox(seen)
      invariant AllVisited(seen, ingredients, constraints, coefficients, lower, upper)
      invariant restart <= |seen| <= restart * MaxIterations
    {
      var start := InitialGuess(restart, lower, upper, draw);
      ghost var run;
      feasible, approx, seen, run := RunRestart(start, ingredients, constraints, coefficients, lower, upper, step,
                                                feasible, approx, seen);
      RestartRunIntro(run, restart, ingredients, constraints, coefficients, lower, upper, draw, start);
      runs := NextRestart(runs, run, ingredients, constraints, coefficients, lower, upper, draw);
    }
  }

  /** Appending the next whole restart to the restarts so far. */
  lemma NextRestart(runs: seq<seq<Candidate>>, run: seq<Candidate>, ingredients: seq<Ingredient>,
                    constraints: seq<NutrientConstraint>, coefficients: seq<real>, lower: seq<real>,
                    upper: seq<real>, draw: (nat, nat) -> real) returns (extended: seq<seq<Candidate>>)
    requires forall r :: 0 <= r < |runs| ==>
      RestartRun(runs[r], r, ingredients, constraints, coefficients, lower, upper, draw)
    requires RestartRun(run, |runs|, ingredients, constraints, coefficients, lower, upper, draw)
    ensures extended == runs + [run] && Concat(extended) == Concat(runs) + run
    ensures forall r :: 0 <= r < |extended| ==>
      RestartRun(extended[r], r, ingredients, constraints, coefficients, lower, upper, draw)
  {
    extended := runs + [run];
    assert extended[..|runs|] == runs;
    forall r | 0 <= r < |extended|
      ensures RestartRun(extended[r], r, ingredients, constraints, coefficients, lower, upper, draw)
    {
      if r < |runs| {
        assert extended[r] == runs[r];
      }
    }
  }

  /** The optimiser's entry point: reject unusable input with the gate's
      message, otherwise search and report the winner. `draw` stands for
      the random starting shares of restarts after the first. */
  method Solve(ingredients: seq<Ingredient>, constraints: seq<NutrientConstraint>, mode: OptimizationMode,
               profitWeight: real, draw: (nat, nat) -> real)
    returns (solution: RationSolution, ghost visited: seq<Candidate>, ghost winner: nat,
             ghost runs: seq<seq<Candidate>>)
    ensures Validate(ingredients, constraints).Some? ==> solution == Empty(Validate(ingredients, constraints).value)
    ensures Validate(ingredients, constraints).None? ==>
      var coefficients := ObjectiveCoefficients(ingredients, mode, profitWeight);
      && |runs| == RestartCount && visited == Concat(runs)
      && (forall r :: 0 <= r < |runs| ==>
            RestartRun(runs[r], r, ingredients, constraints, coefficients,
                       LowerBounds(ingredients), UpperBounds(ingredients), draw))
      && AllVisited(visited, ingredients, constraints, coefficients, LowerBounds(ingredients), UpperBounds(ingredients))
      && winner < |visited|
      && Visited(visited[winner], ingredients, constraints, coefficients, LowerBounds(ingredients), UpperBounds(ingredients))
      && solution == Assemble(visited[winner], IsFeasible(visited[winner]), mode, ingredients, constraints, coefficients)
      && (IsFeasible(visited[winner]) <==> exists i :: 0 <= i < |visited| && IsFeasible(visited[i]))
      && (IsFeasible(visited[winner]) ==> CheapestFirst(visited, winner))
      && (!IsFeasible(visited[winner]) ==> BestApprox(visited) == Some(visited[winner]))
  {
    visited, winner, runs := [], 0, [];
    var rejection := Validate(ingredients, constraints);
    if rejection.Some? {
      solution := Empty(rejection.value);
      return;
    }
    var lower := LowerBounds(ingredients);
    var upper := UpperBounds(ingredients);
    var coefficients := ObjectiveCoefficients(ingredients, mode, profitWeight);
    var feasible, approx;
    feasible, approx, visited, runs := Search(ingredients, constraints, coefficients, lower, upper, draw);
    SomeBest(visited);
    BestFeasibleExists(visited);
    if feasible.Some? {
      winner := BestFeasibleCheapest(visited);
      assert Visited(visited[winner], ingredients, constraints, coefficients, lower, upper);
      solution := Assemble(feasible.value, true, mode, ingredients, constraints, coefficients);
    } else if approx.Some? {
      BestApproxSpec(visited);
      winner :| 0 <= winner < |visited| && visited[winner] == approx.value && !IsFeasible(visited[winner]);
      assert Visited(visited[winner], ingredients, constraints, coefficients, lower, upper);
      solution := Assemble(approx.value, false, mode, ingredients, constraints, coefficients);
    } else {
      solution := Empty(OptimizationFailedMessage);
    }
  }
}
