/** The mixes the search visits and the rules that keep the best of them:
    one best candidate among those within the feasibility threshold (lowest
    cost), and one among the others (lowest penalty, near-ties broken by
    the objective). */
module Candidates {
  import opened Options
  import opened RealMath
  import opened NutrientProfiles

  /** Worst relative violation up to which a candidate counts as feasible. */
  const FeasibleThreshold: real := 0.0012

  /** Penalties closer than this are treated as equal. */
  const PenaltyTieTolerance: real := 1e-9

  datatype Candidate = Candidate(
    inclusions: seq<real>,
    profile: Profile,
    cost: real,
    penalty: real,
    maxViolation: real,
    objective: real)

  predicate IsFeasible(c: Candidate) {
    c.maxViolation <= FeasibleThreshold
  }

  /** A feasible candidate replaces the best feasible one only at strictly
      lower cost. */
  predicate BeatsFeasible(c: Candidate, best: Option<Candidate>) {
    best.None? || c.cost < best.value.cost
  }

  /** Another candidate replaces the best approximation at strictly lower
      penalty, or at a penalty within the tie tolerance and strictly lower
      objective. */
  predicate BeatsApprox(c: Candidate, best: Option<Candidate>) {
    || best.None?
    || c.penalty < best.value.penalty
    || (Abs(c.penalty - best.value.penalty) < PenaltyTieTolerance && c.objective < best.value.objective)
  }

  /** The best feasible candidate after seeing one more. */
  function RecordFeasible(best: Option<Candidate>, c: Candidate): Option<Candidate> {
    if IsFeasible(c) && BeatsFeasible(c, best) then Some(c) else best
  }

  /** The best approximation after seeing one more. */
  function RecordApprox(best: Option<Candidate>, c: Candidate): Option<Candidate> {
    if !IsFeasible(c) && BeatsApprox(c, best) then Some(c) else best
  }

  /** The best feasible candidate of a run that visited `seen` in order. */
  function BestFeasible(seen: seq<Candidate>): Option<Candidate> {
    if seen == [] then None else RecordFeasible(BestFeasible(seen[..|seen| - 1]), seen[|seen| - 1])
  }

  /** The best approximation of a run that visited `seen` in order. */
  function BestApprox(seen: seq<Candidate>): Option<Candidate> {
    if seen == [] then None else RecordApprox(BestApprox(seen[..|seen| - 1]), seen[|seen| - 1])
  }

  /** seen[k] is feasible, no feasible candidate of `seen` is cheaper, and
      every feasible one before it is dearer. */
  predicate CheapestFirst(seen: seq<Candidate>, k: nat) {
    && k < |seen| && IsFeasible(seen[k])
    && (forall i :: 0 <= i < |seen| && IsFeasible(seen[i]) ==> seen[k].cost <= seen[i].cost)
    && (forall i :: 0 <= i < k && IsFeasible(seen[i]) ==> seen[k].cost < seen[i].cost)
  }

  /** The best feasible candidate exists exactly when a feasible candidate
      was seen. */
  lemma {:induction false} BestFeasibleExists(seen: seq<Candidate>)
    ensures BestFeasible(seen).None? <==> forall i :: 0 <= i < |seen| ==> !IsFeasible(seen[i])
  {
    if seen != [] {
      var init := seen[..|seen| - 1];
      BestFeasibleExists(init);
      assert forall i :: 0 <= i < |init| ==> init[i] == seen[i];
    }
  }

  /** When it exists, the best feasible candidate is the cheapest feasible
      one seen, and the first seen at that cost. */
  lemma {:induction false} BestFeasibleCheapest(seen: seq<Candidate>) returns (k: nat)
    requires BestFeasible(seen).Some?
    ensures CheapestFirst(seen, k) && seen[k] == BestFeasible(seen).value
  {
    var init := seen[..|seen| - 1];
    var c := seen[|seen| - 1];
    assert forall i :: 0 <= i < |init| ==> init[i] == seen[i];
    if BestFeasible(init).Some? {
      var j := BestFeasibleCheapest(init);
      if BestFeasible(seen) == BestFeasible(init) {
        k := j;
        assert !IsFeasible(c) || c.cost >= init[j].cost;
      } else {
        k := |seen| - 1;
        assert c.cost < init[j].cost;
      }
    } else {
      BestFeasibleExists(init);
      k := |seen| - 1;
    }
  }

  /** The best approximation exists exactly when an infeasible candidate was
      seen, and it is one of them. */
  lemma {:induction false} BestApproxSpec(seen: seq<Candidate>)
    ensures BestApprox(seen).None? <==> forall i :: 0 <= i < |seen| ==> IsFeasible(seen[i])
    ensures BestApprox(seen).Some? ==>
      exists k :: 0 <= k < |seen| && seen[k] == BestApprox(seen).value && !IsFeasible(seen[k])
  {
    if seen != [] {
      var init := seen[..|seen| - 1];
      BestApproxSpec(init);
      assert forall i :: 0 <= i < |init| ==> init[i] == seen[i];
      if BestApprox(seen).Some? && BestApprox(seen) == BestApprox(init) {
        var k :| 0 <= k < |init| && init[k] == BestApprox(init).value && !IsFeasible(init[k]);
        assert seen[k] == init[k];
      }
    }
  }

  /** After an infeasible candidate is recorded, the best approximation's
      penalty is at most that candidate's, and at most the tie tolerance
      above the previous best's: a near-tie can trade a sliver of penalty
      for a better objective. */
  lemma RecordApproxPenalty(best: Option<Candidate>, c: Candidate)
    requires !IsFeasible(c)
    ensures RecordApprox(best, c).Some?
    ensures RecordApprox(best, c).value.penalty <= c.penalty
    ensures best.Some? ==> RecordApprox(best, c).value.penalty < best.value.penalty + PenaltyTieTolerance
  {
  }

  /** A run that saw anything has a best candidate of one kind or the other,
      so the search always has an answer to report. */
  lemma SomeBest(seen: seq<Candidate>)
    requires |seen| > 0
    ensures BestFeasible(seen).Some? || BestApprox(seen).Some?
  {
    BestFeasibleExists(seen);
    BestApproxSpec(seen);
    if BestFeasible(seen).None? {
      assert !IsFeasible(seen[0]);
    }
  }
}
