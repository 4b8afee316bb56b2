/** Projection of a vector of inclusion shares onto the box [lo, hi] with a
    prescribed total: a bisection on a common shift followed by a bounded
    number of passes that spread the remaining difference over the entries
    that can still move. */
module BoundedSimplex {
  import opened RealMath

  /** Number of halvings of the shift bracket. */
  const BisectionSteps: nat := 90

  predicate SameLength(values: seq<real>, lo: seq<real>, hi: seq<real>) {
    |lo| == |values| && |hi| == |values|
  }

  /** Every entry is at most its upper bound, and at least its lower bound
      wherever the two bounds are ordered. */
  predicate Within(p: seq<real>, lo: seq<real>, hi: seq<real>)
    requires SameLength(p, lo, hi)
  {
    forall i :: 0 <= i < |p| ==> p[i] <= hi[i] && (lo[i] <= hi[i] ==> lo[i] <= p[i])
  }

  predicate Ordered(lo: seq<real>, hi: seq<real>)
    requires |lo| == |hi|
  {
    forall i :: 0 <= i < |lo| ==> lo[i] <= hi[i]
  }

  /** The target total lies between the sums of the bounds, up to 1e-9. */
  predicate Reachable(lo: seq<real>, hi: seq<real>, target: real) {
    Sum(lo) <= target + 1e-9 && Sum(hi) >= target - 1e-9
  }

  /** Every value lowered by t and clamped into its bounds. */
  function Shifted(values: seq<real>, lo: seq<real>, hi: seq<real>, t: real): (r: seq<real>)
    requires SameLength(values, lo, hi)
    ensures |r| == |values|
    ensures forall i :: 0 <= i < |r| ==> r[i] == Clamp(values[i] - t, lo[i], hi[i])
  {
    seq(|values|, i requires 0 <= i < |values| => Clamp(values[i] - t, lo[i], hi[i]))
  }

  /** A shifted-and-clamped vector always lies within the bounds. */
  lemma ShiftedWithin(values: seq<real>, lo: seq<real>, hi: seq<real>, t: real)
    requires SameLength(values, lo, hi)
    ensures Within(Shifted(values, lo, hi, t), lo, hi)
  {
  }

  /** A larger shift never gives a larger total. */
  lemma ShiftedSumMonotone(values: seq<real>, lo: seq<real>, hi: seq<real>, t1: real, t2: real)
    requires SameLength(values, lo, hi) && t1 <= t2
    ensures Sum(Shifted(values, lo, hi, t2)) <= Sum(Shifted(values, lo, hi, t1))
  {
    var a, b := Shifted(values, lo, hi, t2), Shifted(values, lo, hi, t1);
    forall i | 0 <= i < |a| ensures a[i] <= b[i] {
      ClampMonotone(values[i] - t2, values[i] - t1, lo[i], hi[i]);
    }
    SumMonotone(a, b);
  }

  function Gaps(values: seq<real>, bounds: seq<real>): (r: seq<real>)
    requires |bounds| == |values|
    ensures |r| == |values| && forall i :: 0 <= i < |r| ==> r[i] == values[i] - bounds[i]
  {
    seq(|values|, i requires 0 <= i < |values| => values[i] - bounds[i])
  }

  function MinOf(s: seq<real>): (r: real)
    requires |s| > 0
    ensures r in s && forall i :: 0 <= i < |s| ==> r <= s[i]
  {
    if |s| == 1 then s[0] else Min(MinOf(s[..|s| - 1]), s[|s| - 1])
  }

  function MaxOf(s: seq<real>): (r: real)
    requires |s| > 0
    ensures r in s && forall i :: 0 <= i < |s| ==> s[i] <= r
  {
    if |s| == 1 then s[0] else Max(MaxOf(s[..|s| - 1]), s[|s| - 1])
  }

  /** Shifting by the smallest value-minus-upper gap clamps every entry to
      its upper bound; shifting by the largest value-minus-lower gap clamps
      every entry to at most its lower bound. */
  lemma InitialBracket(values: seq<real>, lo: seq<real>, hi: seq<real>)
    requires SameLength(values, lo, hi) && |values| > 0
    ensures Shifted(values, lo, hi, MinOf(Gaps(values, hi))) == hi
    ensures Sum(Shifted(values, lo, hi, MaxOf(Gaps(values, lo)))) <= Sum(lo)
  {
    var low, high := MinOf(Gaps(values, hi)), MaxOf(Gaps(values, lo));
    var a := Shifted(values, lo, hi, high);
    assert forall i :: 0 <= i < |values| ==> low <= values[i] - hi[i] && values[i] - high <= lo[i];
    SumMonotone(a, lo);
  }

  /** The shifted total as a function of the shift. */
  function TotalAt(values: seq<real>, lo: seq<real>, hi: seq<real>): real -> real
    requires SameLength(values, lo, hi)
  {
    t => Sum(Shifted(values, lo, hi, t))
  }

  /** One bisection step: the midpoint replaces the low end when the total
      there exceeds the target, and the high end otherwise. */
  function Halve(total: real -> real, target: real, low: real, high: real): (real, real) {
    var mid := (low + high) / 2.0;
    if total(mid) > target then (mid, high) else (low, mid)
  }

  /** The bracket after `steps` bisection steps from [low, high]. */
  function BisectFrom(total: real -> real, target: real, low: real, high: real, steps: nat): (real, real)
    decreases steps
  {
    if steps == 0 then (low, high)
    else
      var next := Halve(total, target, low, high);
      BisectFrom(total, target, next.0, next.1, steps - 1)
  }

  /** Bisection keeps the bracket: the total at the low end stays at least
      the target and at the high end at most the target (each up to 1e-9),
      while each step halves the width. */
  lemma {:induction false} BisectBracket(total: real -> real, target: real, low: real, high: real, steps: nat)
    requires total(low) >= target - 1e-9
    requires total(high) <= target + 1e-9
    ensures var r := BisectFrom(total, target, low, high, steps);
      && total(r.0) >= target - 1e-9
      && total(r.1) <= target + 1e-9
      && r.1 - r.0 == Halved(high - low, steps)
    decreases steps
  {
    if steps > 0 {
      var next := Halve(total, target, low, high);
      HalvedFirst(high - low, steps - 1);
      assert next.1 - next.0 == (high - low) / 2.0;
      BisectBracket(total, target, next.0, next.1, steps - 1);
    }
  }

  /** The body of the bisection loop: the shifted total at the midpoint
      decides which end moves. */
  method HalveBracket(values: seq<real>, lo: seq<real>, hi: seq<real>, target: real, low: real, high: real)
    returns (low': real, high': real)
    requires SameLength(values, lo, hi)
    ensures (low', high') == Halve(TotalAt(values, lo, hi), target, low, high)
  {
    var mid := (low + high) / 2.0;
    var sum := Sum(Shifted(values, lo, hi, mid));
    if sum > target {
      low', high' := mid, high;
    } else {
      low', high' := low, mid;
    }
  }

  /** Halves the bracket [low0, high0] of the shift `steps` times
      (BisectionSteps in the projection), keeping it around the target. */
  method Bisect(values: seq<real>, lo: seq<real>, hi: seq<real>, target: real, low0: real, high0: real,
                steps: nat)
    returns (low: real, high: real)
    requires SameLength(values, lo, hi)
    requires TotalAt(values, lo, hi)(low0) >= target - 1e-9
    requires TotalAt(values, lo, hi)(high0) <= target + 1e-9
    ensures low == BisectFrom(TotalAt(values, lo, hi), target, low0, high0, steps).0
    ensures high == BisectFrom(TotalAt(values, lo, hi), target, low0, high0, steps).1
    ensures TotalAt(values, lo, hi)(low) >= target - 1e-9
    ensures TotalAt(values, lo, hi)(high) <= target + 1e-9
    ensures high - low == Halved(high0 - low0, steps)
    ensures low0 <= high0 ==> low <= high
  {
    low, high := low0, high0;
    for step := 0 to steps
      invariant BisectFrom(TotalAt(values, lo, hi), target, low, high, steps - step)
             == BisectFrom(TotalAt(values, lo, hi), target, low0, high0, steps)
    {
      low, high := HalveBracket(values, lo, hi, target, low, high);
    }
    BisectBracket(TotalAt(values, lo, hi), target, low0, high0, steps);
    if low0 <= high0 {
      HalvedNonNegative(high0 - low0, steps);
    }
  }

  /** A width halved k times. */
  function Halved(w: real, k: nat): real {
    if k == 0 then w else Halved(w, k - 1) / 2.0
  }

  /** Halving once more first is halving k + 1 times. */
  lemma {:induction false} HalvedFirst(w: real, k: nat)
    ensures Halved(w / 2.0, k) == Halved(w, k + 1)
  {
    if k > 0 {
      HalvedFirst(w, k - 1);
    }
  }

  /** Halving never makes a width negative, so bisection keeps the low
      end at or below the high end. */
  lemma {:induction false} HalvedNonNegative(w: real, k: nat)
    requires w >= 0.0
    ensures Halved(w, k) >= 0.0
  {
    if k > 0 {
      HalvedNonNegative(w, k - 1);
    }
  }

  /** Halving k times divides by 2^k, so the bracket shrinks geometrically. */
  lemma {:induction false} HalvedIsDivision(w: real, k: nat)
    ensures Halved(w, k) * Pow(2.0, k) == w
  {
    if k > 0 {
      HalvedIsDivision(w, k - 1);
      calc {
        Halved(w, k) * Pow(2.0, k);
        (Halved(w, k - 1) / 2.0) * (2.0 * Pow(2.0, k - 1));
        { assert (Halved(w, k - 1) / 2.0) * 2.0 == Halved(w, k - 1); }
        Halved(w, k - 1) * Pow(2.0, k - 1);
      }
    }
  }

  // ---------------------------------------------------------------- residual passes

  /** Entry i can still move in the direction of the remaining difference:
      up when raising, down otherwise, by more than 1e-12. */
  predicate Adjustable(p: seq<real>, lo: seq<real>, hi: seq<real>, i: nat, raise: bool)
    requires SameLength(p, lo, hi) && i < |p|
  {
    if raise then p[i] < hi[i] - 1e-12 else p[i] > lo[i] + 1e-12
  }

  /** The adjustable indices from `from` on, in increasing order. */
  function AdjustableFrom(p: seq<real>, lo: seq<real>, hi: seq<real>, raise: bool, from: nat): (r: seq<nat>)
    requires SameLength(p, lo, hi) && from <= |p|
    ensures forall k :: 0 <= k < |r| ==> from <= r[k] < |p| && Adjustable(p, lo, hi, r[k], raise)
    ensures forall k, m :: 0 <= k < m < |r| ==> r[k] < r[m]
    ensures forall i :: from <= i < |p| && Adjustable(p, lo, hi, i, raise) ==> i in r
    decreases |p| - from
  {
    if from == |p| then []
    else
      var rest := AdjustableFrom(p, lo, hi, raise, from + 1);
      if Adjustable(p, lo, hi, from, raise) then
        assert forall k :: 0 < k <= |rest| ==> ([from] + rest)[k] == rest[k - 1];
        [from] + rest
      else rest
  }

  /** Number of adjustable indices below n. */
  function CountAdjustable(p: seq<real>, lo: seq<real>, hi: seq<real>, raise: bool, n: nat): nat
    requires SameLength(p, lo, hi) && n <= |p|
  {
    if n == 0 then 0
    else CountAdjustable(p, lo, hi, raise, n - 1) + (if Adjustable(p, lo, hi, n - 1, raise) then 1 else 0)
  }

  lemma {:induction false} CountBounds(p: seq<real>, lo: seq<real>, hi: seq<real>, raise: bool, n: nat)
    requires SameLength(p, lo, hi) && n <= |p|
    ensures CountAdjustable(p, lo, hi, raise, n) <= n
    ensures CountAdjustable(p, lo, hi, raise, n) == 0 <==> forall i :: 0 <= i < n ==> !Adjustable(p, lo, hi, i, raise)
  {
    if n > 0 {
      CountBounds(p, lo, hi, raise, n - 1);
    }
  }

  /** When q's adjustable indices are among p's, and some index j is
      adjustable in p but not in q, q has strictly fewer. */
  lemma {:induction false} CountDecreases(p: seq<real>, q: seq<real>, lo: seq<real>, hi: seq<real>, raise: bool, n: nat, j: nat)
    requires SameLength(p, lo, hi) && SameLength(q, lo, hi) && n <= |p|
    requires forall i :: 0 <= i < n && Adjustable(q, lo, hi, i, raise) ==> Adjustable(p, lo, hi, i, raise)
    requires j < n && Adjustable(p, lo, hi, j, raise) && !Adjustable(q, lo, hi, j, raise)
    ensures CountAdjustable(q, lo, hi, raise, n) < CountAdjustable(p, lo, hi, raise, n)
  {
    if j == n - 1 {
      CountMonotone(p, q, lo, hi, raise, n - 1);
    } else {
      CountDecreases(p, q, lo, hi, raise, n - 1, j);
    }
  }

  lemma {:induction false} CountMonotone(p: seq<real>, q: seq<real>, lo: seq<real>, hi: seq<real>, raise: bool, n: nat)
    requires SameLength(p, lo, hi) && SameLength(q, lo, hi) && n <= |p|
    requires forall i :: 0 <= i < n && Adjustable(q, lo, hi, i, raise) ==> Adjustable(p, lo, hi, i, raise)
    ensures CountAdjustable(q, lo, hi, raise, n) <= CountAdjustable(p, lo, hi, raise, n)
  {
    if n > 0 {
      CountMonotone(p, q, lo, hi, raise, n - 1);
    }
  }

  /** Moving entry i by `share` and clamping lands it on the bound in the
      direction of `share`. */
  predicate SaturatesAt(p: seq<real>, lo: seq<real>, hi: seq<real>, i: nat, share: real)
    requires SameLength(p, lo, hi) && i < |p|
  {
    Clamp(p[i] + share, lo[i], hi[i]) == (if share >= 0.0 then hi[i] else lo[i])
  }

  /** Total movement when each of the first k listed entries is moved by
      `share` and clamped. */
  function Moves(p: seq<real>, lo: seq<real>, hi: seq<real>, indices: seq<nat>, k: nat, share: real): real
    requires SameLength(p, lo, hi) && k <= |indices|
    requires forall j :: 0 <= j < |indices| ==> indices[j] < |p|
  {
    if k == 0 then 0.0
    else
      var i := indices[k - 1];
      Moves(p, lo, hi, indices, k - 1, share) + (Clamp(p[i] + share, lo[i], hi[i]) - p[i])
  }

  /** With ordered bounds and entries within them, the total movement has
      the sign of `share`, is at most k * share in size, and falls short of
      that only if one of the first k listed entries lands on its bound. */
  lemma {:induction false} MovesBounds(p: seq<real>, lo: seq<real>, hi: seq<real>, indices: seq<nat>, k: nat, share: real)
    requires SameLength(p, lo, hi) && Within(p, lo, hi) && Ordered(lo, hi) && k <= |indices|
    requires forall j :: 0 <= j < |indices| ==> indices[j] < |p|
    ensures share >= 0.0 ==> 0.0 <= Moves(p, lo, hi, indices, k, share) <= Times(k, share)
    ensures share <= 0.0 ==> Times(k, share) <= Moves(p, lo, hi, indices, k, share) <= 0.0
    ensures Moves(p, lo, hi, indices, k, share) == Times(k, share)
      || exists j :: 0 <= j < k && SaturatesAt(p, lo, hi, indices[j], share)
  {
    if k > 0 {
      var i := indices[k - 1];
      MovesBounds(p, lo, hi, indices, k - 1, share);
      MoveOne(p[i], lo[i], hi[i], share);
      if Moves(p, lo, hi, indices, k, share) != Times(k, share)
        && Moves(p, lo, hi, indices, k - 1, share) == Times(k - 1, share)
      {
        assert SaturatesAt(p, lo, hi, indices[k - 1], share);
      }
    }
  }

  /** The listed indices are positions of `p`, in strictly increasing order. */
  predicate IndicesOf(p: seq<real>, indices: seq<nat>) {
    (forall k :: 0 <= k < |indices| ==> indices[k] < |p|)
    && (forall k, m :: 0 <= k < m < |indices| ==> indices[k] < indices[m])
  }

  /** The state of a pass after its first k listed entries were moved. */
  predicate ShiftedUpTo(p: seq<real>, lo: seq<real>, hi: seq<real>, indices: seq<nat>, share: real,
                        k: nat, next: seq<real>, moved: real)
    requires SameLength(p, lo, hi) && IndicesOf(p, indices) && k <= |indices|
  {
    SameLength(next, lo, hi) && Within(next, lo, hi)
    && (forall i :: 0 <= i < |p| && i !in indices ==> next[i] == p[i])
    && (forall j :: k <= j < |indices| ==> next[indices[j]] == p[indices[j]])
    && (forall j :: 0 <= j < k ==>
      next[indices[j]] == Clamp(p[indices[j]] + share, lo[indices[j]], hi[indices[j]]))
    && moved == Sum(next) - Sum(p)
    && moved == Moves(p, lo, hi, indices, k, share)
  }

  /** One pass: every listed entry is moved by `share` and clamped back into
      its bounds, the others are left alone, and `moved` is the change of
      the total, which is the sum of the individual moves. */
  method ShiftEntries(p: seq<real>, lo: seq<real>, hi: seq<real>, indices: seq<nat>, share: real)
    returns (next: seq<real>, moved: real)
    requires SameLength(p, lo, hi) && Within(p, lo, hi) && IndicesOf(p, indices)
    ensures SameLength(next, lo, hi) && Within(next, lo, hi)
    ensures forall i :: 0 <= i < |p| && i !in indices ==> next[i] == p[i]
    ensures forall k :: 0 <= k < |indices| ==>
      next[indices[k]] == Clamp(p[indices[k]] + share, lo[indices[k]], hi[indices[k]])
    ensures moved == Sum(next) - Sum(p)
    ensures moved == Moves(p, lo, hi, indices, |indices|, share)
    ensures next == MovedBy(p, lo, hi, indices, share)
  {
    next, moved := p, 0.0;
    for k := 0 to |indices|
      invariant ShiftedUpTo(p, lo, hi, indices, share, k, next, moved)
    {
      var index := indices[k];
      var current := next[index];
      var updated := Clamp(current + share, lo[index], hi[index]);
      ghost var before, movedBefore := next, moved;
      next := next[index := updated];
      moved := moved + (updated - current);
      ShiftStep(p, lo, hi, indices, share, k, before, movedBefore, next, moved);
    }
    forall i | 0 <= i < |p| ensures next[i] == MovedBy(p, lo, hi, indices, share)[i] {
      if i in indices {
        var k :| 0 <= k < |indices| && indices[k] == i;
      }
    }
  }

  /** Moving listed entry k keeps the state of the pass. */
  lemma ShiftStep(p: seq<real>, lo: seq<real>, hi: seq<real>, indices: seq<nat>, share: real, k: nat,
                  before: seq<real>, moved: real, next: seq<real>, moved': real)
    requires SameLength(p, lo, hi) && IndicesOf(p, indices) && k < |indices|
    requires ShiftedUpTo(p, lo, hi, indices, share, k, before, moved)
    requires next == before[indices[k] := Clamp(before[indices[k]] + share, lo[indices[k]], hi[indices[k]])]
    requires moved' == moved + (next[indices[k]] - before[indices[k]])
    ensures ShiftedUpTo(p, lo, hi, indices, share, k + 1, next, moved')
  {
    var index := indices[k];
    assert before[index] == p[index];
    SumUpdate(before, index, next[index]);
    forall j | 0 <= j < k + 1
      ensures next[indices[j]] == Clamp(p[indices[j]] + share, lo[indices[j]], hi[indices[j]])
    {
      if j < k {
        assert indices[j] < index;
      }
    }
    forall j | k + 1 <= j < |indices|
      ensures next[indices[j]] == p[indices[j]]
    {
      assert index < indices[j];
    }
  }

  /** Moving one in-bounds entry by `share` and clamping moves it by at most
      `share`, in the direction of `share`, and by less only when it lands
      on the bound in that direction. */
  lemma MoveOne(current: real, lo: real, hi: real, share: real)
    requires current <= hi && (lo <= hi ==> lo <= current)
    ensures lo <= hi && share >= 0.0 ==>
      var moved := Clamp(current + share, lo, hi) - current;
      0.0 <= moved <= share && (moved == share || Clamp(current + share, lo, hi) == hi)
    ensures lo <= hi && share <= 0.0 ==>
      var moved := Clamp(current + share, lo, hi) - current;
      share <= moved <= 0.0 && (moved == share || Clamp(current + share, lo, hi) == lo)
  {
  }

  /** An even share of a nonzero difference has its sign, and m shares
      add back up to the difference. */
  lemma EvenShare(difference: real, m: nat)
    requires m > 0 && difference != 0.0
    ensures difference > 0.0 ==> difference / m as real > 0.0
    ensures difference < 0.0 ==> difference / m as real < 0.0
    ensures Times(m, difference / m as real) == difference
  {
    TimesIsProduct(m, difference / m as real);
  }

  /** One pass either absorbs the whole difference or leaves strictly fewer
      adjustable entries. */
  lemma PassProgress(p: seq<real>, next: seq<real>, lo: seq<real>, hi: seq<real>, indices: seq<nat>,
                     raise: bool, share: real, moved: real)
    requires SameLength(p, lo, hi) && SameLength(next, lo, hi)
    requires forall k :: 0 <= k < |indices| ==> indices[k] < |p| && Adjustable(p, lo, hi, indices[k], raise)
    requires forall i :: 0 <= i < |p| && i !in indices ==> next[i] == p[i]
    requires raise <==> share >= 0.0
    requires forall k :: 0 <= k < |indices| ==>
      next[indices[k]] == Clamp(p[indices[k]] + share, lo[indices[k]], hi[indices[k]])
    requires moved == Times(|indices|, share)
      || exists k :: 0 <= k < |indices| && SaturatesAt(p, lo, hi, indices[k], share)
    ensures moved == Times(|indices|, share)
      || CountAdjustable(next, lo, hi, raise, |p|) < CountAdjustable(p, lo, hi, raise, |p|)
  {
    if moved != Times(|indices|, share) {
      var k :| 0 <= k < |indices| && SaturatesAt(p, lo, hi, indices[k], share);
      forall i | 0 <= i < |p| && Adjustable(next, lo, hi, i, raise)
        ensures Adjustable(p, lo, hi, i, raise)
      {
        if i !in indices {
          assert next[i] == p[i];
        } else {
          var m :| 0 <= m < |indices| && indices[m] == i;
        }
      }
      CountDecreases(p, next, lo, hi, raise, |p|, indices[k]);
    }
  }

  /** No entry can move in the given direction. */
  predicate Stuck(p: seq<real>, lo: seq<real>, hi: seq<real>, raise: bool)
    requires SameLength(p, lo, hi)
  {
    forall i :: 0 <= i < |p| ==> !Adjustable(p, lo, hi, i, raise)
  }

  /** With ordered and reachable bounds, once nothing can move towards the
      target the remaining difference is at most 1e-9 plus 1e-12 per entry. */
  lemma StuckBound(p: seq<real>, lo: seq<real>, hi: seq<real>, target: real, raise: bool)
    requires SameLength(p, lo, hi) && Within(p, lo, hi) && Ordered(lo, hi) && Reachable(lo, hi, target)
    requires raise ==> target - Sum(p) >= 0.0
    requires !raise ==> target - Sum(p) <= 0.0
    requires forall i :: 0 <= i < |p| ==> !Adjustable(p, lo, hi, i, raise)
    ensures Abs(target - Sum(p)) <= 1e-9 + |p| as real * 1e-12
  {
    if raise {
      NearUpper(p, lo, hi);
    } else {
      NearLower(p, lo, hi);
    }
  }

  /** Entries within 1e-12 of their upper bounds sum to within n * 1e-12 of
      the upper bounds' sum. */
  lemma NearUpper(p: seq<real>, lo: seq<real>, hi: seq<real>)
    requires SameLength(p, lo, hi)
    requires forall i :: 0 <= i < |p| ==> !Adjustable(p, lo, hi, i, true)
    ensures Sum(hi) - |p| as real * 1e-12 <= Sum(p)
  {
    var near := seq(|p|, i requires 0 <= i < |p| => hi[i] - 1e-12);
    forall i | 0 <= i < |p| ensures near[i] <= p[i] {
      assert !Adjustable(p, lo, hi, i, true);
    }
    SumShift(near, hi, 1e-12);
    SumMonotone(near, p);
  }

  /** Entries within 1e-12 of their lower bounds sum to within n * 1e-12 of
      the lower bounds' sum. */
  lemma NearLower(p: seq<real>, lo: seq<real>, hi: seq<real>)
    requires SameLength(p, lo, hi)
    requires forall i :: 0 <= i < |p| ==> !Adjustable(p, lo, hi, i, false)
    ensures Sum(p) <= Sum(lo) + |p| as real * 1e-12
  {
    var near := seq(|p|, i requires 0 <= i < |p| => lo[i] + 1e-12);
    forall i | 0 <= i < |p| ensures p[i] <= near[i] {
      assert !Adjustable(p, lo, hi, i, false);
    }
    SumShift(near, lo, -1e-12);
    SumMonotone(p, near);
  }

  /** Every listed entry moved by `share` and clamped into its bounds; the
      others are kept. */
  function MovedBy(p: seq<real>, lo: seq<real>, hi: seq<real>, indices: seq<nat>, share: real): (r: seq<real>)
    requires SameLength(p, lo, hi)
    ensures |r| == |p|
    ensures forall i :: 0 <= i < |p| && i !in indices ==> r[i] == p[i]
    ensures forall k :: 0 <= k < |indices| && indices[k] < |p| ==>
      r[indices[k]] == Clamp(p[indices[k]] + share, lo[indices[k]], hi[indices[k]])
  {
    seq(|p|, i requires 0 <= i < |p| => if i in indices then Clamp(p[i] + share, lo[i], hi[i]) else p[i])
  }

  /** Moving entries of an in-bounds vector keeps it within the bounds. */
  lemma MovedByWithin(p: seq<real>, lo: seq<real>, hi: seq<real>, indices: seq<nat>, share: real)
    requires SameLength(p, lo, hi) && Within(p, lo, hi)
    ensures Within(MovedBy(p, lo, hi, indices, share), lo, hi)
  {
  }

  /** Moving the first k listed entries changes the total by the sum of
      their individual moves. */
  lemma {:induction false} MovedBySum(p: seq<real>, lo: seq<real>, hi: seq<real>, indices: seq<nat>, share: real,
                                      k: nat)
    requires SameLength(p, lo, hi) && IndicesOf(p, indices) && k <= |indices|
    ensures Sum(MovedBy(p, lo, hi, indices[..k], share)) - Sum(p) == Moves(p, lo, hi, indices, k, share)
  {
    if k == 0 {
      assert indices[..0] == [];
      assert MovedBy(p, lo, hi, [], share) == p;
    } else {
      MovedBySum(p, lo, hi, indices, share, k - 1);
      MovedByStepSum(p, lo, hi, indices, share, k);
    }
  }

  /** Moving one more listed entry changes the total by that entry's move. */
  lemma MovedByStepSum(p: seq<real>, lo: seq<real>, hi: seq<real>, indices: seq<nat>, share: real, k: nat)
    requires SameLength(p, lo, hi) && IndicesOf(p, indices) && 0 < k <= |indices|
    ensures var i := indices[k - 1];
      Sum(MovedBy(p, lo, hi, indices[..k], share))
      == Sum(MovedBy(p, lo, hi, indices[..k - 1], share)) + (Clamp(p[i] + share, lo[i], hi[i]) - p[i])
  {
    var i := indices[k - 1];
    MovedByStep(p, lo, hi, indices, share, k);
    SumUpdate(MovedBy(p, lo, hi, indices[..k - 1], share), i, Clamp(p[i] + share, lo[i], hi[i]));
  }

  /** Moving one more listed entry updates that entry alone. */
  lemma MovedByStep(p: seq<real>, lo: seq<real>, hi: seq<real>, indices: seq<nat>, share: real, k: nat)
    requires SameLength(p, lo, hi) && IndicesOf(p, indices) && 0 < k <= |indices|
    ensures MovedBy(p, lo, hi, indices[..k - 1], share)[indices[k - 1]] == p[indices[k - 1]]
    ensures var i := indices[k - 1];
      MovedBy(p, lo, hi, indices[..k], share)
      == MovedBy(p, lo, hi, indices[..k - 1], share)[i := Clamp(p[i] + share, lo[i], hi[i])]
  {
    var i := indices[k - 1];
    var before := MovedBy(p, lo, hi, indices[..k - 1], share);
    var after := MovedBy(p, lo, hi, indices[..k], share);
    assert indices[..k] == indices[..k - 1] + [i];
    assert i !in indices[..k - 1] by {
      forall j | 0 <= j < k - 1 ensures indices[j] != i {
        assert indices[j] < indices[k - 1];
      }
    }
    forall j | 0 <= j < |p| ensures after[j] == before[i := Clamp(p[i] + share, lo[i], hi[i])][j] {
      if j != i {
        assert (j in indices[..k]) == (j in indices[..k - 1]);
      }
    }
  }

  /** The outcome of one residual pass: the moved vector, what is left of
      the difference, and whether the passes stop. */
  datatype Pass = Pass(next: seq<real>, remaining: real, stop: bool)

  /** One residual pass. It stops, changing nothing, when the difference is
      within 1e-10 or no entry can move towards the target; otherwise it
      spreads the difference evenly over the movable entries and subtracts
      the total movement from it. */
  function PassOf(p: seq<real>, lo: seq<real>, hi: seq<real>, difference: real): (r: Pass)
    requires SameLength(p, lo, hi)
    ensures |r.next| == |p|
  {
    if Abs(difference) <= 1e-10 then Pass(p, difference, true)
    else
      var adjustable := AdjustableFrom(p, lo, hi, difference > 0.0, 0);
      if |adjustable| == 0 then Pass(p, difference, true)
      else
        var share := difference / |adjustable| as real;
        Pass(MovedBy(p, lo, hi, adjustable, share),
             difference - Moves(p, lo, hi, adjustable, |adjustable|, share), false)
  }

  /** A pass keeps the bounds and tracks the difference. It stops unchanged
      only when the difference is within 1e-10 or nothing can move towards
      the target. With ordered bounds the remainder keeps the sign of the
      difference, and it is either zero or fewer entries can move. */
  lemma PassSpec(p: seq<real>, lo: seq<real>, hi: seq<real>, difference: real)
    requires SameLength(p, lo, hi) && Within(p, lo, hi)
    ensures var r := PassOf(p, lo, hi, difference);
      && SameLength(r.next, lo, hi) && Within(r.next, lo, hi)
      && r.remaining == difference - (Sum(r.next) - Sum(p))
      && (r.stop ==> r.next == p && r.remaining == difference)
      && (r.stop && Abs(difference) > 1e-10 ==> Stuck(p, lo, hi, difference > 0.0))
      && (!r.stop ==> Abs(difference) > 1e-10)
      && (!r.stop && Ordered(lo, hi) ==>
        && (difference > 0.0 ==> r.remaining >= 0.0)
        && (difference < 0.0 ==> r.remaining <= 0.0)
        && (r.remaining == 0.0
            || CountAdjustable(r.next, lo, hi, difference > 0.0, |p|)
               < CountAdjustable(p, lo, hi, difference > 0.0, |p|)))
  {
    if Abs(difference) > 1e-10 && |AdjustableFrom(p, lo, hi, difference > 0.0, 0)| > 0 {
      var adjustable := AdjustableFrom(p, lo, hi, difference > 0.0, 0);
      MovingPass(p, lo, hi, difference, adjustable);
      if Ordered(lo, hi) {
        MovingPassProgress(p, lo, hi, difference, adjustable);
      }
    }
  }

  /** A pass that moves keeps the bounds, and what is left of the
      difference is the difference less the change of the total. */
  lemma MovingPass(p: seq<real>, lo: seq<real>, hi: seq<real>, difference: real, adjustable: seq<nat>)
    requires SameLength(p, lo, hi) && Within(p, lo, hi)
    requires Abs(difference) > 1e-10 && adjustable == AdjustableFrom(p, lo, hi, difference > 0.0, 0)
    requires |adjustable| > 0
    ensures var r := PassOf(p, lo, hi, difference);
      !r.stop && Within(r.next, lo, hi) && r.remaining == difference - (Sum(r.next) - Sum(p))
  {
    var share := difference / |adjustable| as real;
    assert PassOf(p, lo, hi, difference).next == MovedBy(p, lo, hi, adjustable, share);
    assert PassOf(p, lo, hi, difference).remaining == difference - Moves(p, lo, hi, adjustable, |adjustable|, share);
    MovedByWithin(p, lo, hi, adjustable, share);
    MovedByTotal(p, lo, hi, adjustable, share);
  }

  /** Moving all listed entries changes the total by the sum of their moves. */
  lemma MovedByTotal(p: seq<real>, lo: seq<real>, hi: seq<real>, indices: seq<nat>, share: real)
    requires SameLength(p, lo, hi) && IndicesOf(p, indices)
    ensures Sum(MovedBy(p, lo, hi, indices, share)) - Sum(p) == Moves(p, lo, hi, indices, |indices|, share)
  {
    MovedBySum(p, lo, hi, indices, share, |indices|);
    assert indices[..|indices|] == indices;
  }

  /** With ordered bounds, a pass that moves leaves a remainder of the
      difference's sign, and either absorbs the difference or leaves fewer
      entries movable. */
  lemma MovingPassProgress(p: seq<real>, lo: seq<real>, hi: seq<real>, difference: real, adjustable: seq<nat>)
    requires SameLength(p, lo, hi) && Within(p, lo, hi) && Ordered(lo, hi)
    requires Abs(difference) > 1e-10 && adjustable == AdjustableFrom(p, lo, hi, difference > 0.0, 0)
    requires |adjustable| > 0
    ensures var r := PassOf(p, lo, hi, difference);
      && (difference > 0.0 ==> r.remaining >= 0.0)
      && (difference < 0.0 ==> r.remaining <= 0.0)
      && (r.remaining == 0.0
          || CountAdjustable(r.next, lo, hi, difference > 0.0, |p|)
             < CountAdjustable(p, lo, hi, difference > 0.0, |p|))
  {
    var raise := difference > 0.0;
    var share := difference / |adjustable| as real;
    EvenShare(difference, |adjustable|);
    var next := MovedBy(p, lo, hi, adjustable, share);
    var moved := Moves(p, lo, hi, adjustable, |adjustable|, share);
    assert PassOf(p, lo, hi, difference).next == next;
    assert PassOf(p, lo, hi, difference).remaining == difference - moved;
    MovesBounds(p, lo, hi, adjustable, |adjustable|, share);
    PassProgress(p, next, lo, hi, adjustable, raise, share, moved);
  }

  /** The body of the residual loop: one pass, with the inner loop over the
      movable entries in ShiftEntries. */
  method RebalancePass(projected: seq<real>, lo: seq<real>, hi: seq<real>, difference: real)
    returns (next: seq<real>, remaining: real, stop: bool)
    requires SameLength(projected, lo, hi) && Within(projected, lo, hi)
    ensures Pass(next, remaining, stop) == PassOf(projected, lo, hi, difference)
    ensures SameLength(next, lo, hi) && Within(next, lo, hi)
    ensures remaining == difference - (Sum(next) - Sum(projected))
    ensures stop ==> next == projected && remaining == difference
    ensures stop && Abs(difference) > 1e-10 ==> Stuck(projected, lo, hi, difference > 0.0)
    ensures !stop ==> Abs(difference) > 1e-10
    ensures !stop && Ordered(lo, hi) ==>
      && (difference > 0.0 ==> remaining >= 0.0)
      && (difference < 0.0 ==> remaining <= 0.0)
      && (remaining == 0.0
          || CountAdjustable(next, lo, hi, difference > 0.0, |projected|)
             < CountAdjustable(projected, lo, hi, difference > 0.0, |projected|))
  {
    next, remaining, stop := projected, difference, true;
    if Abs(difference) > 1e-10 {
      var adjustable := AdjustableFrom(projected, lo, hi, difference > 0.0, 0);
      if |adjustable| > 0 {
        var share := difference / |adjustable| as real;
        var moved;
        next, moved := ShiftEntries(projected, lo, hi, adjustable, share);
        remaining := difference - moved;
        stop := false;
      }
    }
    PassSpec(projected, lo, hi, difference);
  }

  /** At most `passes` residual passes, stopping at the first pass that
      stops; the final vector and difference. */
  function Rebalanced(p: seq<real>, lo: seq<real>, hi: seq<real>, difference: real, passes: nat): (r: (seq<real>, real))
    requires SameLength(p, lo, hi)
    ensures |r.0| == |p|
    decreases passes
  {
    if passes == 0 then (p, difference)
    else
      var pass := PassOf(p, lo, hi, difference);
      if pass.stop then (p, difference) else Rebalanced(pass.next, lo, hi, pass.remaining, passes - 1)
  }

  /** The residual passes keep the bounds and track the difference to the
      target; a difference within 1e-10 leaves the vector unchanged. With
      ordered, reachable bounds, a difference of constant sign and no more
      movable entries than passes, the final difference is at most 1e-9
      plus 1e-12 per entry. */
  lemma RebalancedSpec(p: seq<real>, lo: seq<real>, hi: seq<real>, target: real,
                       difference: real, passes: nat, raise: bool)
    requires SameLength(p, lo, hi) && Within(p, lo, hi) && difference == target - Sum(p)
    ensures var r := Rebalanced(p, lo, hi, difference, passes);
      && Within(r.0, lo, hi) && r.1 == target - Sum(r.0)
      && (Abs(difference) <= 1e-10 ==> r.0 == p)
      && (Ordered(lo, hi) && Reachable(lo, hi, target)
          && (raise ==> difference >= 0.0) && (!raise ==> difference <= 0.0)
          && (difference == 0.0 || CountAdjustable(p, lo, hi, raise, |p|) <= passes)
          ==> Abs(r.1) <= 1e-9 + |p| as real * 1e-12)
  {
    RebalancedKeeps(p, lo, hi, target, difference, passes);
    if Abs(difference) <= 1e-10 && passes > 0 {
      PassSpec(p, lo, hi, difference);
    }
    if Ordered(lo, hi) && Reachable(lo, hi, target)
      && (raise ==> difference >= 0.0) && (!raise ==> difference <= 0.0)
      && (difference == 0.0 || CountAdjustable(p, lo, hi, raise, |p|) <= passes)
    {
      RebalancedBound(p, lo, hi, target, difference, passes, raise);
    }
  }

  /** Every pass keeps the bounds and the difference to the target. */
  lemma {:induction false} RebalancedKeeps(p: seq<real>, lo: seq<real>, hi: seq<real>, target: real,
                                           difference: real, passes: nat)
    requires SameLength(p, lo, hi) && Within(p, lo, hi) && difference == target - Sum(p)
    ensures var r := Rebalanced(p, lo, hi, difference, passes);
      Within(r.0, lo, hi) && r.1 == target - Sum(r.0)
    decreases passes
  {
    if passes > 0 {
      var pass := PassOf(p, lo, hi, difference);
      if !pass.stop {
        PassSpec(p, lo, hi, difference);
        RebalancedKeeps(pass.next, lo, hi, target, pass.remaining, passes - 1);
      }
    }
  }

  /** With ordered, reachable bounds, a difference of constant sign and no
      more movable entries than passes, the passes end within 1e-9 plus
      1e-12 per entry of the target. */
  lemma {:induction false} RebalancedBound(p: seq<real>, lo: seq<real>, hi: seq<real>, target: real,
                                           difference: real, passes: nat, raise: bool)
    requires SameLength(p, lo, hi) && Within(p, lo, hi) && difference == target - Sum(p)
    requires Ordered(lo, hi) && Reachable(lo, hi, target)
    requires (raise ==> difference >= 0.0) && (!raise ==> difference <= 0.0)
    requires difference == 0.0 || CountAdjustable(p, lo, hi, raise, |p|) <= passes
    ensures Abs(Rebalanced(p, lo, hi, difference, passes).1) <= 1e-9 + |p| as real * 1e-12
    decreases passes, 1
  {
    if passes == 0 {
      if difference != 0.0 {
        NoPassLeftBound(p, lo, hi, target, difference, raise);
      }
    } else if PassOf(p, lo, hi, difference).stop {
      StoppedPassBound(p, lo, hi, target, difference, raise);
    } else {
      MovingPassBound(p, lo, hi, target, difference, passes, raise);
    }
  }

  /** The final bound after a pass that moves follows from the bound for
      the remaining passes. */
  lemma {:induction false} MovingPassBound(p: seq<real>, lo: seq<real>, hi: seq<real>, target: real,
                                           difference: real, passes: nat, raise: bool)
    requires SameLength(p, lo, hi) && Within(p, lo, hi) && difference == target - Sum(p)
    requires Ordered(lo, hi) && Reachable(lo, hi, target)
    requires (raise ==> difference >= 0.0) && (!raise ==> difference <= 0.0)
    requires difference == 0.0 || CountAdjustable(p, lo, hi, raise, |p|) <= passes
    requires passes > 0 && !PassOf(p, lo, hi, difference).stop
    ensures Abs(Rebalanced(p, lo, hi, difference, passes).1) <= 1e-9 + |p| as real * 1e-12
    decreases passes, 0
  {
    var pass := PassOf(p, lo, hi, difference);
    RebalancedStep(p, lo, hi, difference, passes);
    NextPassPremises(p, lo, hi, target, difference, passes, raise);
    RebalancedBound(pass.next, lo, hi, target, pass.remaining, passes - 1, raise);
    assert |pass.next| == |p|;
  }

  /** A pass that moves is followed by the remaining passes from where it
      leaves the entries and the difference. */
  lemma RebalancedStep(p: seq<real>, lo: seq<real>, hi: seq<real>, difference: real, passes: nat)
    requires SameLength(p, lo, hi) && passes > 0 && !PassOf(p, lo, hi, difference).stop
    ensures var pass := PassOf(p, lo, hi, difference);
      Rebalanced(p, lo, hi, difference, passes) == Rebalanced(pass.next, lo, hi, pass.remaining, passes - 1)
  {
  }

  /** With no passes left and nothing adjustable, the difference is within
      the final bound. */
  lemma NoPassLeftBound(p: seq<real>, lo: seq<real>, hi: seq<real>, target: real, difference: real, raise: bool)
    requires SameLength(p, lo, hi) && Within(p, lo, hi) && difference == target - Sum(p)
    requires Ordered(lo, hi) && Reachable(lo, hi, target)
    requires (raise ==> difference >= 0.0) && (!raise ==> difference <= 0.0)
    requires difference != 0.0 && CountAdjustable(p, lo, hi, raise, |p|) <= 0
    ensures Abs(difference) <= 1e-9 + |p| as real * 1e-12
  {
    CountBounds(p, lo, hi, raise, |p|);
    StuckBound(p, lo, hi, target, raise);
  }

  /** A pass that stops leaves a difference within the final bound. */
  lemma StoppedPassBound(p: seq<real>, lo: seq<real>, hi: seq<real>, target: real, difference: real, raise: bool)
    requires SameLength(p, lo, hi) && Within(p, lo, hi) && difference == target - Sum(p)
    requires Ordered(lo, hi) && Reachable(lo, hi, target)
    requires (raise ==> difference >= 0.0) && (!raise ==> difference <= 0.0)
    requires PassOf(p, lo, hi, difference).stop
    ensures Abs(difference) <= 1e-9 + |p| as real * 1e-12
  {
    PassSpec(p, lo, hi, difference);
    if Abs(difference) > 1e-10 {
      StuckBound(p, lo, hi, target, difference > 0.0);
    }
  }

  /** A pass that moves keeps the premises of the final bound, with one
      pass fewer. */
  lemma NextPassPremises(p: seq<real>, lo: seq<real>, hi: seq<real>, target: real, difference: real,
                         passes: nat, raise: bool)
    requires SameLength(p, lo, hi) && Within(p, lo, hi) && difference == target - Sum(p)
    requires Ordered(lo, hi)
    requires (raise ==> difference >= 0.0) && (!raise ==> difference <= 0.0)
    requires difference == 0.0 || CountAdjustable(p, lo, hi, raise, |p|) <= passes
    requires !PassOf(p, lo, hi, difference).stop
    ensures var pass := PassOf(p, lo, hi, difference);
      && SameLength(pass.next, lo, hi) && Within(pass.next, lo, hi)
      && pass.remaining == target - Sum(pass.next)
      && (raise ==> pass.remaining >= 0.0) && (!raise ==> pass.remaining <= 0.0)
      && (pass.remaining == 0.0 || CountAdjustable(pass.next, lo, hi, raise, |p|) < passes)
  {
    PassSpec(p, lo, hi, difference);
  }

  /** The residual passes: when the difference to the target exceeds
      1e-10, spread it evenly over the entries that can still move, at most
      twice the length many times. */
  method Rebalance(start: seq<real>, lo: seq<real>, hi: seq<real>, target: real)
    returns (projected: seq<real>, difference: real)
    requires SameLength(start, lo, hi) && Within(start, lo, hi)
    ensures projected == RebalancedFrom(start, lo, hi, target)
    ensures SameLength(projected, lo, hi) && Within(projected, lo, hi)
    ensures difference == target - Sum(projected)
    ensures Abs(target - Sum(start)) <= 1e-10 ==> projected == start
    ensures Ordered(lo, hi) && Reachable(lo, hi, target) ==> Abs(difference) <= 1e-9 + |start| as real * 1e-12
  {
    if Abs(target - Sum(start)) > 1e-10 {
      projected, difference := RunPasses(start, lo, hi, target);
    } else {
      projected, difference := start, target - Sum(start);
      RebalancedFromStill(start, lo, hi, target);
    }
    RebalancedFromClose(start, lo, hi, target, projected, difference);
  }

  /** The pass loop: at most twice the length many passes, leaving it at
      the first pass that stops. */
  method RunPasses(start: seq<real>, lo: seq<real>, hi: seq<real>, target: real)
    returns (projected: seq<real>, difference: real)
    requires SameLength(start, lo, hi) && Within(start, lo, hi)
    ensures projected == RebalancedFrom(start, lo, hi, target)
    ensures SameLength(projected, lo, hi) && Within(projected, lo, hi)
    ensures difference == target - Sum(projected)
  {
    var difference0 := target - Sum(start);
    var passes := |start| * 2;
    projected, difference := start, difference0;
    var pass := 0;
    while pass < passes
      invariant 0 <= pass <= passes
      invariant SameLength(projected, lo, hi) && Within(projected, lo, hi)
      invariant Rebalanced(projected, lo, hi, difference, passes - pass).0 == Rebalanced(start, lo, hi, difference0, passes).0
      invariant Rebalanced(projected, lo, hi, difference, passes - pass).1 == Rebalanced(start, lo, hi, difference0, passes).1
    {
      var next, remaining, stop := RebalancePass(projected, lo, hi, difference);
      if stop {
        break;
      }
      projected, difference := next, remaining;
      pass := pass + 1;
    }
    RebalancedKeeps(start, lo, hi, target, difference0, passes);
    RebalancedFromUnfold(start, lo, hi, target);
  }

  /** A start within 1e-10 of the target is left alone by the passes. */
  lemma RebalancedFromStill(start: seq<real>, lo: seq<real>, hi: seq<real>, target: real)
    requires SameLength(start, lo, hi) && Within(start, lo, hi) && Abs(target - Sum(start)) <= 1e-10
    ensures RebalancedFrom(start, lo, hi, target) == start
  {
    if |start| > 0 {
      PassSpec(start, lo, hi, target - Sum(start));
    }
  }

  /** The bound of RebalancedFromStart, read off the returned difference. */
  lemma RebalancedFromClose(start: seq<real>, lo: seq<real>, hi: seq<real>, target: real,
                            projected: seq<real>, difference: real)
    requires SameLength(start, lo, hi) && Within(start, lo, hi)
    requires projected == RebalancedFrom(start, lo, hi, target) && difference == target - Sum(projected)
    ensures Ordered(lo, hi) && Reachable(lo, hi, target) ==> Abs(difference) <= 1e-9 + |start| as real * 1e-12
  {
    RebalancedFromStart(start, lo, hi, target);
  }

  lemma RebalancedFromUnfold(start: seq<real>, lo: seq<real>, hi: seq<real>, target: real)
    requires SameLength(start, lo, hi)
    ensures RebalancedFrom(start, lo, hi, target) == Rebalanced(start, lo, hi, target - Sum(start), |start| * 2).0
  {
  }

  /** The starting bracket of the shift: the smallest value-minus-upper
      gap and the largest value-minus-lower gap, or -1 and 1 for no values. */
  function InitialShifts(values: seq<real>, lo: seq<real>, hi: seq<real>): (r: (real, real))
    requires SameLength(values, lo, hi)
  {
    if |values| == 0 then (-1.0, 1.0)
    else (MinOf(Gaps(values, hi)), MaxOf(Gaps(values, lo)))
  }

  /** With every lower bound at most its upper bound, the starting shifts
      are in order: the low end is at most the high end. */
  lemma InitialShiftsOrdered(values: seq<real>, lo: seq<real>, hi: seq<real>)
    requires SameLength(values, lo, hi) && Ordered(lo, hi)
    ensures InitialShifts(values, lo, hi).0 <= InitialShifts(values, lo, hi).1
  {
    if |values| > 0 {
      assert MinOf(Gaps(values, hi)) <= Gaps(values, hi)[0];
      assert Gaps(values, lo)[0] <= MaxOf(Gaps(values, lo));
    }
  }

  /** For a reachable target the starting shifts bracket it: at the low end
      every entry clamps to its upper bound, at the high end the total is at
      most the lower bounds' sum. */
  lemma InitialShiftsBracket(values: seq<real>, lo: seq<real>, hi: seq<real>, target: real)
    requires SameLength(values, lo, hi) && Reachable(lo, hi, target)
    ensures TotalAt(values, lo, hi)(InitialShifts(values, lo, hi).0) >= target - 1e-9
    ensures TotalAt(values, lo, hi)(InitialShifts(values, lo, hi).1) <= target + 1e-9
  {
    var r := InitialShifts(values, lo, hi);
    if |values| == 0 {
      assert Shifted(values, lo, hi, r.0) == [] == hi == lo;
      assert Shifted(values, lo, hi, r.1) == [];
    } else {
      InitialBracket(values, lo, hi);
    }
  }

  /** The midpoint of the bracket after the bisection: the common shift
      the residual passes start from. */
  function BisectedShift(values: seq<real>, lo: seq<real>, hi: seq<real>, target: real): real
    requires SameLength(values, lo, hi)
  {
    var bracket := InitialShifts(values, lo, hi);
    var bisected := BisectFrom(TotalAt(values, lo, hi), target, bracket.0, bracket.1, BisectionSteps);
    (bisected.0 + bisected.1) / 2.0
  }

  /** Projection onto the bounded simplex {p | lo <= p <= hi, Sum(p) == target}:
      the values only clamped when the target is out of reach of the bounds;
      otherwise shifted by the midpoint of the bisected bracket, clamped, and
      corrected by at most twice the length many residual passes. */
  function Projected(values: seq<real>, lo: seq<real>, hi: seq<real>, target: real): (r: seq<real>)
    requires SameLength(values, lo, hi)
    ensures |r| == |values|
  {
    if !Reachable(lo, hi, target) then Shifted(values, lo, hi, 0.0)
    else RebalancedFrom(Shifted(values, lo, hi, BisectedShift(values, lo, hi, target)), lo, hi, target)
  }

  /** The residual passes, at most twice the length many, from a start
      towards the target total. */
  function RebalancedFrom(start: seq<real>, lo: seq<real>, hi: seq<real>, target: real): (r: seq<real>)
    requires SameLength(start, lo, hi)
    ensures |r| == |start|
  {
    Rebalanced(start, lo, hi, target - Sum(start), |start| * 2).0
  }

  /** The residual passes from any start within the bounds stay within the
      bounds, end with the difference to the target that they track, leave
      a start within 1e-10 of the target alone and, for reachable ordered
      bounds, end within 1e-9 plus 1e-12 per entry of the target. */
  lemma RebalancedFromStart(start: seq<real>, lo: seq<real>, hi: seq<real>, target: real)
    requires SameLength(start, lo, hi) && Within(start, lo, hi)
    ensures var r := RebalancedFrom(start, lo, hi, target);
      && SameLength(r, lo, hi) && Within(r, lo, hi)
      && (Reachable(lo, hi, target) && Ordered(lo, hi) ==> Abs(target - Sum(r)) <= 1e-9 + |start| as real * 1e-12)
  {
    var difference := target - Sum(start);
    assert RebalancedFrom(start, lo, hi, target) == Rebalanced(start, lo, hi, difference, |start| * 2).0;
    RebalancedKeeps(start, lo, hi, target, difference, |start| * 2);
    if Reachable(lo, hi, target) && Ordered(lo, hi) {
      CountBounds(start, lo, hi, difference > 0.0, |start|);
      RebalancedBound(start, lo, hi, target, difference, |start| * 2, difference > 0.0);
    }
  }

  /** The projection lies within the bounds, and with unreachable bounds it
      is the plain clamp. (Its total for reachable ordered bounds is stated
      by ProjectToBoundedSimplex, which computes it.) */
  lemma ProjectedSpec(values: seq<real>, lo: seq<real>, hi: seq<real>, target: real)
    requires SameLength(values, lo, hi)
    ensures SameLength(Projected(values, lo, hi, target), lo, hi)
    ensures Within(Projected(values, lo, hi, target), lo, hi)
    ensures !Reachable(lo, hi, target) ==> Projected(values, lo, hi, target) == Shifted(values, lo, hi, 0.0)
  {
    if !Reachable(lo, hi, target) {
      ShiftedWithin(values, lo, hi, 0.0);
    } else {
      var t := BisectedShift(values, lo, hi, target);
      ShiftedWithin(values, lo, hi, t);
      RebalancedFromStart(Shifted(values, lo, hi, t), lo, hi, target);
    }
  }

  /** The projection as the source computes it, step by step. */
  method ProjectToBoundedSimplex(values: seq<real>, lo: seq<real>, hi: seq<real>, target: real)
    returns (projected: seq<real>)
    requires SameLength(values, lo, hi)
    ensures projected == Projected(values, lo, hi, target)
    ensures SameLength(projected, lo, hi) && Within(projected, lo, hi)
    ensures !Reachable(lo, hi, target) ==> projected == Shifted(values, lo, hi, 0.0)
    ensures Reachable(lo, hi, target) && Ordered(lo, hi) ==>
      Abs(Sum(projected) - target) <= 1e-9 + |values| as real * 1e-12
  {
    if !Reachable(lo, hi, target) {
      projected := Shifted(values, lo, hi, 0.0);
      ShiftedWithin(values, lo, hi, 0.0);
    } else {
      var bracket := InitialShifts(values, lo, hi);
      InitialShiftsBracket(values, lo, hi, target);
      var low, high := Bisect(values, lo, hi, target, bracket.0, bracket.1, BisectionSteps);
      var threshold := (low + high) / 2.0;
      var start := Shifted(values, lo, hi, threshold);
      assert threshold == BisectedShift(values, lo, hi, target);
      var difference;
      projected, difference := Rebalance(start, lo, hi, target);
      AbsFlip(Sum(projected), target);
    }
  }
}
