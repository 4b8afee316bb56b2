/** The arithmetic the optimiser is built from: min/max, clamping, powers,
    and left-to-right sums and dot products over sequences of reals. */
module RealMath {

  function Max(a: real, b: real): real { if a >= b then a else b }

  function Min(a: real, b: real): real { if a <= b then a else b }

  function Abs(a: real): real { if a >= 0.0 then a else -a }

  lemma AbsFlip(a: real, b: real)
    ensures Abs(a - b) == Abs(b - a)
  {
  }

  function Pow(x: real, n: nat): real {
    if n == 0 then 1.0 else x * Pow(x, n - 1)
  }

  /** The value raised to the lower bound, then lowered to the upper bound;
      the upper bound wins when the bounds cross. */
  function Clamp(v: real, lo: real, hi: real): (r: real)
    ensures r <= hi
    ensures lo <= hi ==> lo <= r
    ensures lo <= v <= hi ==> r == v
    ensures lo <= hi && v <= lo ==> r == lo
    ensures v >= hi ==> r == hi
  {
    Min(Max(v, lo), hi)
  }

  /** Clamping is monotone in the value. */
  lemma ClampMonotone(v: real, w: real, lo: real, hi: real)
    requires v <= w
    ensures Clamp(v, lo, hi) <= Clamp(w, lo, hi)
  {
  }

  function Square(x: real): real { x * x }

  /** The square of a positive number is positive. */
  lemma SquarePositive(m: real)
    requires m > 0.0
    ensures Square(m) > 0.0
  {
    calc {
      Square(m);
    ==
      m * m;
    >  { assert m > 0.0; }
      0.0;
    }
  }

  /** Sum of a sequence, folded from the left. */
  function Sum(s: seq<real>): real {
    if |s| == 0 then 0.0 else Sum(s[..|s| - 1]) + s[|s| - 1]
  }

  /** Sum of the element-wise products of two sequences of equal length. */
  function Dot(a: seq<real>, b: seq<real>): real
    requires |a| == |b|
  {
    if |a| == 0 then 0.0 else Dot(a[..|a| - 1], b[..|b| - 1]) + a[|a| - 1] * b[|b| - 1]
  }

  lemma SumStep(s: seq<real>, i: nat)
    requires i < |s|
    ensures Sum(s[..i + 1]) == Sum(s[..i]) + s[i]
  {
    assert s[..i + 1][..i] == s[..i];
  }

  lemma DotStep(a: seq<real>, b: seq<real>, i: nat)
    requires |a| == |b| && i < |a|
    ensures Dot(a[..i + 1], b[..i + 1]) == Dot(a[..i], b[..i]) + a[i] * b[i]
  {
    assert a[..i + 1][..i] == a[..i];
    assert b[..i + 1][..i] == b[..i];
  }

  /** Replacing one element changes the sum by the difference. */
  lemma {:induction false} SumUpdate(s: seq<real>, i: nat, v: real)
    requires i < |s|
    ensures Sum(s[i := v]) == Sum(s) - s[i] + v
  {
    var t := s[i := v];
    if i < |s| - 1 {
      assert t[..|t| - 1] == s[..|s| - 1][i := v];
      SumUpdate(s[..|s| - 1], i, v);
    } else {
      assert t[..|t| - 1] == s[..|s| - 1];
    }
  }

  /** Element-wise ordering carries over to the sums. */
  lemma {:induction false} SumMonotone(a: seq<real>, b: seq<real>)
    requires |a| == |b|
    requires forall i :: 0 <= i < |a| ==> a[i] <= b[i]
    ensures Sum(a) <= Sum(b)
  {
    if |a| > 0 {
      SumMonotone(a[..|a| - 1], b[..|b| - 1]);
    }
  }

  /** A sum of n terms each at least c is at least n * c, and likewise for
      at most. */
  lemma {:induction false} SumConstantBounds(s: seq<real>, c: real)
    ensures (forall i :: 0 <= i < |s| ==> c <= s[i]) ==> |s| as real * c <= Sum(s)
    ensures (forall i :: 0 <= i < |s| ==> s[i] <= c) ==> Sum(s) <= |s| as real * c
  {
    if |s| > 0 {
      SumConstantBounds(s[..|s| - 1], c);
    }
  }

  /** Lowering every element by c lowers the sum by n * c. */
  lemma {:induction false} SumShift(a: seq<real>, b: seq<real>, c: real)
    requires |a| == |b|
    requires forall i :: 0 <= i < |a| ==> a[i] == b[i] - c
    ensures Sum(a) == Sum(b) - |b| as real * c
  {
    if |a| > 0 {
      SumShift(a[..|a| - 1], b[..|b| - 1], c);
    }
  }

  /** s added to itself k times. */
  function Times(k: nat, s: real): real {
    if k == 0 then 0.0 else Times(k - 1, s) + s
  }

  lemma {:induction false} TimesIsProduct(k: nat, s: real)
    ensures Times(k, s) == k as real * s
  {
    if k > 0 {
      TimesIsProduct(k - 1, s);
      assert k as real * s == (k - 1) as real * s + s;
    }
  }

  /** Powers of a number in (0, 1] stay in (0, 1]. */
  lemma {:induction false} PowUnitInterval(x: real, n: nat)
    requires 0.0 < x <= 1.0
    ensures 0.0 < Pow(x, n) <= 1.0
  {
    if n > 0 {
      PowUnitInterval(x, n - 1);
      assert x * Pow(x, n - 1) <= 1.0 * Pow(x, n - 1);
    }
  }
}
