/** How far one nutrient of a finished formula is from its targets. */
module NutrientAssessments {
  import opened NutrientKeys
  import opened Options

  /** Absolute slack used when a target is compared with the achieved value. */
  const Tolerance: real := 1e-6

  datatype NutrientAssessment = NutrientAssessment(
    key: NutrientKey,
    achieved: real,
    minTarget: Option<real>,
    maxTarget: Option<real>)
  {
    /** No minimum, or the achieved value reaches it within the tolerance. */
    predicate MeetsMin() {
      match minTarget
      case None => true
      case Some(m) => achieved + Tolerance >= m
    }

    /** No maximum, or the achieved value stays under it within the tolerance. */
    predicate MeetsMax() {
      match maxTarget
      case None => true
      case Some(m) => achieved - Tolerance <= m
    }

    predicate IsGood() {
      MeetsMin() && MeetsMax()
    }
  }

  /** The pass/fail checks, stated as arithmetic on the achieved value. */
  lemma AssessmentChecks(a: NutrientAssessment)
    ensures a.MeetsMin() <==> (a.minTarget.None? || a.minTarget.value - a.achieved <= Tolerance)
    ensures a.MeetsMax() <==> (a.maxTarget.None? || a.achieved - a.maxTarget.value <= Tolerance)
    ensures a.IsGood() <==> a.MeetsMin() && a.MeetsMax()
  {
  }

  /** An assessment without targets always passes. */
  lemma UntargetedIsGood(key: NutrientKey, achieved: real)
    ensures NutrientAssessment(key, achieved, None, None).IsGood()
  {
  }

  /** A value inside [min, max] passes, and so does one just outside by at
      most the tolerance; one further out than that fails. */
  lemma IsGoodBand(a: NutrientAssessment, lo: real, hi: real)
    requires a.minTarget == Some(lo) && a.maxTarget == Some(hi)
    ensures a.IsGood() <==> lo - Tolerance <= a.achieved <= hi + Tolerance
  {
  }
}
