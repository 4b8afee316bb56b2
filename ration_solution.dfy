/** The optimiser's answer: a status, a message, the cost figures, one
    allocation per ingredient and one assessment per constraint. */
module RationSolutions {
  import opened Ingredients
  import opened NutrientAssessments

  datatype SolutionStatus = Feasible | Approximation

  datatype OptimizationMode = LeastCost | ProfitMax

  datatype RationAllocation = RationAllocation(
    id: IngredientId,
    name: string,
    group: IngredientGroup,
    inclusionPercent: real,
    costContributionPerKg: real)

  datatype RationSolution = RationSolution(
    status: SolutionStatus,
    message: string,
    optimizationMode: OptimizationMode,
    costPerKg: real,
    objectivePerKg: real,
    maxViolationPercent: real,
    allocations: seq<RationAllocation>,
    assessments: seq<NutrientAssessment>)

  /** The answer returned when no formula is produced: an approximation in
      least-cost mode with zero cost, full violation, no rows, and the given
      explanation. */
  function Empty(message: string): (r: RationSolution)
    ensures r.status == Approximation && r.optimizationMode == LeastCost
    ensures r.costPerKg == 0.0 && r.objectivePerKg == 0.0
    ensures r.maxViolationPercent == 100.0
    ensures r.allocations == [] && r.assessments == []
    ensures r.message == message
  {
    RationSolution(Approximation, message, LeastCost, 0.0, 0.0, 100.0, [], [])
  }
}
