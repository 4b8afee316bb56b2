# Feed Formulation Pro: a verified model of the ration optimiser

This project models the computational core of a poultry feed-formulation
application in Dafny.

On the macOS side that core consists of:

- the ration optimiser: input gate, bounded-simplex projection, penalty
  evaluation, projected-gradient restarts and result assembly;
- the nutrient key set with its units, groups and display decimals;
- the constraint presets: fixed tables, workbook polynomials and interpolation;
- the assessment checks and the empty solution;
- the broiler strain requirement tables and the polynomial growth model;
- the bookkeeping of the form's view model: clamping setters, the selection set,
  the stock table, purchase planning, the data-quality list, price and premix
  conversions, the generation counter that discards stale answers, and CSV
  escaping.

On the desktop web side it consists of the simpler optimiser, which clamps and
renormalises to 100 and then reports with 5% tolerances, and its weighted
nutrient and cost sums.

Numbers are mathematical reals. Every tolerance of the source (1e-9, 1e-10,
1e-12, 0.0012, 1e-6, 0.95/1.05 and so on) appears as a real constant. Code that
changes state step by step is imperative Dafny:

- the view model is a class whose methods modify its fields;
- the projection, evaluation and search are methods with loop invariants;
- the desktop optimiser keeps its percentages in an `array`.

The solver's methods are proved against specification functions: the
projection against `Projected`, a descent step against `NextMix`, each restart
against the trajectory predicate `RestartRun`, and the best-so-far values
against `BestFeasible` and `BestApprox`. The properties the source promises are
proved about those functions as lemmas. The view model's methods state the
whole new state of the fields they change, with their bounds and invariants.

Several behaviours of the source are stated and proved as they are:

- A mix the Swift solver calls feasible can still fail an assessment. The solver
  accepts a relative violation of 0.0012, while the assessment allows an
  absolute 1e-6 (`RationAssembly.FeasibleYetNotGood`).
- The desktop optimiser's rescaling can carry a percentage past its
  ingredient's maximum (`ElectronOptimizer.RescaleMayLeaveBounds`).
- A desktop percentage between 0.01 and 0.015 is kept in the final formula,
  counted in its nutrients and cost, yet left out of the listed ingredients
  because it rounds to exactly 0.01 (`ElectronOptimizer.PennyEntryUnlisted`).
- The desktop report accepts a nutrient 5% short of its minimum as ok
  (`ElectronResults.ToleranceAcceptsShortfall`).

The modules are:

| module | models |
|---|---|
| `RealMath`, `Options` | max/min/abs, `clamp`, powers, sums and dot products; optional values |
| `NutrientKeys` | the 17-case nutrient key and its `id`, `unit`, `group`, `decimals` |
| `Ingredients` | the ingredient record, `value(for:)` and the editor's new row |
| `NutrientConstraints` | `isActive`, `preset`, `buildConstraints`, the workbook presets, `interpolate`, `micronutrientMinimums` |
| `NutrientAssessments` | `meetsMin`, `meetsMax`, `isGood` |
| `RationSolutions` | the solution record and `empty(message:)` |
| `SolverInputs` | bounds as shares, the input gate, `profitPotential`, objective coefficients, step size, start vectors |
| `NutrientProfiles` | `profileFor` |
| `Penalties` | `evaluate` |
| `BoundedSimplex` | `projectToBoundedSimplex` |
| `Gradients` | the penalty gradient added into the coefficient array |
| `Candidates` | the best-feasible and best-approximation replacement rules |
| `RationAssembly` | the assessments, allocations and status of the answer |
| `RationSolver` | `initialGuess`, the restart loop and its descent steps, and `solve` |
| `StrainPresets` | `getBroilerRequirements`, the phase tables, the polynomial model, `dayRange` |
| `Text`, `Csv` | trimming, ASCII case folding and substring search; `csvEscaped`, `csvRow` |
| `FeedFormRules`, `QualityAlerts`, `Inventory`, `FeedForms` | the view model: the `FeedForm` class and the pure rules it uses |
| `ElectronTypes`, `ElectronCalculations`, `ElectronResults`, `ElectronOptimizer` | the desktop web optimiser |

## Model

| member | source | states |
|---|---|---|
| RealMath.Clamp | Sources/Services/RationSolver.swift:341-343 | the result never exceeds the upper bound; it is at least the lower bound when the bounds are ordered; an in-range value is kept; the bound wins when the value lies beyond it |
| RealMath.ClampMonotone | Sources/Services/RationSolver.swift:341-343 | clamping never reverses the order of two values |
| RealMath.SumMonotone | Sources/Services/RationSolver.swift:34-35 | element-wise ordering of two sequences carries over to their sums |
| NutrientKeys.Id | Sources/Models/Enums/NutrientKey.swift:22 | the identifier is the raw value, and no other case has the same raw value |
| NutrientKeys.AllCasesComplete | Sources/Models/Enums/NutrientKey.swift:3-21 | the declaration-order list has exactly 17 entries, holds every case and repeats none |
| NutrientKeys.Ordinal | Sources/Models/Enums/NutrientKey.swift:3-21 | every key has a position in the declaration-order list, and the list holds the key there |
| NutrientKeys.KeysOf | Sources/Models/Enums/NutrientKey.swift:77-88 | a key is listed for a group exactly when it belongs to that group |
| NutrientKeys.FilterGroupMembers | Sources/Models/Enums/NutrientKey.swift:77-88 | filtering any key list by group keeps exactly its keys of that group |
| NutrientKeys.UnitByGroup | Sources/Models/Enums/NutrientKey.swift:68-75 | the unit is kcal/kg exactly for energy, IU/kg exactly for vitamins, mg/kg exactly for minerals, and % exactly for the other macro and amino keys |
| NutrientKeys.GroupSizes | Sources/Models/Enums/NutrientKey.swift:77-88 | the groups hold 6 macro, 3 amino, 3 vitamin and 5 mineral keys |
| NutrientKeys.DecimalsByGroup | Sources/Models/Enums/NutrientKey.swift:90-99 | decimals is 0 exactly for energy and the micronutrients, and 2 otherwise |
| Ingredients.Ingredient.WithValue | Sources/ViewModels/FeedFormViewModel.swift:385-403 | writing one key's field changes that key's value only, and keeps the identity |
| Ingredients.NewIngredient | Sources/ViewModels/FeedFormViewModel.swift:601-625 | a new row is a user feed with Min% 0, Max% 10, price 20000 and every nutrient at 0 |
| NutrientConstraints.ConstraintsFromTargets | Sources/Models/NutrientConstraint.swift:106-114 | one constraint per key, in declaration order; a bound is enabled exactly when the key has a target, and a missing value defaults to 0 |
| NutrientConstraints.ConsistentTargetsWellFormed | Sources/Models/NutrientConstraint.swift:106-114 | targets with min ≤ max wherever both exist give constraints whose enabled bounds never cross |
| NutrientConstraints.PresetShape | Sources/Models/NutrientConstraint.swift:19-115 | every fixed preset has one constraint per key in order, caps only calcium and sodium, and has no crossed bounds |
| NutrientConstraints.CalciumCap | Sources/Models/NutrientConstraint.swift:163 | the calcium cap is the larger of Ca+0.20 and Ca·1.1 |
| NutrientConstraints.BuildConstraintsShape | Sources/Models/NutrientConstraint.swift:146-176 | one constraint per key in order; the methionine minimum is 0.55 × Met+Cys; the calcium cap is at least the calcium minimum; no crossed bounds when sodium ≤ sodiumMax |
| NutrientConstraints.BroilerRequirement | Sources/Models/NutrientConstraint.swift:178-211 | the floors and caps: ME ≥ 2750, CP in [17, 23], lysine ≥ 0.85, Met+Cys ≥ 0.62, Thr ≥ 0.56, Ca ≥ 0.72, avP ≥ 0.34, Na 0.16, linoleic acid 1.00 |
| NutrientConstraints.LayerRequirement | Sources/Models/NutrientConstraint.swift:213-267 | every layer goal's sodium minimum is within its 0.22 cap |
| NutrientConstraints.RoosterRequirement | Sources/Models/NutrientConstraint.swift:269-323 | every rooster goal's sodium minimum is within its 0.20 cap |
| NutrientConstraints.BroilerDay | Sources/Models/NutrientConstraint.swift:125 | the day is the midpoint of the range clamped to [1, 42], and equals the midpoint when that lies inside |
| NutrientConstraints.WorkbookPresetsWellFormed | Sources/Models/NutrientConstraint.swift:117-132 | every day-range preset, for any bird, goal and days, has one constraint per key in order and no crossed bounds, so it never trips the solver's Min > Max rejection |
| NutrientConstraints.Lerp | Sources/Models/NutrientConstraint.swift:333-337 | the interpolated value lies between the two anchor values and equals the first at its day |
| NutrientConstraints.LerpBetween | Sources/Models/NutrientConstraint.swift:336-337 | a fraction in [0, 1] of the way from x to y lies between x and y |
| NutrientConstraints.SearchSegmentInside | Sources/Models/NutrientConstraint.swift:330-340 | the scan returns the interpolation on the first segment that brackets the day |
| NutrientConstraints.InterpolateSpec | Sources/Models/NutrientConstraint.swift:325-340 | 0 for no anchors, the first value at or before the first day, the last value at or after the last day, otherwise linear on the first bracketing segment |
| NutrientConstraints.MicronutrientMinimums | Sources/Models/NutrientConstraint.swift:342-354 | the keys are exactly the vitamins and minerals, each with a positive minimum |
| NutrientAssessments.AssessmentChecks | Sources/Models/NutrientAssessment.swift:13-25 | meetsMin holds when there is no target or the shortfall is at most 1e-6; meetsMax is the mirror image; isGood is both |
| NutrientAssessments.UntargetedIsGood | Sources/Models/NutrientAssessment.swift:14-25 | an assessment without targets is always good |
| NutrientAssessments.IsGoodBand | Sources/Models/NutrientAssessment.swift:13-25 | with both targets, good exactly when the value lies in [min − 1e-6, max + 1e-6] |
| RationSolutions.Empty | Sources/Models/RationSolution.swift:16-27 | an approximation in least-cost mode, zero cost and objective, 100% violation, no allocations or assessments, and the message passed through |
| SolverInputs.LowerBounds | Sources/Services/RationSolver.swift:32 | one lower share per ingredient, max(0, min%/100) |
| SolverInputs.UpperBounds | Sources/Services/RationSolver.swift:33 | one upper share per ingredient, min(1, max%/100) |
| SolverInputs.BoundsAsShares | Sources/Services/RationSolver.swift:32-33 | lower shares are ≥ 0 and upper shares ≤ 1; a percentage inside [0, 100] is read exactly as its share |
| SolverInputs.ValidateAccepts | Sources/Services/RationSolver.swift:22-47 | the gate passes exactly when there are ingredients, no constraint is crossed, every bound pair is ordered, Σlo ≤ 1.00001 and Σhi ≥ 0.99999 |
| SolverInputs.ValidateOrder | Sources/Services/RationSolver.swift:22-47 | the checks are reported in the source's order, each failure with its own distinct message |
| SolverInputs.WellFormedPassesConstraintCheck | Sources/Services/RationSolver.swift:26-30 | constraint lists without crossed bounds are never rejected for Min > Max |
| SolverInputs.ProfitPotential | Sources/Services/RationSolver.swift:196-209 | the potential is ≥ 0 and at least the sum of the energy, protein, amino and vitamin scores |
| SolverInputs.MicroScoreCapped | Sources/Services/RationSolver.swift:204-208 | the vitamin terms, each capped at 2, add at most 6 |
| SolverInputs.ProfitPotentialMonotone | Sources/Services/RationSolver.swift:196-209 | raising any nutrient never lowers the potential |
| SolverInputs.CoefficientsByMode | Sources/Services/RationSolver.swift:49-57 | least-cost coefficients are the prices; profit-mode coefficients are price − weight·potential, never above the price for a non-negative weight, and equal to it for weight 0 |
| SolverInputs.StepSize | Sources/Services/RationSolver.swift:130 | the step lies in [0.009, 0.12] and is 0.12 on the first iteration |
| SolverInputs.GradientStepDirection | Sources/Services/RationSolver.swift:131 | a positive step moves each share against the sign of its gradient |
| SolverInputs.StartVector | Sources/Services/RationSolver.swift:244-249 | one start share per ingredient: midpoints on restart 0, the supplied draw otherwise |
| SolverInputs.MidpointsWithin | Sources/Services/RationSolver.swift:246 | with ordered bounds the first restart starts within the bounds |
| NutrientProfiles.LevelIsDot | Sources/Services/RationSolver.swift:265-270 | a nutrient's level is the dot product of the shares with that nutrient's column |
| NutrientProfiles.Column | Sources/Services/RationSolver.swift:267-268 | one entry per ingredient, holding that ingredient's value for the key |
| NutrientProfiles.AchievedInProfile | Sources/Services/RationSolver.swift:219 | the level read for a key is the one the profile stores |
| NutrientProfiles.LevelBounds | Sources/Services/RationSolver.swift:265-270 | with non-negative shares, a level lies between the smallest and largest ingredient value times the total share |
| NutrientProfiles.ProfileFor | Sources/Services/RationSolver.swift:259-273 | the profile holds every key, at the weighted sum of the ingredients' values |
| NutrientProfiles.AddIngredient | Sources/Services/RationSolver.swift:266-269 | one ingredient adds its weighted value to every key |
| Penalties.Scale | Sources/Services/RationSolver.swift:222 | the scale is at least 1 and at least the absolute bound |
| Penalties.Deficit | Sources/Services/RationSolver.swift:223 | the deficit is ≥ 0, and positive exactly when the value is below the minimum |
| Penalties.Excess | Sources/Services/RationSolver.swift:230 | the excess is ≥ 0, and positive exactly when the value is above the maximum |
| Penalties.PenaltyOf | Sources/Services/RationSolver.swift:218-234 | the penalty is never negative |
| Penalties.MaxViolationOf | Sources/Services/RationSolver.swift:218-234 | the worst violation is never negative |
| Penalties.Evaluate | Sources/Services/RationSolver.swift:211-237 | the accumulated penalty and worst violation equal the specification sums over the active constraints |
| Penalties.ViolationDominated | Sources/Services/RationSolver.swift:225-232 | the worst violation is at least every constraint's deficit and excess |
| Penalties.ViolationAttained | Sources/Services/RationSolver.swift:225-232 | a nonzero worst violation is the violation of some constraint |
| Penalties.ViolationZeroIff | Sources/Services/RationSolver.swift:221-233 | one constraint's violation is 0 exactly when its enabled bounds hold |
| Penalties.MaxViolationZeroIff | Sources/Services/RationSolver.swift:218-234 | the worst violation is 0 exactly when every constraint is satisfied |
| Penalties.ViolationWithin | Sources/Services/RationSolver.swift:221-233 | a violation of at most t means each enabled bound holds up to t times its scale |
| Penalties.SquaredMaxBelowPenalty | Sources/Services/RationSolver.swift:224-232 | the squared worst violation never exceeds the penalty |
| Penalties.PenaltyBelowMax | Sources/Services/RationSolver.swift:224-232 | the penalty is at most 2·n times the squared worst violation |
| Penalties.PenaltyZeroIff | Sources/Services/RationSolver.swift:211-237 | the penalty is 0 exactly when the worst violation is 0 |
| BoundedSimplex.Shifted | Sources/Services/RationSolver.swift:295-309 | every value lowered by the shift and clamped into its bounds |
| BoundedSimplex.ShiftedWithin | Sources/Services/RationSolver.swift:307-309 | a shifted-and-clamped vector lies within the bounds |
| BoundedSimplex.ShiftedSumMonotone | Sources/Services/RationSolver.swift:295-303 | the clamped total never increases as the shift grows |
| BoundedSimplex.Gaps | Sources/Services/RationSolver.swift:290-291 | the value-minus-bound differences, entry by entry |
| BoundedSimplex.MinOf | Sources/Services/RationSolver.swift:290 | the minimum is an element and below every element |
| BoundedSimplex.MaxOf | Sources/Services/RationSolver.swift:291 | the maximum is an element and above every element |
| BoundedSimplex.InitialBracket | Sources/Services/RationSolver.swift:290-291 | at the low shift the clamp gives the upper bounds, and at the high shift the total is at most Σlo |
| BoundedSimplex.Bisect | Sources/Services/RationSolver.swift:293-304 | the bracket invariant: the total at the low shift stays ≥ target − 1e-9 and at the high shift ≤ target + 1e-9, while each step halves the width; an ordered starting bracket stays ordered (low ≤ high) |
| BoundedSimplex.BisectBracket | Sources/Services/RationSolver.swift:293-304 | whatever the number of halvings, the total at the low end stays ≥ target − 1e-9, at the high end ≤ target + 1e-9, and the width is the first width halved that many times |
| BoundedSimplex.HalveBracket | Sources/Services/RationSolver.swift:294-303 | one bisection step moves the low end to the midpoint when the total there exceeds the target, and the high end otherwise |
| BoundedSimplex.HalvedNonNegative | Sources/Services/RationSolver.swift:293-304 | halving a non-negative bracket width any number of times leaves it non-negative |
| BoundedSimplex.HalvedIsDivision | Sources/Services/RationSolver.swift:293-294 | after k halvings the bracket is its first width divided by 2^k |
| BoundedSimplex.AdjustableFrom | Sources/Services/RationSolver.swift:315-319 | exactly the indices still movable in the direction of the difference, in increasing order |
| BoundedSimplex.CountBounds | Sources/Services/RationSolver.swift:315-321 | the number of movable entries is at most n, and 0 exactly when none can move |
| BoundedSimplex.CountDecreases | Sources/Services/RationSolver.swift:315-321 | when no entry becomes movable and one stops being movable, the movable count strictly falls |
| BoundedSimplex.CountMonotone | Sources/Services/RationSolver.swift:315-319 | when no entry becomes movable, the movable count does not grow |
| BoundedSimplex.MoveOne | Sources/Services/RationSolver.swift:327-328 | moving one in-bounds entry by a share and clamping moves it at most the share, in its sign, and by less only when it lands on that bound |
| BoundedSimplex.EvenShare | Sources/Services/RationSolver.swift:323 | the even share of a nonzero difference has its sign, and m shares add back to the difference |
| BoundedSimplex.MovesBounds | Sources/Services/RationSolver.swift:323-329 | a pass moves the total by at most k shares, in the sign of the share |
| BoundedSimplex.ShiftEntries | Sources/Services/RationSolver.swift:323-329 | one pass moves each listed entry by the share, clamped; the others are kept; the result stays in bounds, and the movement equals the change of the total |
| BoundedSimplex.ShiftStep | Sources/Services/RationSolver.swift:324-329 | moving one more listed entry keeps the pass's bookkeeping: moved entries clamped, others kept, movement tracked |
| BoundedSimplex.PassProgress | Sources/Services/RationSolver.swift:313-331 | a pass either absorbs the whole difference or leaves strictly fewer entries movable |
| BoundedSimplex.StuckBound | Sources/Services/RationSolver.swift:321 | with reachable bounds, when nothing can move the remaining difference is at most 1e-9 + n·1e-12 |
| BoundedSimplex.NearUpper | Sources/Services/RationSolver.swift:317 | entries within 1e-12 of their maxima sum to within n·1e-12 of Σhi |
| BoundedSimplex.NearLower | Sources/Services/RationSolver.swift:318 | entries within 1e-12 of their minima sum to within n·1e-12 of Σlo |
| BoundedSimplex.MovedBy | Sources/Services/RationSolver.swift:325-329 | after a pass over the listed entries, each listed entry is its old value plus the share, clamped, and every other entry is kept |
| BoundedSimplex.MovedByWithin | Sources/Services/RationSolver.swift:325-327 | a pass keeps every entry within its bounds |
| BoundedSimplex.MovedByStepSum | Sources/Services/RationSolver.swift:325-327 | moving one more listed entry changes the total by exactly that entry's clamped move |
| BoundedSimplex.MovedByStep | Sources/Services/RationSolver.swift:325-327 | moving the first k listed entries is moving the first k − 1 and then clamping entry k from its original value |
| BoundedSimplex.MovedBySum | Sources/Services/RationSolver.swift:324-329 | the total moved by the first k listed entries is the change of the sum |
| BoundedSimplex.MovedByTotal | Sources/Services/RationSolver.swift:324-330 | the total a whole pass moves is the change of the sum |
| BoundedSimplex.PassSpec | Sources/Services/RationSolver.swift:314-330 | one pass keeps the bounds and the difference to the target; it stops unchanged, and then only when the difference is within 1e-10 or nothing can move; a moving pass keeps the sign of the difference and either absorbs it or leaves fewer entries movable |
| BoundedSimplex.MovingPass | Sources/Services/RationSolver.swift:315-330 | with a difference above 1e-10 and something movable, the pass moves and tracks the difference |
| BoundedSimplex.MovingPassProgress | Sources/Services/RationSolver.swift:323-330 | a moving pass never overshoots the target and either absorbs the difference or leaves strictly fewer entries movable |
| BoundedSimplex.RebalancePass | Sources/Services/RationSolver.swift:314-330 | one residual pass keeps the bounds and tracks the difference; it stops unchanged only when the difference is small or nothing can move; otherwise it absorbs the difference or reduces the movable count |
| BoundedSimplex.RebalancedSpec | Sources/Services/RationSolver.swift:313-331 | any number of passes keeps the bounds and the difference to the target, leaves a start within 1e-10 alone, and, with no more movable entries than passes, ends within 1e-9 + n·1e-12 of a reachable target |
| BoundedSimplex.RebalancedKeeps | Sources/Services/RationSolver.swift:313-331 | every pass keeps the bounds and the difference to the target |
| BoundedSimplex.RebalancedBound | Sources/Services/RationSolver.swift:313-331 | with ordered, reachable bounds, a difference of constant sign and at most as many movable entries as passes, the passes end within 1e-9 + n·1e-12 of the target |
| BoundedSimplex.MovingPassBound | Sources/Services/RationSolver.swift:313-331 | the bound of RebalancedBound when the first pass moves |
| BoundedSimplex.NoPassLeftBound | Sources/Services/RationSolver.swift:321 | when nothing is movable, the difference is already within 1e-9 + n·1e-12 |
| BoundedSimplex.StoppedPassBound | Sources/Services/RationSolver.swift:314-321 | when the first pass stops, the difference is within 1e-9 + n·1e-12 |
| BoundedSimplex.NextPassPremises | Sources/Services/RationSolver.swift:313-331 | after a moving pass the difference keeps its sign and fewer passes remain than movable entries before, so the bound carries to the next pass |
| BoundedSimplex.RebalancedFromStart | Sources/Services/RationSolver.swift:311-332 | twice-n passes from a start within bounds stay within bounds and, for ordered, reachable bounds, end within 1e-9 + n·1e-12 of the target |
| BoundedSimplex.RebalancedFromStill | Sources/Services/RationSolver.swift:311-312 | a start within 1e-10 of the target is returned unchanged |
| BoundedSimplex.RebalancedFromClose | Sources/Services/RationSolver.swift:311-332 | the difference the passes return is within 1e-9 + n·1e-12 for ordered, reachable bounds |
| BoundedSimplex.RunPasses | Sources/Services/RationSolver.swift:313-331 | the pass loop, leaving at the first pass that stops, computes the passes of the specification, keeps the bounds and tracks the difference |
| BoundedSimplex.Rebalance | Sources/Services/RationSolver.swift:311-332 | the residual correction is the specified passes, keeps every entry within its bounds and tracks the remaining difference; a difference of at most 1e-10 leaves the vector unchanged; with ordered, reachable bounds the final difference is at most 1e-9 + n·1e-12 |
| BoundedSimplex.InitialShiftsOrdered | Sources/Services/RationSolver.swift:290-291 | when every lower bound is at most its upper bound, the starting low shift is at most the starting high shift |
| BoundedSimplex.InitialShiftsBracket | Sources/Services/RationSolver.swift:290-291 | with reachable bounds the starting low and high shifts bracket the target |
| BoundedSimplex.ProjectedSpec | Sources/Services/RationSolver.swift:275-335 | the projection has the input's length and lies within the bounds; with unreachable bounds it is the plain clamp |
| BoundedSimplex.ProjectToBoundedSimplex | Sources/Services/RationSolver.swift:275-335 | the output is the specified projection, has the input's length and lies within the bounds; with unreachable bounds it is the plain clamp; with reachable, ordered bounds its total is within 1e-9 + n·1e-12 of the target |
| Gradients.FactorSigns | Sources/Services/RationSolver.swift:111-122 | a missed minimum has a negative factor and an exceeded maximum a positive one |
| Gradients.AddScaled | Sources/Services/RationSolver.swift:112-125 | adding a scaled column keeps the gradient's length |
| Gradients.AddScaledTo | Sources/Services/RationSolver.swift:112-114 | the in-place loop leaves the gradient array equal to the scaled sum |
| Gradients.ComputeGradient | Sources/Services/RationSolver.swift:101-128 | the gradient is the coefficients corrected for every active constraint, left to right |
| Gradients.GradientWhenSatisfied | Sources/Services/RationSolver.swift:101-128 | when every constraint holds, the gradient is the objective coefficients |
| Gradients.GradientSigns | Sources/Services/RationSolver.swift:107-127 | with non-negative nutrients, missed minimums only lower the gradient and exceeded maximums only raise it |
| Gradients.GradientBelow | Sources/Services/RationSolver.swift:107-116 | with only minimums missed, no gradient entry exceeds its coefficient |
| Gradients.GradientAbove | Sources/Services/RationSolver.swift:118-127 | with only maximums exceeded, no gradient entry is below its coefficient |
| Candidates.BestFeasibleExists | Sources/Services/RationSolver.swift:86-89 | a best feasible candidate exists exactly when some visited candidate had a violation of at most 0.0012 |
| Candidates.BestFeasibleCheapest | Sources/Services/RationSolver.swift:86-89 | the best feasible candidate is the first of the cheapest feasible ones: only a strictly lower cost replaces it |
| Candidates.BestApproxSpec | Sources/Services/RationSolver.swift:90-99 | a best approximation exists exactly when an infeasible candidate was seen, and it is one of them |
| Candidates.RecordApproxPenalty | Sources/Services/RationSolver.swift:90-99 | after an infeasible candidate the kept penalty is at most that candidate's, and never above the old one beyond the 1e-9 tie tolerance |
| Candidates.SomeBest | Sources/Services/RationSolver.swift:145-147 | a run that visited anything has a winner of one kind or the other |
| RationAssembly.Assessments | Sources/Services/RationSolver.swift:149-156 | one assessment per constraint |
| RationAssembly.AssessmentsSpec | Sources/Services/RationSolver.swift:149-156 | assessment i has constraint i's key; it has a minimum target exactly when useMin and a maximum target exactly when useMax; a satisfied constraint is assessed good |
| RationAssembly.FeasibleAssessments | Sources/Services/RationSolver.swift:149-156 | in a feasible winner, each target is met up to 0.0012 times its scale |
| RationAssembly.AssessmentNearlyMet | Sources/Services/RationSolver.swift:149-156 | a constraint violated by at most t is assessed with each target met up to t times its scale |
| RationAssembly.FeasibleYetNotGood | Sources/Models/NutrientAssessment.swift:15 | a concrete mix within the 0.0012 feasibility threshold whose assessment is not good |
| RationAssembly.Allocations | Sources/Services/RationSolver.swift:158-167 | one allocation per ingredient |
| RationAssembly.AllocationsRoundTrip | Sources/Services/RationSolver.swift:164 | the inclusion percentages divided by 100 give back the shares |
| RationAssembly.AllocationsSpec | Sources/Services/RationSolver.swift:158-167 | allocation i is ingredient i's, with share·price as its cost, and the contributions sum to the cost dot product |
| RationAssembly.AllocationsFollowIngredients | Sources/Services/RationSolver.swift:158-167 | allocation i carries ingredient i's identity, and its cost is the share it encodes times the price |
| RationAssembly.DotAsSum | Sources/Services/RationSolver.swift:337-339 | a dot product is the sum of the element-wise products |
| RationAssembly.AssembleSpec | Sources/Services/RationSolver.swift:169-193 | the status is feasible exactly for a feasible winner, which reports 0% violation; an approximation reports its violation·100, above 0.12; the approximation message goes exactly with that status, the profit message exactly with a feasible profit run |
| RationAssembly.AssembleReports | Sources/Services/RationSolver.swift:169-193 | the answer carries the mode, the winner's cost, its shares, its objective and the assessments of its profile |
| RationSolver.InitialGuess | Sources/Services/RationSolver.swift:239-257 | the start of a restart is the projection of its start vector (midpoints on restart 0, the draw otherwise), is admissible, and is the plain clamp when the bounds cannot reach 1 |
| RationSolver.Assess | Sources/Services/RationSolver.swift:72-84 | the candidate's profile, cost, penalty, violation and objective are those of its shares |
| RationSolver.Descend | Sources/Services/RationSolver.swift:101-137 | the next shares are the specified step: the projection of the shares minus the step size times the penalty gradient; they are admissible, and the plain clamp of the step when the bounds cannot reach 1 |
| RationSolver.DescentStepsLike | Sources/Services/RationSolver.swift:101-137 | the descent step function gives the next shares of every right-sized candidate |
| RationSolver.FollowsAt | Sources/Services/RationSolver.swift:71-141 | in a run following a step from a start, each candidate is right-sized, the first sits at the start, and each later one at the step from its predecessor, which did not exit early |
| RationSolver.ContinuesStep | Sources/Services/RationSolver.swift:130-141 | a candidate that does not exit early hands its step to the next iteration |
| RationSolver.FollowsExtend | Sources/Services/RationSolver.swift:71-141 | appending the candidate the run continues to keeps the run following the step |
| RationSolver.RestartRunAt | Sources/Services/RationSolver.swift:64-142 | in a whole restart, candidate 0 sits at the projected start vector, candidate k + 1 at the descent step from candidate k, and no candidate but the last meets the early exit |
| RationSolver.RestartRunIntro | Sources/Services/RationSolver.swift:64-142 | a run following the descent from the projected start, of at most 1200 candidates, full or ending at an early exit, is a whole restart |
| RationSolver.RunRestart | Sources/Services/RationSolver.swift:71-142 | one restart visits between 1 and 1200 candidates, the first at the start and each later one at the step from the previous; it stops before 1200 exactly at the first candidate past iteration 260 with a violation below 0.0001; the best-so-far values follow the replacement rules over every visited candidate |
| RationSolver.Iterate | Sources/Services/RationSolver.swift:72-141 | one iteration appends the evaluated candidate, records it in the best-so-far values, and steps to the next admissible shares, so the run keeps following the step |
| RationSolver.Extend | Sources/Services/RationSolver.swift:86-99 | visiting one more candidate applies one replacement step to each best-so-far value |
| RationSolver.Search | Sources/Services/RationSolver.swift:64-143 | the 12 restarts are each a whole restart from their own projected start along the descent; the visited candidates are their concatenation, between 12 and 12·1200 of them, and the bests follow the replacement rules |
| RationSolver.NextRestart | Sources/Services/RationSolver.swift:64-143 | adding a whole restart keeps every restart whole and extends the visited list by its candidates |
| RationSolver.Solve | Sources/Services/RationSolver.swift:16-194 | a rejected input gives the empty solution with the gate's message; otherwise the 12 restarts each descend from their projected start, and the answer is assembled from the cheapest feasible visited candidate when one exists, else from the best approximation |
| StrainPresets.PhaseForSpec | Sources/Models/StrainPresets.swift:137-146 | for ages 0…60 the chosen phase is exactly the one whose day range holds the age; older is finisher 2, younger is starter |
| StrainPresets.PhaseForMonotone | Sources/Models/StrainPresets.swift:137-146 | an older bird is never in an earlier phase |
| StrainPresets.TablesFollowPhase | Sources/Models/StrainPresets.swift:136-146 | a table strain's requirements depend on the age only through the phase |
| StrainPresets.DynamicRatios | Sources/Models/StrainPresets.swift:64-105 | in the polynomial model ME is 0.95 times its cubic; Met+Cys = 0.74·Lys, Met = 0.46·Met+Cys = 0.3404·Lys, Thr = 0.66·Lys; lysine is 6.2% of CP; avP is half the calcium; Na 0.16, K 0.70, Cl 0.23 |
| StrainPresets.DynamicAtHatch | Sources/Models/StrainPresets.swift:61-101 | at day 0 the model asks for 0.95·2966.7735466 kcal/kg, 1.43827279762856% lysine, 1.125% calcium and 0.5625% avP |
| StrainPresets.TablesByPhase | Sources/Models/StrainPresets.swift:136-433 | for every strain table, a later growth phase asks for more energy and for less crude protein, lysine and calcium |
| StrainPresets.TableConstants | Sources/Models/StrainPresets.swift:136-433 | every table row asks for 0.16% sodium and 0.23% chloride, and for less methionine than methionine plus cystine |
| Text.TrimStart | Sources/ViewModels/FeedFormViewModel.swift:948 | the result is a suffix, only whitespace was dropped, and it does not start with whitespace |
| Text.TrimEnd | Sources/ViewModels/FeedFormViewModel.swift:948 | the result is a prefix, only whitespace was dropped, and it does not end with whitespace |
| Text.TrimSlice | Sources/ViewModels/FeedFormViewModel.swift:948 | the trimmed name is a slice of the name with only whitespace around it |
| Text.TrimEnds | Sources/ViewModels/FeedFormViewModel.swift:948-951 | the trimmed name has no whitespace at either end, and is empty exactly when the name was all whitespace |
| Text.TrimIdempotent | Sources/ViewModels/FeedFormViewModel.swift:948 | trimming twice is trimming once |
| Text.Lowercased | Sources/ViewModels/FeedFormViewModel.swift:802 | same length, each ASCII capital lowered and every other character kept |
| Text.ContainsSpec | Sources/ViewModels/FeedFormViewModel.swift:803 | the search finds a fragment exactly when it occurs at some position |
| Text.IgnoringCaseAfterLowering | Sources/ViewModels/FeedFormViewModel.swift:105 | lowering the text first does not change a case-insensitive search |
| Csv.DoubleQuotes | Sources/ViewModels/FeedFormViewModel.swift:1120 | doubling quotes never shortens the text and leaves quote-free text unchanged |
| Csv.CsvEscaped | Sources/ViewModels/FeedFormViewModel.swift:1119-1122 | the field is wrapped in quotes, and quote-free text is placed between them unchanged |
| Csv.ReadQuotedDoubled | Sources/ViewModels/FeedFormViewModel.swift:1119-1122 | a reader that takes a doubled quote as one quote recovers the original text |
| Csv.ReadFieldThen | Sources/ViewModels/FeedFormViewModel.swift:1119-1122 | a written field is read back, and the reader stops right after its closing quote |
| Csv.ReadFieldsWritten | Sources/ViewModels/FeedFormViewModel.swift:1115-1117 | reading a written non-empty row gives back exactly its values |
| Csv.ReadRowWritten | Sources/ViewModels/FeedFormViewModel.swift:1115-1122 | reading a written row gives back every value |
| Csv.CsvRowCons | Sources/ViewModels/FeedFormViewModel.swift:1115-1117 | a row is its first escaped field, a comma and the rest of the row |
| FeedFormRules.FirstIngredientIndex | Sources/ViewModels/FeedFormViewModel.swift:383 | the first position of the identifier, absent exactly when no ingredient has it |
| FeedFormRules.FirstConstraintIndex | Sources/ViewModels/FeedFormViewModel.swift:355 | the first position of the key, absent exactly when no constraint has it |
| FeedFormRules.AllocationFor | Sources/ViewModels/FeedFormViewModel.swift:331 | the allocation found carries the identifier, and none is found exactly when none carries it |
| FeedFormRules.SelectedOf | Sources/ViewModels/FeedFormViewModel.swift:117-119 | exactly the ingredients whose identifier is selected |
| FeedFormRules.ActiveOf | Sources/ViewModels/FeedFormViewModel.swift:942-952 | only ingredients of enabled groups that are selected and have a non-blank name, trimmed; every such ingredient is present |
| FeedFormRules.ActiveFromTaking | Sources/ViewModels/FeedFormViewModel.swift:942-952 | each ingredient handed to the optimiser comes from an enabled, selected library row |
| FeedFormRules.Without | Sources/ViewModels/FeedFormViewModel.swift:635 | exactly the ingredients not carrying the identifier |
| FeedFormRules.ConvertPrice | Sources/ViewModels/FeedFormViewModel.swift:1143-1148 | only a price in (0, threshold) is multiplied by the rate; every other field is unchanged |
| FeedFormRules.ConvertIngredientPricesToToman | Sources/ViewModels/FeedFormViewModel.swift:1138-1150 | the list is converted entry by entry |
| FeedFormRules.ConvertAgainUnchanged | Sources/ViewModels/FeedFormViewModel.swift:1138-1150 | converting a second time changes nothing when the rate lifts every legacy price past the threshold |
| FeedFormRules.PremixRoundTrip | Sources/ViewModels/FeedFormViewModel.swift:728-738 | on a positive batch, % → kg → % and kg → % → kg give back the original |
| FeedFormRules.CalculationBlocker | Sources/ViewModels/FeedFormViewModel.swift:846-865 | a calculation is blocked, in this order, by fewer than two active ingredients, by an ingredient with Min% > Max%, or by a crossed constraint, and by nothing else |
| FeedFormRules.DefaultStock | Sources/ViewModels/FeedFormViewModel.swift:818-821 | a new stock row holds max(250, 1.8·batch) on hand and max(100, 0.35·batch) safety stock |
| FeedFormRules.FirstPremixCandidate | Sources/ViewModels/FeedFormViewModel.swift:103-107 | the first supplement named as a premix, absent exactly when there is none |
| FeedFormRules.FirstNamedPremix | Sources/ViewModels/FeedFormViewModel.swift:80 | the first ingredient whose name mentions "Premix" in any case, absent exactly when there is none |
| FeedFormRules.CoreSelection | Sources/ViewModels/FeedFormViewModel.swift:788-810 | the staple-named ingredients when there are at least two, otherwise exactly the identifiers of the first eight ingredients |
| QualityAlerts.FormAlertsOf | Sources/ViewModels/FeedFormViewModel.swift:178-230 | each form finding is present exactly when its check fails, and the list is empty exactly when none fails |
| QualityAlerts.IngredientAlerts | Sources/ViewModels/FeedFormViewModel.swift:233-267 | an ingredient's findings are exactly those its data raises |
| QualityAlerts.CheckIngredient | Sources/ViewModels/FeedFormViewModel.swift:233-267 | the four appends build the ingredient's finding list |
| QualityAlerts.CollectAlerts | Sources/ViewModels/FeedFormViewModel.swift:232-268 | the loop over the selected ingredients appends exactly each one's findings, in order, after those already found |
| QualityAlerts.AlertsForAllMember | Sources/ViewModels/FeedFormViewModel.swift:232-268 | a finding is listed exactly when some ingredient raises it |
| QualityAlerts.AlertsForAllEmpty | Sources/ViewModels/FeedFormViewModel.swift:232-268 | no finding is listed exactly when no ingredient has an issue |
| Inventory.Shortfall | Sources/ViewModels/FeedFormViewModel.swift:343 | the quantity to buy is ≥ 0, reaches what is needed, is positive exactly when stock is short, and then buys exactly the gap |
| Inventory.InsertByReorder | Sources/ViewModels/FeedFormViewModel.swift:300 | inserting a line into sorted lines keeps them sorted and adds exactly that line |
| Inventory.SortByReorder | Sources/ViewModels/FeedFormViewModel.swift:300 | the lines are permuted into non-increasing order of reorder quantity |
| Inventory.ReorderedNonNegative | Sources/ViewModels/FeedFormViewModel.swift:287-300 | reordering keeps every reorder quantity non-negative |
| FeedForms.Seeded | Sources/ViewModels/FeedFormViewModel.swift:812-824 | after seeding, the stock keys are exactly the ingredient ids; existing rows are kept and new rows get the default |
| FeedForms.GroupIdsMember | Sources/ViewModels/FeedFormViewModel.swift:770-777 | an identifier is collected exactly when some ingredient of the group carries it |
| FeedForms.FeedForm.constructor | Sources/ViewModels/FeedFormViewModel.swift:54-84 | start-up: the default settings, the broiler grower preset for days 1–35, library prices converted, the core selection, the first named premix, default stock for every ingredient, and a valid state |
| FeedForms.FeedForm.SelectedIngredients | Sources/ViewModels/FeedFormViewModel.swift:117-121 | exactly the ingredients whose identifier is selected |
| FeedForms.FeedForm.FormulaPeriodDays | Sources/ViewModels/FeedFormViewModel.swift:123-125 | at least 1; the inclusive day count when the range is ordered |
| FeedForms.FeedForm.PlannedBatchCount | Sources/ViewModels/FeedFormViewModel.swift:131-134 | the batch count times the batch size is the period demand; 0 for a non-positive batch size |
| FeedForms.FeedForm.EstimatedFCR | Sources/ViewModels/FeedFormViewModel.swift:136-140 | intake per kg of expected gain; 0 when the gain is not positive |
| FeedForms.FeedForm.OnHandKg | Sources/ViewModels/FeedFormViewModel.swift:309-311 | 0 without a row; never negative in a valid state |
| FeedForms.FeedForm.SafetyStockKg | Sources/ViewModels/FeedFormViewModel.swift:313-315 | 0 without a row; never negative in a valid state |
| FeedForms.FeedForm.DailyUsageKg | Sources/ViewModels/FeedFormViewModel.swift:329-333 | 0 without a solution or an allocation; otherwise the inclusion share of the flock's daily feed |
| FeedForms.FeedForm.DaysCover | Sources/ViewModels/FeedFormViewModel.swift:335-339 | days times usage give the stock on hand; 0 when usage is at most 1e-9; never negative in a valid state |
| FeedForms.FeedForm.ReorderRecommendationKg | Sources/ViewModels/FeedFormViewModel.swift:341-344 | ≥ 0; stock plus the order covers the period's use plus the safety stock, exactly when anything is ordered |
| FeedForms.FeedForm.LeadDays | Sources/ViewModels/FeedFormViewModel.swift:284 | the lead time is at least one day |
| FeedForms.FeedForm.OrderLine | Sources/ViewModels/FeedFormViewModel.swift:282-298 | one line carries the ingredient's identity, its usage, the lead demand, stock and days of cover, and a non-negative reorder that covers lead demand plus safety stock |
| FeedForms.FeedForm.OrderLines | Sources/ViewModels/FeedFormViewModel.swift:281-299 | one purchase line per ingredient, in order |
| FeedForms.FeedForm.MrpOrderLines | Sources/ViewModels/FeedFormViewModel.swift:281-301 | one line per selected ingredient, a permutation of their lines, sorted non-increasing by reorder, every reorder ≥ 0 |
| FeedForms.FeedForm.AllClear | Sources/ViewModels/FeedFormViewModel.swift:270-272 | the list is never empty, and it holds the all-clear exactly when no check fires, and then nothing else |
| FeedForms.FeedForm.FormListed | Sources/ViewModels/FeedFormViewModel.swift:178-230 | a form finding is listed exactly when the form checks raise it |
| QualityAlerts.FormFindingsOf | Sources/ViewModels/FeedFormViewModel.swift:178-272 | for any selected ingredients, each of the six form findings is in the list exactly when its check fails |
| FeedForms.FeedForm.FormFindings | Sources/ViewModels/FeedFormViewModel.swift:178-230 | each of the six form findings is listed exactly when its condition holds |
| FeedForms.FeedForm.IngredientFindings | Sources/ViewModels/FeedFormViewModel.swift:232-268 | an ingredient finding is listed exactly when some selected ingredient raises it |
| FeedForms.FeedForm.QualityAlerts | Sources/ViewModels/FeedFormViewModel.swift:175-275 | the appends build exactly the specified list |
| FeedForms.FeedForm.SetConstraintUseMin | Sources/ViewModels/FeedFormViewModel.swift:354-358 | an unknown key changes nothing; otherwise only the first matching constraint's flag changes and the form is marked dirty |
| FeedForms.FeedForm.SetConstraintMinValue | Sources/ViewModels/FeedFormViewModel.swift:360-364 | an unknown key changes nothing; otherwise only the first matching constraint's minimum changes, to max(0, v), and the form is marked dirty |
| FeedForms.FeedForm.SetConstraintUseMax | Sources/ViewModels/FeedFormViewModel.swift:366-370 | an unknown key changes nothing; otherwise only the first matching constraint's flag changes and the form is marked dirty |
| FeedForms.FeedForm.SetConstraintMaxValue | Sources/ViewModels/FeedFormViewModel.swift:372-376 | an unknown key changes nothing; otherwise only the first matching constraint's maximum changes, to max(0, v), and the form is marked dirty |
| FeedForms.FeedForm.SetNutrientValue | Sources/ViewModels/FeedFormViewModel.swift:382-405 | an unknown id changes nothing; otherwise only the first matching ingredient's value for the key changes, to max(0, v) |
| FeedForms.FeedForm.SetWorkbookNutrientValue | Sources/ViewModels/FeedFormViewModel.swift:415-428 | a core key goes through the key setter; an extra nutrient is stored as max(0, v), or removed at 0; an unknown id changes nothing |
| FeedForms.FeedForm.SetIngredientPrice | Sources/ViewModels/FeedFormViewModel.swift:430-434 | an unknown id changes nothing; otherwise only the first match's price changes, to max(0, v) |
| FeedForms.FeedForm.SetIngredientMinPercent | Sources/ViewModels/FeedFormViewModel.swift:436-440 | an unknown id changes nothing; otherwise only the first match's Min% changes, clamped to [0, 100] |
| FeedForms.FeedForm.SetIngredientMaxPercent | Sources/ViewModels/FeedFormViewModel.swift:442-446 | an unknown id changes nothing; otherwise only the first match's Max% changes, clamped to [0, 100] |
| FeedForms.FeedForm.AddIngredient | Sources/ViewModels/FeedFormViewModel.swift:601-632 | the new row is appended and selected; the stock table becomes the seeded table over the new list, keeping existing rows; the form is marked dirty |
| FeedForms.FeedForm.RemoveIngredient | Sources/ViewModels/FeedFormViewModel.swift:634-642 | the id leaves the ingredients, the selection and the stock; a removed premix falls back to the first candidate |
| FeedForms.FeedForm.ToggleGroup | Sources/ViewModels/FeedFormViewModel.swift:644-651 | the group's membership flips and no other group changes |
| FeedForms.FeedForm.SetIngredientSelection | Sources/ViewModels/FeedFormViewModel.swift:755-762 | the id is selected exactly when asked, and no other selection changes |
| FeedForms.FeedForm.ClearSelectedIngredients | Sources/ViewModels/FeedFormViewModel.swift:764-767 | the selection is emptied |
| FeedForms.FeedForm.SelectAllIngredients | Sources/ViewModels/FeedFormViewModel.swift:769-774 | the group's identifiers are added to the selection |
| FeedForms.FeedForm.ClearSelectedIngredientsIn | Sources/ViewModels/FeedFormViewModel.swift:776-781 | the group's identifiers are removed from the selection |
| FeedForms.FeedForm.SelectCoreTemplate | Sources/ViewModels/FeedFormViewModel.swift:783-786 | the selection becomes the core selection, which only holds library ids |
| FeedForms.FeedForm.SetOnHandKg | Sources/ViewModels/FeedFormViewModel.swift:317-321 | stores max(0, v), creating a zero row when none exists; other rows are unchanged |
| FeedForms.FeedForm.SetSafetyStockKg | Sources/ViewModels/FeedFormViewModel.swift:323-327 | stores max(0, v), creating a zero row when none exists; other rows are unchanged |
| FeedForms.FeedForm.SeedInventoryIfNeeded | Sources/ViewModels/FeedFormViewModel.swift:812-824 | the rebuilt table is the seeded one and stays valid |
| FeedForms.FeedForm.ApplyPreset | Sources/ViewModels/FeedFormViewModel.swift:536-544 | the constraints become the day-range preset, which has no crossed bounds |
| FeedForms.FeedForm.ConvertPremixPercentToKg | Sources/ViewModels/FeedFormViewModel.swift:728-730 | the premix quantity is batch·%/100 |
| FeedForms.FeedForm.ConvertPremixKgToPercent | Sources/ViewModels/FeedFormViewModel.swift:732-738 | converts on a positive batch; otherwise it refuses with its message |
| FeedForms.FeedForm.ApplyPremixToFormula | Sources/ViewModels/FeedFormViewModel.swift:740-753 | without a premix only the message changes: the ingredients, generation, calculation and scenario state are kept; otherwise Min% becomes the premix share and Max% at least that, so Min% ≤ Max%, and the form is marked dirty |
| FeedForms.FeedForm.MarkDirty | Sources/ViewModels/FeedFormViewModel.swift:889-898 | a new generation, no calculation running, the scenario reset, and the message shown |
| FeedForms.FeedForm.RequestCalculation | Sources/ViewModels/FeedFormViewModel.swift:830-887 | every request bumps the generation; an unforced one only marks the form dirty; a forced one is blocked exactly by the blockers, which clear the solution and stop calculating, else it hands out a request stamped with the new generation |
| FeedForms.FeedForm.ForcedRequest | Sources/ViewModels/FeedFormViewModel.swift:834-887 | a forced request clears the scenario and bumps the generation; it is refused exactly when the form as it was has a blocker, which is then shown with the solution cleared, and otherwise hands out the active ingredients and constraints under the new generation |
| FeedForms.FeedForm.CalculateFormula | Sources/ViewModels/FeedFormViewModel.swift:826-828 | a forced, immediate request: a new generation and the scenario cleared; with no blocker, a request for the active ingredients, all constraints, the mode and the profit weight, with the calculation running and the message kept; otherwise no request, the solution cleared, the calculation stopped and the first blocker shown |
| FeedForms.FeedForm.Complete | Sources/ViewModels/FeedFormViewModel.swift:880-886 | an answer is applied only when its generation is still current; a stale one changes nothing |
| FeedForms.FeedForm.RunScheduled | Sources/ViewModels/FeedFormViewModel.swift:1166-1189 | the scheduled work solves the request's snapshot: a stale answer changes nothing; a current one installs the optimiser's answer with its message and ends the calculation; the answer is the empty solution with the gate's message for a rejected snapshot, and otherwise the assembled winner of the 12 restarts, each descending from its projected start: the cheapest feasible visited candidate when one exists, else the best approximation |
| ElectronTypes.Add | electron-app/src/utils/calculations.ts:31 | the key-by-key sum |
| ElectronTypes.Scale | electron-app/src/utils/calculations.ts:31 | the key-by-key product with a weight |
| ElectronTypes.Lookup | electron-app/src/utils/optimizer.ts:27-30 | a value is found exactly when the identifier is present |
| ElectronTypes.IndexOf | electron-app/src/utils/optimizer.ts:29 | the position found holds the identifier, and none is found exactly when it is absent |
| ElectronTypes.Put | electron-app/src/utils/optimizer.ts:29 | an assignment keeps an existing key's place and appends a new one; other entries are unchanged |
| ElectronTypes.PutLookup | electron-app/src/utils/optimizer.ts:29 | after an assignment the identifiers stay distinct, reading back gives the value written, and other identifiers read as before |
| ElectronCalculations.RoundHalfUp | electron-app/src/utils/calculations.ts:12 | the result is the nearest integer, with halves rounded up |
| ElectronCalculations.RoundHalfUpMonotone | electron-app/src/utils/calculations.ts:12 | rounding never reverses the order of two values |
| ElectronCalculations.WPSAEnergy | electron-app/src/utils/calculations.ts:3-13 | the estimate is round(3395.61 − 6.65·CP), in [2731, 3396] for CP in [0, 100] |
| ElectronCalculations.WPSAEnergyAntitone | electron-app/src/utils/calculations.ts:3-13 | more crude protein never raises the estimate |
| ElectronCalculations.Find | electron-app/src/utils/calculations.ts:28 | the first ingredient with the identifier, absent exactly when none has it |
| ElectronCalculations.FindDistinct | electron-app/src/utils/calculations.ts:28 | with distinct identifiers the ingredient found is the one carrying the identifier |
| ElectronCalculations.CalculateFormulaNutrients | electron-app/src/utils/calculations.ts:15-37 | the totals are the left fold of the entries' weighted analyses onto zero; an empty formula gives all zeros |
| ElectronCalculations.CalculateCost | electron-app/src/utils/calculations.ts:39-53 | the cost is the left fold of price·pct/100 over the known entries; an empty formula costs 0 |
| ElectronCalculations.UnknownNutrientsIgnored | electron-app/src/utils/calculations.ts:28-29 | unknown identifiers do not change the totals |
| ElectronCalculations.UnknownCostIgnored | electron-app/src/utils/calculations.ts:46-47 | unknown identifiers do not change the cost |
| ElectronCalculations.Additive | electron-app/src/utils/calculations.ts:27-50 | the totals and the cost of two formulas enumerated in turn are the sums of their totals and costs |
| ElectronCalculations.SingleEntry | electron-app/src/utils/calculations.ts:27-50 | a one-entry formula gives its ingredient's analysis and price weighted by pct/100, or nothing for an unknown identifier |
| ElectronCalculations.CostNonNegative | electron-app/src/utils/calculations.ts:39-53 | non-negative prices and percentages give a non-negative cost |
| ElectronResults.Assess | electron-app/src/utils/optimizer.ts:82-91 | high exactly above 105% of a maximum; low exactly under 95% of a minimum and not high; ok exactly inside both tolerances |
| ElectronResults.SatisfiedIsOk | electron-app/src/utils/optimizer.ts:84-91 | with non-negative bounds, a value meeting the constraint exactly is ok |
| ElectronResults.ToleranceAcceptsShortfall | electron-app/src/utils/optimizer.ts:84 | 19.5% protein against a 20% minimum is ok although not met |
| ElectronResults.AssessNutrients | electron-app/src/utils/optimizer.ts:77-99 | one result per constraint in order, and feasible exactly when every status is ok |
| ElectronResults.Label | electron-app/src/utils/optimizer.ts:104-108 | the percentage is kept; the name is the identifier or a matching ingredient's name |
| ElectronResults.ListedContents | electron-app/src/utils/optimizer.ts:102-110 | exactly the labels of the entries above 0.01 are listed |
| ElectronResults.InsertByPercentage | electron-app/src/utils/optimizer.ts:111 | inserting into a non-increasing list keeps it non-increasing and adds exactly that entry |
| ElectronResults.SortByPercentage | electron-app/src/utils/optimizer.ts:111 | the same entries in non-increasing order of percentage |
| ElectronResults.IngredientResultsShape | electron-app/src/utils/optimizer.ts:102-111 | the report lists the entries above 0.01, each as often as it occurs, in non-increasing order |
| ElectronResults.DecimalString | electron-app/src/utils/optimizer.ts:119 | the count is rendered as digits without a leading zero |
| ElectronResults.DecimalRoundTrip | electron-app/src/utils/optimizer.ts:119 | reading the rendered count back gives the count |
| ElectronResults.Conclude | electron-app/src/utils/optimizer.ts:113-121 | the status is feasible exactly when the flag is set, with the found message naming the count; otherwise the approximation message |
| ElectronOptimizer.ViolationZeroIffSatisfied | electron-app/src/utils/optimizer.ts:37-43 | a constraint's squared miss is ≥ 0 and is 0 exactly when both present bounds hold |
| ElectronOptimizer.PenaltyZeroIffSatisfied | electron-app/src/utils/optimizer.ts:35-44 | the penalty is ≥ 0 and is 0 exactly when every constraint holds |
| ElectronOptimizer.TotalPenalty | electron-app/src/utils/optimizer.ts:35-44 | the accumulated penalty is the specification penalty |
| ElectronOptimizer.MixOfDistinct | electron-app/src/utils/optimizer.ts:27-30 | with distinct identifiers the formula object pairs each identifier with its percentage, in order |
| ElectronOptimizer.BuildCurrentMix | electron-app/src/utils/optimizer.ts:27-30 | the loop builds the specified formula object |
| ElectronOptimizer.ClampedShare | electron-app/src/utils/optimizer.ts:55-57 | the new percentage is at least the minimum, at most the maximum when the bounds are ordered, and the minimum when they cross |
| ElectronOptimizer.InitialSumsTo100 | electron-app/src/utils/optimizer.ts:23 | the equal starting shares sum to 100 |
| ElectronOptimizer.SumRescaled | electron-app/src/utils/optimizer.ts:62 | rescaling divides the sum by the old sum and multiplies it by 100 |
| ElectronOptimizer.StepSumsTo100 | electron-app/src/utils/optimizer.ts:54-62 | every step that does not divide by zero leaves percentages summing to 100 |
| ElectronOptimizer.RescaleMayLeaveBounds | electron-app/src/utils/optimizer.ts:61-62 | two ingredients capped at 10% come out at 50% each |
| ElectronOptimizer.IterateSumsTo100 | electron-app/src/utils/optimizer.ts:25-63 | after any number of live iterations the percentages sum to 100 |
| ElectronOptimizer.IterateStep | electron-app/src/utils/optimizer.ts:25-63 | an iteration from live percentages is one step, and a not-a-number state stays not-a-number |
| ElectronOptimizer.Rescale | electron-app/src/utils/optimizer.ts:61-62 | the new array holds every percentage divided by the sum and multiplied by 100 |
| ElectronOptimizer.ApplyGradient | electron-app/src/utils/optimizer.ts:47-58 | the array holds the clamped step of its old contents |
| ElectronOptimizer.SumOf | electron-app/src/utils/optimizer.ts:61 | the reduce gives the sum |
| ElectronOptimizer.DescentStep | electron-app/src/utils/optimizer.ts:26-62 | one pass of the loop body is one specified step, or the poisoning of the percentages when the sum is 0 |
| ElectronOptimizer.Iteration | electron-app/src/utils/optimizer.ts:25-63 | one turn of the loop: live percentages take one specified step, and not-a-number ones stay so |
| ElectronOptimizer.EqualShares | electron-app/src/utils/optimizer.ts:23 | a fresh array holding the equal starting shares |
| ElectronOptimizer.Descend | electron-app/src/utils/optimizer.ts:19-63 | the loop leaves the percentages of the specified iterations, for the count it is given (1000 in the optimiser) |
| ElectronOptimizer.Round2 | electron-app/src/utils/optimizer.ts:69 | rounding to two places moves a value by at most 0.005 and keeps a value above 0.01 at ≥ 0.01 |
| ElectronOptimizer.KeptEntries | electron-app/src/utils/optimizer.ts:66-71 | the final formula has distinct identifiers, and every entry is a kept ingredient's rounded percentage, at least 0.01 |
| ElectronOptimizer.PennyEntryUnlisted | electron-app/src/utils/optimizer.ts:68-110 | a 0.012% entry enters the formula as 0.01 but is not listed |
| ElectronOptimizer.BuildFinalMix | electron-app/src/utils/optimizer.ts:66-71 | the loop builds the specified final formula |
| ElectronOptimizer.OptimizeFormulation | electron-app/src/utils/optimizer.ts:4-122 | an empty selection gives the exact infeasible answer; otherwise the cost, one assessed result per constraint, the feasibility verdict, the sorted listed ingredients (all above 0.01) and the message follow from the final formula |

## Left out

- User interface: every SwiftUI/AppKit view and style, and the desktop web components and theme.
- Saved diets, the report exports (Excel, PDF, MRP CSV file writing), save panels, timestamps and report identifiers: these are file I/O and drawing. `buildCSVReport` is left out except for `csvRow`/`csvEscaped`.
- `runWhatIfScenario`, `generateMRPOrders`, `applyWorkbookPricePreset`, `enableMicronutrients` and `resetProject` are not part of this model. They depend on the ingredient library, the price presets and the scenario scheduling, which are not shown. The scenario fields are modelled only as far as `markDirty`/`requestCalculation` reset them.
- The per-bird economics (`feedCostPerBirdInPeriod`, `grossMarginPerBirdInPeriod`, `pricePerMcal`, the ratio read-outs) and the count properties built on the lists above are display arithmetic with no stated contract.
- `NutrientKey.title` and `short`: display strings.
- The dispatch queue and the delay of `scheduleRationSolve`: `RunScheduled` stands for the work item, and its effect is modelled through the generation check.
- `Double.random`: restarts after the first take their starting shares from a `draw` parameter.
- The ingredient library, `workbookCoreKeyMap` and the price presets are not part of this model. The library is a constructor parameter, the key map a parameter of `SetWorkbookNutrientValue`, and UUIDs are natural numbers supplied by the caller.
- Floating point: all numbers are reals. Rounding error, NaN and Infinity are not modelled, except the desktop optimiser's division by a zero sum. That case is modelled as a poisoned state that lists nothing, which matches the source when the clamped percentages all become 0.
- ElectronOptimizer.Descend: once the percentages are poisoned, the remaining iterations are skipped rather than run on NaN values; their result would be NaN either way.
- The desktop ingredient's `group` field and the strain-preset data files: the optimiser never reads them.
- Object keys that look like integers enumerate first in JavaScript. The model keeps insertion order, which is right for the non-numeric identifiers the data uses.
- The inner per-key `forEach` of `calculateFormulaNutrients` is collapsed into one key-by-key addition (`ElectronTypes.Add`/`Scale`), and its initialisation loop into `Zero`.
- `String(format:)` number rendering and the localized name sort: they depend on the platform formatter and collation. `selectedIngredients` keeps library order, so only the order of ingredient findings and the tie order of purchase lines differ.
- ElectronResults.SortByPercentage: the order among equal percentages is not stated. The source's sort is stable; the model's insertion sort also keeps input order, but no lemma says so.
- Unicode case folding and whitespace: `lowercased()`, `localizedCaseInsensitiveContains` and `trimmingCharacters(in: .whitespacesAndNewlines)` are modelled for ASCII letters and ASCII whitespace only.
- BoundedSimplex.ProjectToBoundedSimplex: convergence of the 90 bisection steps to the 1e-10 residual is not stated. The contract bounds the final difference by 1e-9 + n·1e-12, which follows from the bracket invariant and the residual passes.
- BoundedSimplex.ProjectedSpec: the total of the projection is not stated on the function; `ProjectToBoundedSimplex`, which computes it, states the 1e-9 + n·1e-12 bound, and `RebalancedFromStart` states it for the residual passes.
- RationSolver.Solve: the heuristic search is not claimed to find the cheapest mix; the contract states the replacement rules and the assembly of the winner.
