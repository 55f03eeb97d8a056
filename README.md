# Adaptive step-size policy of the Hipparchus field integrators

This project models the step-size policy of `AdaptiveStepsizeFieldIntegrator`, the
abstract base class of Hipparchus' adaptive embedded Runge-Kutta integrators over a
field, and proves properties of that model in Dafny. The class holds:

- the step bounds `minStep` and `maxStep`, stored as magnitudes;
- scalar or vector absolute and relative tolerances;
- an optional user-supplied initial step.

It offers five things. The model covers each of them:

- **Configuration.** Two `setStepSizeControl` overloads and `setInitialStepSize` set
  the bounds, the tolerances and the user's initial step.
- **Dimension check.** `sanityChecks` records the primary state dimension and rejects
  vector tolerances of a different length.
- **Initial step.** `initializeStep` either returns the user's step, signed for the
  direction, or estimates a step. The estimate takes a rough guess from the scaled
  norms of the state and its derivative, makes one explicit Euler probe and one
  evaluation of the equations, forms a second guess from the estimated second
  derivative, then floors the step, clamps it into the bounds and signs it.
- **Step filter.** `filterStep` replaces or rejects a step shorter than `minStep` and
  clamps every step to `[-maxStep, maxStep]`.
- **Reset.** `resetInternalState` clears the step start and seeds the step size with
  `sqrt(minStep * maxStep)`.

How the model is built:

- **Numbers.** Dafny `real` stands for both `double` and the field elements. For a
  real number, `norm()` is the absolute value and `getReal()` is the identity.
- **`FastMath`.** `FastMath.sqrt` and `FastMath.pow` are a pair of functions held by
  the integrator (`OdeTypes.FastMath`). Only their sign facts are known:
  - the square root of a non-negative number is non-negative;
  - the square root of a positive number is positive;
  - a positive number raised to any power is positive.
- **`computeDerivatives`.** This superclass method is modelled as
  `ComputeDerivatives`, which evaluates the equations once and counts the evaluation
  against the evaluation budget. Once the budget is spent it fails with
  `MaxCountExceeded` and counts nothing.
- **The class.** The integrator is a Dafny class with the Java fields. Each setter
  changes only the fields it names in its `modifies` clause. `Valid()` is the
  invariant the setters keep:
  - both bounds are non-negative;
  - the user's step is either unset (-1) or lies within the bounds.
- **Loops.** The loops of `initializeStep` are methods proved against the
  specification functions of module `InitialStepEstimate`:
  - the two scaled square sums;
  - the Euler probe filling a fresh array;
  - the second-derivative sum.

  The estimating path as a whole is proved equal to the function
  `InitialStepEstimate.EstimatedStep`, applied to the derivative returned by the one
  evaluation at the probe.
- **The sign quirk.** The code divides the second-derivative scale by the signed probe
  step (`AdaptiveStepsizeFieldIntegrator.java:298`), and the model keeps that. For a
  backward integration this value is therefore never positive, so `maxInv2` is
  `sqrt(yDotOnScale2)` alone. `BackwardEstimateIgnoresSecondDerivative` proves this.
- **Inclusive bounds.** `setInitialStepSize` accepts a value equal to either bound.
  Its documentation (`AdaptiveStepsizeFieldIntegrator.java:212-215`) says only that a
  value outside the min/max interval is ignored. The code
  (`AdaptiveStepsizeFieldIntegrator.java:218`) rejects only values strictly below
  `minStep` or strictly above `maxStep`. The model follows the code.

`scenarios.dfy` holds caller-side scenarios whose assertions the verifier proves:

- bounds given with a negative sign;
- a user step used without any evaluation;
- an estimate that costs one evaluation;
- a spent evaluation budget;
- the filter's replacements and clamps;
- vector tolerances copied from the caller's arrays and checked against the primary
  dimension.

## Model

| member | source | states |
|---|---|---|
| AdaptiveStepsize.AdaptiveStepsizeFieldIntegrator.WithScalarTolerances | hipparchus-ode/src/main/java/org/hipparchus/ode/nonstiff/AdaptiveStepsizeFieldIntegrator.java:113-122 | the new integrator holds the absolute bounds and the scalar tolerances; it has no vector tolerances and no user step; the step start is cleared and the step size is `sqrt(abs(minStep) * abs(maxStep))` |
| AdaptiveStepsize.AdaptiveStepsizeFieldIntegrator.WithVectorTolerances | hipparchus-ode/src/main/java/org/hipparchus/ode/nonstiff/AdaptiveStepsizeFieldIntegrator.java:137-146 | the new integrator holds the absolute bounds and copies of both tolerance arrays; its scalar tolerances are zero and it has no user step; the step start is cleared and the step size is `sqrt(abs(minStep) * abs(maxStep))` |
| AdaptiveStepsize.AdaptiveStepsizeFieldIntegrator.SetStepSizeControl | hipparchus-ode/src/main/java/org/hipparchus/ode/nonstiff/AdaptiveStepsizeFieldIntegrator.java:162-175 | `minStep = abs(minimalStep)` and `maxStep = abs(maximalStep)`; the user step is reset to -1; the scalar tolerances are stored and both vector tolerances become absent; no other field changes |
| AdaptiveStepsize.AdaptiveStepsizeFieldIntegrator.SetStepSizeControlVector | hipparchus-ode/src/main/java/org/hipparchus/ode/nonstiff/AdaptiveStepsizeFieldIntegrator.java:191-204 | `minStep = abs(minimalStep)` and `maxStep = abs(maximalStep)`; the user step is reset to -1; both scalar tolerances become zero; the vector tolerances are value copies of the arrays' contents, so later writes to the arrays are not seen |
| AdaptiveStepsize.AdaptiveStepsizeFieldIntegrator.SetInitialStepSize | hipparchus-ode/src/main/java/org/hipparchus/ode/nonstiff/AdaptiveStepsizeFieldIntegrator.java:217-223 | the user step becomes `v` exactly when `minStep <= v <= maxStep` (both bounds inclusive), and -1 otherwise; never fails; bounds and tolerances are unchanged |
| AdaptiveStepsize.AdaptiveStepsizeFieldIntegrator.SanityChecks | hipparchus-ode/src/main/java/org/hipparchus/ode/nonstiff/AdaptiveStepsizeFieldIntegrator.java:232-243 | `mainSetDimension` becomes the primary state dimension, even when the check fails; the check passes exactly when each present vector tolerance has that length; the result is the dimension check's outcome |
| AdaptiveStepsize.DimensionCheck | hipparchus-ode/src/main/java/org/hipparchus/ode/nonstiff/AdaptiveStepsizeFieldIntegrator.java:234-243 | passes exactly when each present tolerance has length `n`; otherwise it reports `DIMENSIONS_MISMATCH(n, length)`, for the absolute tolerance first and then the relative one |
| AdaptiveStepsize.ScalarTolerancesAlwaysFit | hipparchus-ode/src/main/java/org/hipparchus/ode/nonstiff/AdaptiveStepsizeFieldIntegrator.java:234-242 | without vector tolerances (scalar mode) the dimension check passes for every dimension |
| AdaptiveStepsize.AdaptiveStepsizeFieldIntegrator.ComputeDerivatives | hipparchus-ode/src/main/java/org/hipparchus/ode/nonstiff/AdaptiveStepsizeFieldIntegrator.java:290 | within budget it returns the equations' derivative, of the state's length, and counts one evaluation; when the budget is spent it fails with `MaxCountExceeded` and counts none |
| AdaptiveStepsize.AdaptiveStepsizeFieldIntegrator.InitializeStep | hipparchus-ode/src/main/java/org/hipparchus/ode/nonstiff/AdaptiveStepsizeFieldIntegrator.java:256-321 | a positive user step is returned, signed, with no evaluation (0 and -1 count as unset); otherwise the result is the estimate at the probe derivative with exactly one evaluation, or the budget error with none; a returned step lies within the bounds when `minStep <= maxStep`; it is non-zero and positive exactly when `forward`, when `maxStep > 0` |
| AdaptiveStepsize.AdaptiveStepsizeFieldIntegrator.EstimateStep | hipparchus-ode/src/main/java/org/hipparchus/ode/nonstiff/AdaptiveStepsizeFieldIntegrator.java:266-319 | the estimating path: with budget left, one evaluation and the value of the specification of the estimate; without budget, the budget error and no evaluation; the bounds and the sign as for `InitializeStep` |
| AdaptiveStepsize.AdaptiveStepsizeFieldIntegrator.ProbeStep | hipparchus-ode/src/main/java/org/hipparchus/ode/nonstiff/AdaptiveStepsizeFieldIntegrator.java:266-290 | returns the specified rough guess and the scaled square norm of `y'0`; the derivative is the equations' value at the Euler probe, reached with exactly one evaluation, or the budget error with none |
| AdaptiveStepsize.ScaledSquareSums | hipparchus-ode/src/main/java/org/hipparchus/ode/nonstiff/AdaptiveStepsizeFieldIntegrator.java:270-277 | the loop's two accumulators equal `sum over j < length(scale) of (y0[j]/scale[j])^2` and the same for `y'0` |
| AdaptiveStepsize.EulerStep | hipparchus-ode/src/main/java/org/hipparchus/ode/nonstiff/AdaptiveStepsizeFieldIntegrator.java:286-289 | fills a fresh array whose components are `y0[j] + y'0[j] * h` |
| AdaptiveStepsize.RefineStep | hipparchus-ode/src/main/java/org/hipparchus/ode/nonstiff/AdaptiveStepsizeFieldIntegrator.java:292-313 | the second-derivative loop, the second guess, the floor and the clamp compute exactly the specification `RefinedMagnitude` |
| InitialStepEstimate.ScaledSquareSum | hipparchus-ode/src/main/java/org/hipparchus/ode/nonstiff/AdaptiveStepsizeFieldIntegrator.java:270-277 | a squared scaled norm over the first `n` components is never negative |
| InitialStepEstimate.ScaledDifferenceSquareSum | hipparchus-ode/src/main/java/org/hipparchus/ode/nonstiff/AdaptiveStepsizeFieldIntegrator.java:293-297 | the squared scaled norm of `y'1 - y'0` is never negative |
| InitialStepEstimate.ScaledSquareSumPrefix | hipparchus-ode/src/main/java/org/hipparchus/ode/nonstiff/AdaptiveStepsizeFieldIntegrator.java:272-277 | the sum depends only on the components under the scaling vector |
| InitialStepEstimate.RoughGuess | hipparchus-ode/src/main/java/org/hipparchus/ode/nonstiff/AdaptiveStepsizeFieldIntegrator.java:279-283 | the guess is ±1e-6, signed by `forward`, whenever either squared norm is below 1e-10 (it does not depend on the order); the guess is always non-zero and positive exactly when `forward` |
| InitialStepEstimate.FirstGuess | hipparchus-ode/src/main/java/org/hipparchus/ode/nonstiff/AdaptiveStepsizeFieldIntegrator.java:266-283 | the rough guess from a start state is non-zero and positive exactly when `forward` |
| InitialStepEstimate.FirstGuessIgnoresUnscaledComponents | hipparchus-ode/src/main/java/org/hipparchus/ode/nonstiff/AdaptiveStepsizeFieldIntegrator.java:272-283 | two start states that agree on the components under `scale`, in state and derivative, give the same rough guess |
| InitialStepEstimate.SecondDerivativeScale | hipparchus-ode/src/main/java/org/hipparchus/ode/nonstiff/AdaptiveStepsizeFieldIntegrator.java:293-298 | the scaled second derivative, divided by the signed `h`, is non-negative for a forward probe and non-positive for a backward one |
| InitialStepEstimate.MaxInverseScale | hipparchus-ode/src/main/java/org/hipparchus/ode/nonstiff/AdaptiveStepsizeFieldIntegrator.java:302 | `maxInv2` is never negative when the squared norm is not; when the second-derivative scale is not positive (as on a backward probe) it is `sqrt(yDotOnScale2)` itself |
| InitialStepEstimate.SecondGuess | hipparchus-ode/src/main/java/org/hipparchus/ode/nonstiff/AdaptiveStepsizeFieldIntegrator.java:303-305 | `h1 = max(1e-6, 0.001 * abs(h))` whenever `maxInv2 < 1e-15`; `h1` is always positive |
| InitialStepEstimate.Unclamped | hipparchus-ode/src/main/java/org/hipparchus/ode/nonstiff/AdaptiveStepsizeFieldIntegrator.java:306-307 | before clamping, the step is at least `1e-12 * abs(t0)` and at least `min(100 abs(h), h1)`, and equals one of the two |
| InitialStepEstimate.ClampToBounds | hipparchus-ode/src/main/java/org/hipparchus/ode/nonstiff/AdaptiveStepsizeFieldIntegrator.java:308-313 | with consistent bounds the result lies within them; a value already inside is kept; the result is the value or one of the bounds; a positive value stays positive when `maxStep > 0` |
| InitialStepEstimate.RefinedMagnitude | hipparchus-ode/src/main/java/org/hipparchus/ode/nonstiff/AdaptiveStepsizeFieldIntegrator.java:292-313 | the unsigned estimate lies within consistent bounds, and is positive when `maxStep > 0` |
| InitialStepEstimate.EstimatedStepWithinBounds | hipparchus-ode/src/main/java/org/hipparchus/ode/nonstiff/AdaptiveStepsizeFieldIntegrator.java:306-319 | given `0 <= minStep <= maxStep`, the estimate satisfies `minStep <= abs(h) <= maxStep` |
| InitialStepEstimate.EstimatedStepDirection | hipparchus-ode/src/main/java/org/hipparchus/ode/nonstiff/AdaptiveStepsizeFieldIntegrator.java:306-319 | the estimate points in the direction of integration; when `maxStep > 0` it is non-zero and positive exactly when `forward` |
| InitialStepEstimate.BackwardEstimateIgnoresSecondDerivative | hipparchus-ode/src/main/java/org/hipparchus/ode/nonstiff/AdaptiveStepsizeFieldIntegrator.java:298-302 | for a backward estimate, dividing by the signed probe step makes `maxInv2 = sqrt(yDotOnScale2)` whatever the probe derivative |
| AdaptiveStepsize.AdaptiveStepsizeFieldIntegrator.FilterStep | hipparchus-ode/src/main/java/org/hipparchus/ode/nonstiff/AdaptiveStepsizeFieldIntegrator.java:332-353 | fails with `MINIMAL_STEPSIZE_REACHED(abs(h), minStep)` exactly when `abs(h) < minStep` and small steps are not accepted; an accepted small step becomes `±minStep`, signed by `forward` and not by `h`, then clamped; any other step is clamped to `[-maxStep, maxStep]`; a step with `minStep <= abs(h) <= maxStep` is returned unchanged; the result never exceeds `maxStep` in magnitude and, with consistent bounds, is at least `minStep`; no field changes |
| AdaptiveStepsize.AdaptiveStepsizeFieldIntegrator.FilterStepIdempotent | hipparchus-ode/src/main/java/org/hipparchus/ode/nonstiff/AdaptiveStepsizeFieldIntegrator.java:335-351 | with `minStep <= maxStep`, filtering an already filtered step gives the same result |
| AdaptiveStepsize.AdaptiveStepsizeFieldIntegrator.ResetInternalState | hipparchus-ode/src/main/java/org/hipparchus/ode/nonstiff/AdaptiveStepsizeFieldIntegrator.java:356-359 | the step start is cleared and the step size becomes `sqrt(minStep * maxStep)`, which is non-negative |
| AdaptiveStepsize.AdaptiveStepsizeFieldIntegrator.GetMinStep | hipparchus-ode/src/main/java/org/hipparchus/ode/nonstiff/AdaptiveStepsizeFieldIntegrator.java:364-366 | returns `minStep`, which is never negative |
| AdaptiveStepsize.AdaptiveStepsizeFieldIntegrator.GetMaxStep | hipparchus-ode/src/main/java/org/hipparchus/ode/nonstiff/AdaptiveStepsizeFieldIntegrator.java:371-373 | returns `maxStep`, which is never negative |

## Left out

- The numeric values of `FastMath.sqrt` and `FastMath.pow`, and all IEEE 754 behaviour: rounding, overflow, NaN, infinities and signed zero. Only the sign facts of `OdeTypes.FastMath.Valid` are assumed.
- AdaptiveStepsize.AdaptiveStepsizeFieldIntegrator.InitializeStep: requires every scaling component to be non-zero (`NonZero`). In Java a zero component divides by zero and yields an infinity or NaN, which is not modelled.
- AdaptiveStepsize.AdaptiveStepsizeFieldIntegrator.InitializeStep: requires `order != 0`. In Java `1.0 / order` would then be infinite.
- AdaptiveStepsize.AdaptiveStepsizeFieldIntegrator.InitializeStep: requires the scaling vector to be no longer than the complete state. In Java a longer one throws `ArrayIndexOutOfBoundsException`.
- AdaptiveStepsize.AdaptiveStepsizeFieldIntegrator.InitializeStep: requires the start state to be well formed, block by block (`WellFormed`). The Java loops need only the complete derivative to be at least as long as the complete state; the equations mapper always builds matching blocks.
- AdaptiveStepsize.AdaptiveStepsizeFieldIntegrator.InitializeStep: the user's mapper argument is not modelled. It is not used by the code shown; the state's complete state and derivative stand in for it.
- The superclass `AbstractFieldIntegrator` is not part of this model. `super.sanityChecks` is left out. `computeDerivatives` is reduced to one evaluation against a budget, and `setStepStart`/`setStepSize` to two fields.
- The equations are a pure, dimension-preserving function. Their own exceptions and the mapping of secondary equations are not modelled, and the secondary blocks are appended into one sequence.
- Null array arguments to the vector `setStepSizeControl` (a `NullPointerException` in Java) cannot occur in the model, because Dafny arrays are never null.
- Exception message formatting and localisation; each exception is an `OdeTypes.Error` value carrying its arguments.
- The field-element algebra beyond its real projection: field elements are reals.
- The estimating path is split into `EstimateStep`, `ProbeStep` and `RefineStep`, and the scaled-sum and Euler loops are separate methods. The split keeps each proof small. The statements and their order are those of `initializeStep`.
