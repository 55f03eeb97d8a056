/**
 * The step-size policy shared by the adaptive integrators: step bounds, scalar or
 * vector tolerances checked against the state dimension, the initial step
 * (given by the user or estimated) and the filter applied to every proposed step.
 */
module AdaptiveStepsize {
  import opened Wrappers
  import opened OdeTypes
  import opened InitialStepEstimate

  /** A vector tolerance is acceptable for `n` components when it is absent or has length `n`. */
  predicate ToleranceFits(tolerance: Option<seq<real>>, n: int)
  {
    tolerance.None? || |tolerance.value| == n
  }

  /** The dimension check on the vector tolerances: the absolute one is checked first. */
  function DimensionCheck(absolute: Option<seq<real>>, relative: Option<seq<real>>, n: int): (r: Outcome<Error>)
    ensures r.Pass? <==> ToleranceFits(absolute, n) && ToleranceFits(relative, n)
    ensures !ToleranceFits(absolute, n) ==> r == Fail(DimensionsMismatch(n, |absolute.value|))
    ensures ToleranceFits(absolute, n) && !ToleranceFits(relative, n) ==>
              r == Fail(DimensionsMismatch(n, |relative.value|))
  {
    if absolute.Some? && |absolute.value| != n then Fail(DimensionsMismatch(n, |absolute.value|))
    else if relative.Some? && |relative.value| != n then Fail(DimensionsMismatch(n, |relative.value|))
    else Pass
  }

  /** Scalar tolerances (no vectors) pass the dimension check for every state. */
  lemma ScalarTolerancesAlwaysFit(n: int)
    ensures DimensionCheck(None, None, n) == Pass
  {
  }

  /** The two squared scaled norms of the rough guess, accumulated component by component. */
  method ScaledSquareSums(y0: seq<real>, yDot0: seq<real>, scale: seq<real>) returns (yOnScale2: real, yDotOnScale2: real)
    requires |scale| <= |y0| && |scale| <= |yDot0| && NonZero(scale)
    ensures yOnScale2 == ScaledSquareSum(y0, scale, |scale|)
    ensures yDotOnScale2 == ScaledSquareSum(yDot0, scale, |scale|)
  {
    yOnScale2, yDotOnScale2 := 0.0, 0.0;
    for j := 0 to |scale|
      invariant yOnScale2 == ScaledSquareSum(y0, scale, j)
      invariant yDotOnScale2 == ScaledSquareSum(yDot0, scale, j)
    {
      var ratio := y0[j] / scale[j];
      yOnScale2 := yOnScale2 + ratio * ratio;
      var ratioDot := yDot0[j] / scale[j];
      yDotOnScale2 := yDotOnScale2 + ratioDot * ratioDot;
    }
  }

  /**
   * The second half of the initial step estimate: the scaled second derivative
   * from the change in derivative over the Euler probe (divided by the signed
   * probe step `h`), the second guess, the floor and the clamp. The result is
   * unsigned.
   */
  method RefineStep(h: real, yDotOnScale2: real, yDot0: seq<real>, yDot1: seq<real>, scale: seq<real>,
                    order: int, t0: real, minStep: real, maxStep: real, math: FastMath) returns (magnitude: real)
    requires h != 0.0 && order != 0 && NonZero(scale) && |scale| <= |yDot0| && |scale| <= |yDot1|
    ensures magnitude == RefinedMagnitude(h, yDotOnScale2, yDot0, yDot1, scale, order, t0, minStep, maxStep, math)
  {
    // second-derivative scale: change of the derivative over the probe, per unit of signed step
    var yDDotOnScale := 0.0;
    for j := 0 to |scale|
      invariant yDDotOnScale == ScaledDifferenceSquareSum(yDot1, yDot0, scale, j)
    {
      var ratioDotDot := (yDot1[j] - yDot0[j]) / scale[j];
      yDDotOnScale := yDDotOnScale + ratioDotDot * ratioDotDot;
    }
    yDDotOnScale := math.sqrt(yDDotOnScale) / h;

    // second guess: the step whose order-th power times the largest inverse time scale is 0.01
    var maxInv2 := Max(math.sqrt(yDotOnScale2), yDDotOnScale);
    var h1 := if maxInv2 < TinyInverseScale then Max(FallbackGuess, 0.001 * Abs(h))
              else math.pow(0.01 / maxInv2, 1.0 / (order as real));
    magnitude := Min(100.0 * Abs(h), h1);
    magnitude := Max(magnitude, RelativeTimeFloor * Abs(t0));  // floor relative to the start time
    if magnitude < minStep {
      magnitude := minStep;
    }
    if magnitude > maxStep {
      magnitude := maxStep;
    }
  }

  /** Fills a new array with the explicit Euler step `y0 + h * y'0`. */
  method EulerStep(y0: seq<real>, yDot0: seq<real>, h: real) returns (y1: array<real>)
    requires |yDot0| == |y0|
    ensures fresh(y1)
    ensures y1[..] == EulerProbe(y0, yDot0, h)
  {
    y1 := new real[|y0|];
    for j := 0 to |y0|
      invariant forall k :: 0 <= k < j ==> y1[k] == y0[k] + yDot0[k] * h
    {
      y1[j] := y0[j] + yDot0[j] * h;
    }
  }

  class AdaptiveStepsizeFieldIntegrator {

    /** Allowed absolute and relative scalar errors (zero while vector tolerances are used). */
    var scalAbsoluteTolerance: real
    var scalRelativeTolerance: real

    /** Allowed absolute and relative errors per component (absent while scalar tolerances are used). */
    var vecAbsoluteTolerance: Option<seq<real>>
    var vecRelativeTolerance: Option<seq<real>>

    /** Dimension of the primary state, set by the last sanity check. */
    var mainSetDimension: int

    /** The user's initial step; -1 (or any non-positive value) means "estimate it". */
    var initialStep: real

    /** Step bounds, stored as magnitudes. */
    var minStep: real
    var maxStep: real

    /** State kept by the surrounding integrator and reset here: the current step start and size. */
    var stepStart: Option<FieldODEStateAndDerivative>
    var stepSize: real

    /** The surrounding integrator's evaluation counter and its budget. */
    var evaluations: nat
    const maxEvaluations: nat

    /** The complete set of equations, and the `FastMath` functions used. */
    const equations: Equations
    const math: FastMath

    ghost predicate Valid()
      reads this
    {
      minStep >= 0.0 && maxStep >= 0.0 &&
      (initialStep == -1.0 || minStep <= initialStep <= maxStep) &&
      math.Valid() && PreservesDimension(equations)
    }

    /** An integrator with scalar tolerances (the first Java constructor). */
    constructor WithScalarTolerances(equations: Equations, maxEvaluations: nat, math: FastMath,
                                     minStep: real, maxStep: real,
                                     scalAbsoluteTolerance: real, scalRelativeTolerance: real)
      requires math.Valid() && PreservesDimension(equations)
      ensures Valid()
      ensures this.equations == equations && this.maxEvaluations == maxEvaluations && this.math == math
      ensures this.minStep == Abs(minStep) && this.maxStep == Abs(maxStep) && initialStep == -1.0
      ensures this.scalAbsoluteTolerance == scalAbsoluteTolerance
      ensures this.scalRelativeTolerance == scalRelativeTolerance
      ensures vecAbsoluteTolerance == None && vecRelativeTolerance == None
      ensures stepStart == None && stepSize == math.sqrt(Abs(minStep) * Abs(maxStep))
      ensures evaluations == 0 && mainSetDimension == 0
    {
      this.equations, this.maxEvaluations, this.math := equations, maxEvaluations, math;
      this.scalAbsoluteTolerance, this.scalRelativeTolerance := 0.0, 0.0;
      vecAbsoluteTolerance, vecRelativeTolerance := None, None;
      mainSetDimension, initialStep := 0, -1.0;
      this.minStep, this.maxStep := 0.0, 0.0;
      stepStart, stepSize, evaluations := None, 0.0, 0;
      new;
      SetStepSizeControl(minStep, maxStep, scalAbsoluteTolerance, scalRelativeTolerance);
      ResetInternalState();
      assert this.minStep * this.maxStep == Abs(minStep) * Abs(maxStep);
    }

    /** An integrator with vector tolerances (the second Java constructor). */
    constructor WithVectorTolerances(equations: Equations, maxEvaluations: nat, math: FastMath,
                                     minStep: real, maxStep: real,
                                     vecAbsoluteTolerance: array<real>, vecRelativeTolerance: array<real>)
      requires math.Valid() && PreservesDimension(equations)
      ensures Valid()
      ensures this.equations == equations && this.maxEvaluations == maxEvaluations && this.math == math
      ensures this.minStep == Abs(minStep) && this.maxStep == Abs(maxStep) && initialStep == -1.0
      ensures scalAbsoluteTolerance == 0.0 && scalRelativeTolerance == 0.0
      ensures this.vecAbsoluteTolerance == Some(vecAbsoluteTolerance[..])
      ensures this.vecRelativeTolerance == Some(vecRelativeTolerance[..])
      ensures stepStart == None && stepSize == math.sqrt(Abs(minStep) * Abs(maxStep))
      ensures evaluations == 0 && mainSetDimension == 0
    {
      this.equations, this.maxEvaluations, this.math := equations, maxEvaluations, math;
      scalAbsoluteTolerance, scalRelativeTolerance := 0.0, 0.0;
      this.vecAbsoluteTolerance, this.vecRelativeTolerance := None, None;
      mainSetDimension, initialStep := 0, -1.0;
      this.minStep, this.maxStep := 0.0, 0.0;
      stepStart, stepSize, evaluations := None, 0.0, 0;
      new;
      SetStepSizeControlVector(minStep, maxStep, vecAbsoluteTolerance, vecRelativeTolerance);
      ResetInternalState();
      assert this.minStep * this.maxStep == Abs(minStep) * Abs(maxStep);
    }

    /**
     * Sets the bounds and scalar tolerances. The bounds lose their sign, the
     * vector tolerances are dropped and the user's initial step is forgotten.
     */
    method SetStepSizeControl(minimalStep: real, maximalStep: real,
                              absoluteTolerance: real, relativeTolerance: real)
      requires Valid()
      modifies this`minStep, this`maxStep, this`initialStep,
               this`scalAbsoluteTolerance, this`scalRelativeTolerance,
               this`vecAbsoluteTolerance, this`vecRelativeTolerance
      ensures Valid()
      ensures minStep == Abs(minimalStep) && maxStep == Abs(maximalStep) && initialStep == -1.0
      ensures scalAbsoluteTolerance == absoluteTolerance && scalRelativeTolerance == relativeTolerance
      ensures vecAbsoluteTolerance == None && vecRelativeTolerance == None
    {
      minStep := Abs(minimalStep);
      maxStep := Abs(maximalStep);
      initialStep := -1.0;

      scalAbsoluteTolerance := absoluteTolerance;
      scalRelativeTolerance := relativeTolerance;
      vecAbsoluteTolerance := None;
      vecRelativeTolerance := None;
    }

    /**
     * Sets the bounds and vector tolerances. The integrator keeps copies of the
     * arrays' contents; the scalar tolerances become zero and the user's initial
     * step is forgotten.
     */
    method SetStepSizeControlVector(minimalStep: real, maximalStep: real,
                                    absoluteTolerance: array<real>, relativeTolerance: array<real>)
      requires Valid()
      modifies this`minStep, this`maxStep, this`initialStep,
               this`scalAbsoluteTolerance, this`scalRelativeTolerance,
               this`vecAbsoluteTolerance, this`vecRelativeTolerance
      ensures Valid()
      ensures minStep == Abs(minimalStep) && maxStep == Abs(maximalStep) && initialStep == -1.0
      ensures scalAbsoluteTolerance == 0.0 && scalRelativeTolerance == 0.0
      ensures vecAbsoluteTolerance == Some(absoluteTolerance[..])
      ensures vecRelativeTolerance == Some(relativeTolerance[..])
    {
      minStep := Abs(minimalStep);
      maxStep := Abs(maximalStep);
      initialStep := -1.0;

      scalAbsoluteTolerance := 0.0;
      scalRelativeTolerance := 0.0;
      vecAbsoluteTolerance := Some(absoluteTolerance[..]);
      vecRelativeTolerance := Some(relativeTolerance[..]);
    }

    /**
     * Sets the user's initial step when it lies within the bounds (both
     * inclusive); any other value silently reverts to "estimate it".
     */
    method SetInitialStepSize(initialStepSize: real)
      requires Valid()
      modifies this`initialStep
      ensures Valid()
      ensures initialStep == if minStep <= initialStepSize <= maxStep then initialStepSize else -1.0
    {
      if initialStepSize < minStep || initialStepSize > maxStep {
        initialStep := -1.0;
      } else {
        initialStep := initialStepSize;
      }
    }

    /**
     * Records the primary dimension of the initial state and checks the vector
     * tolerances against it. `mainSetDimension` is updated even when the check fails.
     */
    method SanityChecks(initialState: FieldODEState) returns (r: Outcome<Error>)
      requires Valid()
      modifies this`mainSetDimension
      ensures Valid()
      ensures mainSetDimension == initialState.PrimaryStateDimension()
      ensures r == DimensionCheck(vecAbsoluteTolerance, vecRelativeTolerance, mainSetDimension)
      ensures r.Pass? <==> ToleranceFits(vecAbsoluteTolerance, mainSetDimension) &&
                           ToleranceFits(vecRelativeTolerance, mainSetDimension)
    {
      mainSetDimension := initialState.PrimaryStateDimension();

      if vecAbsoluteTolerance.Some? && |vecAbsoluteTolerance.value| != mainSetDimension {
        return Fail(DimensionsMismatch(mainSetDimension, |vecAbsoluteTolerance.value|));
      }

      if vecRelativeTolerance.Some? && |vecRelativeTolerance.value| != mainSetDimension {
        return Fail(DimensionsMismatch(mainSetDimension, |vecRelativeTolerance.value|));
      }

      return Pass;
    }

    /**
     * One evaluation of the equations, counted against the evaluation budget;
     * once the budget is spent it fails without counting.
     */
    method ComputeDerivatives(t: real, y: seq<real>) returns (r: Result<seq<real>, Error>)
      requires Valid()
      modifies this`evaluations
      ensures Valid()
      ensures old(evaluations) < maxEvaluations ==>
                evaluations == old(evaluations) + 1 && r == Success(equations(t, y)) && |r.value| == |y|
      ensures old(evaluations) >= maxEvaluations ==>
                evaluations == old(evaluations) && r == Failure(MaxCountExceeded(maxEvaluations))
    {
      if evaluations >= maxEvaluations {
        return Failure(MaxCountExceeded(maxEvaluations));
      }
      evaluations := evaluations + 1;
      return Success(equations(t, y));
    }

    /**
     * The first step of an integration. A usable user step is returned with the
     * sign of the direction and costs no evaluation; otherwise the step is
     * estimated with exactly one evaluation of the equations, at the Euler probe.
     */
    method InitializeStep(forward: bool, order: int, scale: seq<real>, state0: FieldODEStateAndDerivative)
      returns (r: Result<real, Error>)
      requires Valid()
      requires order != 0
      requires state0.WellFormed() && NonZero(scale) && |scale| <= |state0.CompleteState()|
      modifies this`evaluations
      ensures Valid()
      ensures initialStep > 0.0 ==>
                r == Success(if forward then initialStep else -initialStep) && evaluations == old(evaluations)
      ensures initialStep <= 0.0 && old(evaluations) >= maxEvaluations ==>
                r == Failure(MaxCountExceeded(maxEvaluations)) && evaluations == old(evaluations)
      ensures initialStep <= 0.0 && old(evaluations) < maxEvaluations ==>
                r == Success(EstimatedStep(forward, order, scale, state0, ProbeDerivative(equations, forward, scale, state0, math),
                                           minStep, maxStep, math)) &&
                evaluations == old(evaluations) + 1
      ensures r.Success? && minStep <= maxStep ==> minStep <= Abs(r.value) <= maxStep
      ensures r.Success? && maxStep > 0.0 ==> r.value != 0.0 && (r.value > 0.0 <==> forward)
    {
      if initialStep > 0.0 {
        // a usable user step wins; only its sign is chosen here
        return Success(if forward then initialStep else -initialStep);
      }
      r := EstimateStep(forward, order, scale, state0);
    }

    /** The estimating path of `InitializeStep`. */
    method EstimateStep(forward: bool, order: int, scale: seq<real>, state0: FieldODEStateAndDerivative)
      returns (r: Result<real, Error>)
      requires Valid()
      requires order != 0
      requires state0.WellFormed() && NonZero(scale) && |scale| <= |state0.CompleteState()|
      modifies this`evaluations
      ensures Valid()
      ensures old(evaluations) >= maxEvaluations ==>
                r == Failure(MaxCountExceeded(maxEvaluations)) && evaluations == old(evaluations)
      ensures old(evaluations) < maxEvaluations ==>
                r == Success(EstimatedStep(forward, order, scale, state0, ProbeDerivative(equations, forward, scale, state0, math),
                                           minStep, maxStep, math)) &&
                evaluations == old(evaluations) + 1
      ensures r.Success? && minStep <= maxStep ==> minStep <= Abs(r.value) <= maxStep
      ensures r.Success? && maxStep > 0.0 ==> r.value != 0.0 && (r.value > 0.0 <==> forward)
    {
      var h, yDotOnScale2, derivative := ProbeStep(forward, scale, state0);
      if derivative.Failure? {
        return Failure(derivative.error);
      }
      var magnitude := RefineStep(h, yDotOnScale2, state0.CompleteDerivative(), derivative.value, scale, order, state0.time,
                                  GetMinStep(), GetMaxStep(), math);
      EstimatedStepFrom(forward, order, scale, state0, derivative.value, minStep, maxStep, math, h, yDotOnScale2, magnitude);
      return Success(if forward then magnitude else -magnitude);
    }

    /**
     * The probing half of the estimate: the rough first guess, one Euler step
     * along it and the derivative there, which is the one call of the equations
     * the estimate makes; it also hands on the scaled square norm of the
     * initial derivative.
     */
    method ProbeStep(forward: bool, scale: seq<real>, state0: FieldODEStateAndDerivative)
      returns (h: real, yDotOnScale2: real, derivative: Result<seq<real>, Error>)
      requires Valid()
      requires state0.WellFormed() && NonZero(scale) && |scale| <= |state0.CompleteState()|
      modifies this`evaluations
      ensures Valid()
      ensures h == FirstGuess(forward, scale, state0, math)
      ensures yDotOnScale2 == ScaledSquareSum(state0.CompleteDerivative(), scale, |scale|)
      ensures old(evaluations) >= maxEvaluations ==>
                derivative == Failure(MaxCountExceeded(maxEvaluations)) && evaluations == old(evaluations)
      ensures old(evaluations) < maxEvaluations ==>
                derivative == Success(ProbeDerivative(equations, forward, scale, state0, math)) &&
                evaluations == old(evaluations) + 1
    {
      // rough guess from the ratio of the two scaled norms
      var y0 := state0.CompleteState();
      var yDot0 := state0.CompleteDerivative();
      var yOnScale2;
      yOnScale2, yDotOnScale2 := ScaledSquareSums(y0, yDot0, scale);
      h := if yOnScale2 < TinySquaredNorm || yDotOnScale2 < TinySquaredNorm then FallbackGuess
           else 0.01 * math.sqrt(yOnScale2 / yDotOnScale2);
      if !forward {
        h := -h;
      }
      assert h == FirstGuess(forward, scale, state0, math);

      // probe the equations one explicit Euler step away
      var y1 := EulerStep(y0, yDot0, h);
      ProbeDerivativeAt(equations, forward, scale, state0, math, h, y1[..]);
      derivative := ComputeDerivatives(state0.time + h, y1[..]);
    }

    /**
     * Bounds a proposed step. A step shorter than `minStep` is replaced by
     * `minStep` with the sign of the direction (not of the step) when small
     * steps are accepted, and is an error otherwise; the result is then clamped
     * to `[-maxStep, maxStep]`.
     */
    function FilterStep(h: real, forward: bool, acceptSmall: bool): (r: Result<real, Error>)
      reads this
      requires Valid()
      ensures r.Failure? <==> Abs(h) < minStep && !acceptSmall
      ensures r.Failure? ==> r.error == MinimalStepsizeReachedDuringIntegration(Abs(h), minStep)
      ensures Abs(h) < minStep && acceptSmall ==>
                r == Success(if forward then Min(minStep, maxStep) else -Min(minStep, maxStep))
      ensures minStep <= Abs(h) ==>
                r == Success(if h >= 0.0 then Min(h, maxStep) else -Min(-h, maxStep))
      ensures minStep <= Abs(h) <= maxStep ==> r == Success(h)
      ensures r.Success? ==> Abs(r.value) <= maxStep
      ensures r.Success? && minStep <= maxStep ==> minStep <= Abs(r.value)
    {
      if Abs(h) - minStep < 0.0 && !acceptSmall then
        Failure(MinimalStepsizeReachedDuringIntegration(Abs(h), minStep))
      else
        var filteredH := if Abs(h) - minStep < 0.0 then (if forward then minStep else -minStep) else h;
        if filteredH - maxStep > 0.0 then Success(maxStep)
        else if filteredH + maxStep < 0.0 then Success(-maxStep)
        else Success(filteredH)
    }

    /** With consistent bounds, filtering an already filtered step changes nothing. */
    lemma FilterStepIdempotent(h: real, forward: bool, acceptSmall: bool)
      requires Valid() && minStep <= maxStep
      requires FilterStep(h, forward, acceptSmall).Success?
      ensures FilterStep(FilterStep(h, forward, acceptSmall).value, forward, acceptSmall)
              == FilterStep(h, forward, acceptSmall)
    {
    }

    /** Forgets the step start and seeds the step size with `sqrt(minStep * maxStep)`. */
    method ResetInternalState()
      requires Valid()
      modifies this`stepStart, this`stepSize
      ensures Valid()
      ensures stepStart == None && stepSize == math.sqrt(minStep * maxStep)
      ensures stepSize >= 0.0
    {
      var product := minStep * maxStep;
      stepStart := None;
      stepSize := math.sqrt(product);
      assert product == minStep * maxStep;
    }

    /** The minimal step, a magnitude. */
    function GetMinStep(): (r: real)
      reads this
      requires Valid()
      ensures r >= 0.0 && r == minStep
    {
      minStep
    }

    /** The maximal step, a magnitude. */
    function GetMaxStep(): (r: real)
      reads this
      requires Valid()
      ensures r >= 0.0 && r == maxStep
    {
      maxStep
    }
  }
}
