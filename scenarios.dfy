/**
 * Concrete uses of the integrator's step-size policy, as a caller would make
 * them: each assertion is a fact about one configuration, checked against the
 * contracts of `AdaptiveStepsize` alone.
 */
module Scenarios {
  import opened Wrappers
  import opened OdeTypes
  import opened AdaptiveStepsize

  /** Bounds lose their sign; a user step inside them is used as is, with no evaluation. */
  method UserInitialStep(equations: Equations, math: FastMath)
    requires math.Valid() && PreservesDimension(equations)
  {
    var integrator := new AdaptiveStepsizeFieldIntegrator.WithScalarTolerances(
      equations, 10, math, -5.0, -10.0, 1.0e-6, 1.0e-6);
    assert integrator.GetMinStep() == 5.0 && integrator.GetMaxStep() == 10.0;

    integrator.SetInitialStepSize(7.0);
    var state0 := FieldODEStateAndDerivative(0.0, [1.0, 2.0], [3.0, 4.0], [], []);
    var forwardStep := integrator.InitializeStep(true, 4, [1.0, 1.0], state0);
    var backwardStep := integrator.InitializeStep(false, 4, [1.0, 1.0], state0);
    assert forwardStep == Success(7.0) && backwardStep == Success(-7.0);
    assert integrator.evaluations == 0;

    // both bounds are inclusive; anything else means "estimate it"
    integrator.SetInitialStepSize(10.0);
    assert integrator.initialStep == 10.0;
    integrator.SetInitialStepSize(10.5);
    assert integrator.initialStep == -1.0;

    // a new step-size control forgets the user's step
    integrator.SetInitialStepSize(6.0);
    integrator.SetStepSizeControl(1.0, 20.0, 1.0e-8, 1.0e-8);
    assert integrator.initialStep == -1.0;
  }

  /** Without a user step, the estimate costs one evaluation and respects the bounds. */
  method EstimatedInitialStep(equations: Equations, math: FastMath)
    requires math.Valid() && PreservesDimension(equations)
  {
    var integrator := new AdaptiveStepsizeFieldIntegrator.WithScalarTolerances(
      equations, 10, math, 0.5, 2.0, 1.0e-6, 1.0e-6);
    var state0 := FieldODEStateAndDerivative(1.0, [1.0], [0.5], [3.0], [0.0]);
    var h := integrator.InitializeStep(false, 5, [1.0], state0);
    assert integrator.evaluations == 1;
    assert h.Success? && -2.0 <= h.value <= -0.5;
  }

  /** When the evaluation budget is spent, the estimate fails and nothing is counted. */
  method EstimateWithoutBudget(equations: Equations, math: FastMath)
    requires math.Valid() && PreservesDimension(equations)
  {
    var integrator := new AdaptiveStepsizeFieldIntegrator.WithScalarTolerances(
      equations, 0, math, 0.5, 2.0, 1.0e-6, 1.0e-6);
    var state0 := FieldODEStateAndDerivative(0.0, [1.0], [1.0], [], []);
    var h := integrator.InitializeStep(true, 5, [1.0], state0);
    assert h == Failure(MaxCountExceeded(0)) && integrator.evaluations == 0;
  }

  /** Small steps are replaced by the signed minimum or rejected; large ones are clamped. */
  method FilteredSteps(equations: Equations, math: FastMath)
    requires math.Valid() && PreservesDimension(equations)
  {
    var integrator := new AdaptiveStepsizeFieldIntegrator.WithScalarTolerances(
      equations, 10, math, 1.0, 10.0, 1.0e-6, 1.0e-6);
    assert integrator.FilterStep(0.5, true, true) == Success(1.0);
    assert integrator.FilterStep(0.5, false, true) == Success(-1.0);   // the sign comes from the direction
    assert integrator.FilterStep(-0.5, false, true) == Success(-1.0);
    assert integrator.FilterStep(50.0, true, true) == Success(10.0);
    assert integrator.FilterStep(-50.0, false, false) == Success(-10.0);
    assert integrator.FilterStep(-3.0, true, false) == Success(-3.0);
    assert integrator.FilterStep(0.5, true, false) == Failure(MinimalStepsizeReachedDuringIntegration(0.5, 1.0));
  }

  /** Vector tolerances are copied and checked against the primary dimension only. */
  method VectorTolerances(equations: Equations, math: FastMath)
    requires math.Valid() && PreservesDimension(equations)
  {
    var absolute := new real[3];
    absolute[0], absolute[1], absolute[2] := 1.0e-6, 1.0e-6, 1.0e-6;
    var relative := new real[3];
    relative[0], relative[1], relative[2] := 1.0e-4, 1.0e-4, 1.0e-4;
    assert absolute[..] == [1.0e-6, 1.0e-6, 1.0e-6];
    var integrator := new AdaptiveStepsizeFieldIntegrator.WithVectorTolerances(
      equations, 10, math, 1.0, 10.0, absolute, relative);
    assert integrator.scalAbsoluteTolerance == 0.0;

    // later changes to the caller's array are not seen by the integrator
    absolute[0] := 5.0;
    assert integrator.vecAbsoluteTolerance == Some([1.0e-6, 1.0e-6, 1.0e-6]);

    var fits := integrator.SanityChecks(FieldODEState(0.0, [1.0, 2.0, 3.0], [4.0]));
    assert fits == Pass && integrator.mainSetDimension == 3;
    var mismatch := integrator.SanityChecks(FieldODEState(0.0, [1.0, 2.0, 3.0, 4.0], []));
    assert mismatch == Fail(DimensionsMismatch(4, 3)) && integrator.mainSetDimension == 4;

    // back to scalar tolerances: the check can no longer fail
    integrator.SetStepSizeControl(1.0, 10.0, 1.0e-6, 1.0e-6);
    var scalar := integrator.SanityChecks(FieldODEState(0.0, [1.0, 2.0, 3.0, 4.0], []));
    assert scalar == Pass;
  }
}
