/**
 * The collaborators of the adaptive step-size integrator that live outside it:
 * the ODE states it is handed, the errors it raises or passes through, and the
 * `FastMath` functions whose exact values are not modelled.
 */
module OdeTypes {

  /** Magnitude of a field element (`norm()`, and `FastMath.abs` on doubles). */
  function Abs(x: real): (r: real)
    ensures r >= 0.0 && (r == x || r == -x)
  {
    if x < 0.0 then -x else x
  }

  function Max(a: real, b: real): (r: real)
    ensures r >= a && r >= b && (r == a || r == b)
  {
    if a >= b then a else b
  }

  function Min(a: real, b: real): (r: real)
    ensures r <= a && r <= b && (r == a || r == b)
  {
    if a <= b then a else b
  }

  /**
   * The square root and power functions of `FastMath`. Their values are left
   * open: an integrator is given some pair of functions, of which only the
   * sign facts in `Valid()` are known.
   */
  datatype FastMath = FastMath(sqrt: real -> real, pow: (real, real) -> real)
  {
    ghost predicate Valid()
    {
      (forall x: real :: x >= 0.0 ==> sqrt(x) >= 0.0) &&
      (forall x: real :: x > 0.0 ==> sqrt(x) > 0.0) &&
      (forall x: real, y: real :: x > 0.0 ==> pow(x, y) > 0.0)
    }
  }

  /**
   * A state of the ODE. The primary block is the part under step-size control;
   * the secondary equations (all blocks appended one after the other) are not.
   */
  datatype FieldODEState = FieldODEState(time: real, primaryState: seq<real>, secondaryState: seq<real>)
  {
    function PrimaryStateDimension(): nat
    {
      |primaryState|
    }

    function CompleteState(): (y: seq<real>)
      ensures |y| == |primaryState| + |secondaryState|
    {
      primaryState + secondaryState
    }
  }

  /** A state together with its time derivative. */
  datatype FieldODEStateAndDerivative = FieldODEStateAndDerivative(
    time: real,
    primaryState: seq<real>, primaryDerivative: seq<real>,
    secondaryState: seq<real>, secondaryDerivative: seq<real>)
  {
    /** The derivative of each block has the block's dimension. */
    predicate WellFormed()
    {
      |primaryDerivative| == |primaryState| && |secondaryDerivative| == |secondaryState|
    }

    /** The state part alone (Java's `FieldODEStateAndDerivative` extends `FieldODEState`). */
    function AsState(): FieldODEState
    {
      FieldODEState(time, primaryState, secondaryState)
    }

    function CompleteState(): (y: seq<real>)
      ensures |y| == |primaryState| + |secondaryState|
    {
      AsState().CompleteState()
    }

    function CompleteDerivative(): (yDot: seq<real>)
      ensures |yDot| == |primaryDerivative| + |secondaryDerivative|
    {
      primaryDerivative + secondaryDerivative
    }
  }

  /** The right-hand side `y' = f(t, y)` of the complete set of equations. */
  type Equations = (real, seq<real>) -> seq<real>

  /** The equations mapper always returns a derivative of the state's own dimension. */
  ghost predicate PreservesDimension(f: Equations)
  {
    forall t: real, y: seq<real> :: |f(t, y)| == |y|
  }

  /** The errors raised by the integrator or passed through from its superclass. */
  datatype Error =
    | DimensionsMismatch(expected: int, found: int)
    | MinimalStepsizeReachedDuringIntegration(step: real, minStep: real)
    | MaxCountExceeded(maxEvaluations: nat)
}
