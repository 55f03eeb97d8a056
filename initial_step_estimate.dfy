/**
 * The value computed by `initializeStep` when no usable initial step was given:
 * a rough guess from the scaled norms of the state and its derivative, one
 * explicit Euler probe, a second guess from the estimated second derivative, and
 * finally a floor, a clamp into the step bounds and the sign of the direction.
 * Every function here is what one stage of the method computes; the method
 * itself is `AdaptiveStepsizeFieldIntegrator.InitializeStep`.
 */
module InitialStepEstimate {
  import opened OdeTypes

  /** Below this, a squared scaled norm is treated as zero by the rough guess. */
  const TinySquaredNorm: real := 1.0e-10
  /** The rough guess used when the state or its derivative is negligible. */
  const FallbackGuess: real := 1.0e-6
  /** Below this, the inverse time scale is treated as zero by the second guess. */
  const TinyInverseScale: real := 1.0e-15
  /** The step is never below this fraction of the start time, to avoid cancellation in t1 - t0. */
  const RelativeTimeFloor: real := 1.0e-12

  /** Every component of the scaling vector may be divided by. */
  predicate NonZero(scale: seq<real>)
  {
    forall j :: 0 <= j < |scale| ==> scale[j] != 0.0
  }

  function Square(x: real): (r: real)
    ensures r >= 0.0
  {
    x * x
  }

  /** The sum of `(v[j] / scale[j])^2` over the first `n` components. */
  function ScaledSquareSum(v: seq<real>, scale: seq<real>, n: nat): (s: real)
    requires n <= |v| && n <= |scale| && NonZero(scale)
    ensures s >= 0.0
  {
    if n == 0 then 0.0 else ScaledSquareSum(v, scale, n - 1) + Square(v[n - 1] / scale[n - 1])
  }

  /** The sum of `((a[j] - b[j]) / scale[j])^2` over the first `n` components. */
  function ScaledDifferenceSquareSum(a: seq<real>, b: seq<real>, scale: seq<real>, n: nat): (s: real)
    requires n <= |a| && n <= |b| && n <= |scale| && NonZero(scale)
    ensures s >= 0.0
  {
    if n == 0 then 0.0
    else ScaledDifferenceSquareSum(a, b, scale, n - 1) + Square((a[n - 1] - b[n - 1]) / scale[n - 1])
  }

  /** The sums only look at the components under the scaling vector. */
  lemma {:induction false} ScaledSquareSumPrefix(v: seq<real>, w: seq<real>, scale: seq<real>, n: nat)
    requires n <= |v| && n <= |w| && n <= |scale| && NonZero(scale)
    requires v[..n] == w[..n]
    ensures ScaledSquareSum(v, scale, n) == ScaledSquareSum(w, scale, n)
  {
    if n > 0 {
      assert v[n - 1] == v[..n][n - 1] == w[..n][n - 1] == w[n - 1];
      assert v[..n - 1] == v[..n][..n - 1] == w[..n][..n - 1] == w[..n - 1];
      ScaledSquareSumPrefix(v, w, scale, n - 1);
    }
  }

  /**
   * The rough guess `0.01 * ||y/scale|| / ||y'/scale||`, or the fixed fallback
   * when either squared norm is negligible, signed for the direction.
   */
  function RoughGuess(yOnScale2: real, yDotOnScale2: real, forward: bool, m: FastMath): (h: real)
    ensures yOnScale2 < TinySquaredNorm || yDotOnScale2 < TinySquaredNorm ==>
              h == (if forward then FallbackGuess else -FallbackGuess)
    ensures m.Valid() ==> (h > 0.0 <==> forward) && h != 0.0
  {
    var magnitude :=
      if yOnScale2 < TinySquaredNorm || yDotOnScale2 < TinySquaredNorm then FallbackGuess
      else 0.01 * m.sqrt(yOnScale2 / yDotOnScale2);
    if forward then magnitude else -magnitude
  }

  /** The rough guess computed from a start state, over the components under `scale`. */
  function FirstGuess(forward: bool, scale: seq<real>, state0: FieldODEStateAndDerivative, m: FastMath): (h: real)
    requires state0.WellFormed() && NonZero(scale) && |scale| <= |state0.CompleteState()|
    ensures m.Valid() ==> (h > 0.0 <==> forward) && h != 0.0
  {
    RoughGuess(ScaledSquareSum(state0.CompleteState(), scale, |scale|),
               ScaledSquareSum(state0.CompleteDerivative(), scale, |scale|), forward, m)
  }

  /** The rough guess is decided by the scaled components alone. */
  lemma FirstGuessIgnoresUnscaledComponents(forward: bool, scale: seq<real>,
                                            s: FieldODEStateAndDerivative, t: FieldODEStateAndDerivative, m: FastMath)
    requires s.WellFormed() && t.WellFormed() && NonZero(scale)
    requires |scale| <= |s.CompleteState()| && |scale| <= |t.CompleteState()|
    requires s.CompleteState()[..|scale|] == t.CompleteState()[..|scale|]
    requires s.CompleteDerivative()[..|scale|] == t.CompleteDerivative()[..|scale|]
    ensures FirstGuess(forward, scale, s, m) == FirstGuess(forward, scale, t, m)
  {
    ScaledSquareSumPrefix(s.CompleteState(), t.CompleteState(), scale, |scale|);
    ScaledSquareSumPrefix(s.CompleteDerivative(), t.CompleteDerivative(), scale, |scale|);
  }

  /** The state reached by one explicit Euler step `y0 + h * y'0`. */
  function EulerProbe(y0: seq<real>, yDot0: seq<real>, h: real): (y1: seq<real>)
    requires |yDot0| == |y0|
    ensures |y1| == |y0|
    ensures forall j :: 0 <= j < |y0| ==> y1[j] == y0[j] + yDot0[j] * h
  {
    seq(|y0|, j requires 0 <= j < |y0| => y0[j] + yDot0[j] * h)
  }

  /** The derivative of the equations `f` at the end of the Euler probe taken with the rough guess. */
  function ProbeDerivative(f: Equations, forward: bool, scale: seq<real>, state0: FieldODEStateAndDerivative,
                           m: FastMath): seq<real>
    requires state0.WellFormed() && NonZero(scale) && |scale| <= |state0.CompleteState()|
  {
    var h := FirstGuess(forward, scale, state0, m);
    f(state0.time + h, EulerProbe(state0.CompleteState(), state0.CompleteDerivative(), h))
  }

  /**
   * The scaled second derivative `||(y'1 - y'0)/scale|| / h`. The division is by
   * the signed probe step, so the value is never positive for a backward probe.
   */
  function SecondDerivativeScale(yDot0: seq<real>, yDot1: seq<real>, scale: seq<real>, h: real, m: FastMath): (d: real)
    requires h != 0.0 && |scale| <= |yDot0| && |scale| <= |yDot1| && NonZero(scale)
    ensures m.Valid() && h > 0.0 ==> d >= 0.0
    ensures m.Valid() && h < 0.0 ==> d <= 0.0
  {
    var s := ScaledDifferenceSquareSum(yDot1, yDot0, scale, |scale|);
    assert m.Valid() ==> m.sqrt(s) >= 0.0;
    m.sqrt(s) / h
  }

  /**
   * The largest inverse time scale, `max(||y'/scale||, yDDotOnScale)`. It is never
   * negative, and a non-positive second-derivative scale (a backward probe)
   * leaves the first-derivative norm alone in charge.
   */
  function MaxInverseScale(yDotOnScale2: real, yDDotOnScale: real, m: FastMath): (r: real)
    ensures r >= m.sqrt(yDotOnScale2) && r >= yDDotOnScale
    ensures r == m.sqrt(yDotOnScale2) || r == yDDotOnScale
    ensures m.Valid() && yDotOnScale2 >= 0.0 ==> r >= 0.0
    ensures m.Valid() && yDotOnScale2 >= 0.0 && yDDotOnScale <= 0.0 ==> r == m.sqrt(yDotOnScale2)
  {
    Max(m.sqrt(yDotOnScale2), yDDotOnScale)
  }

  /**
   * The second guess, chosen so that `h^order * maxInv2 == 0.01`, or a fallback
   * derived from the rough guess when `maxInv2` is negligible.
   */
  function SecondGuess(maxInv2: real, h: real, order: int, m: FastMath): (h1: real)
    requires order != 0
    ensures maxInv2 < TinyInverseScale ==> h1 == Max(FallbackGuess, 0.001 * Abs(h))
    ensures m.Valid() ==> h1 > 0.0
  {
    if maxInv2 < TinyInverseScale then Max(FallbackGuess, 0.001 * Abs(h))
    else m.pow(0.01 / maxInv2, 1.0 / (order as real))
  }

  /** At most a hundred times the rough guess, and never below the cancellation floor. */
  function Unclamped(h: real, h1: real, t0: real): (u: real)
    ensures u >= RelativeTimeFloor * Abs(t0)
    ensures u >= Min(100.0 * Abs(h), h1)
    ensures u == Min(100.0 * Abs(h), h1) || u == RelativeTimeFloor * Abs(t0)
  {
    Max(Min(100.0 * Abs(h), h1), RelativeTimeFloor * Abs(t0))
  }

  /** Raise to `minStep`, then lower to `maxStep`, in that order. */
  function ClampToBounds(h: real, minStep: real, maxStep: real): (c: real)
    ensures minStep <= maxStep ==> minStep <= c <= maxStep
    ensures minStep <= h <= maxStep ==> c == h
    ensures c == h || c == minStep || c == maxStep
    ensures h > 0.0 && maxStep > 0.0 && minStep >= 0.0 ==> c > 0.0
  {
    var raised := if h < minStep then minStep else h;
    if raised > maxStep then maxStep else raised
  }

  /**
   * The unsigned step obtained from the rough guess `h` and the derivative
   * `yDot1` at the Euler probe: the smaller of `100 |h|` and the second guess,
   * floored against cancellation, then clamped into the bounds.
   */
  function RefinedMagnitude(h: real, yDotOnScale2: real, yDot0: seq<real>, yDot1: seq<real>, scale: seq<real>,
                            order: int, t0: real, minStep: real, maxStep: real, m: FastMath): (c: real)
    requires h != 0.0 && order != 0 && NonZero(scale) && |scale| <= |yDot0| && |scale| <= |yDot1|
    ensures minStep <= maxStep ==> minStep <= c <= maxStep
    ensures m.Valid() && minStep >= 0.0 && maxStep > 0.0 ==> c > 0.0
  {
    var maxInv2 := MaxInverseScale(yDotOnScale2, SecondDerivativeScale(yDot0, yDot1, scale, h, m), m);
    var h1 := SecondGuess(maxInv2, h, order, m);
    assert m.Valid() ==> Min(100.0 * Abs(h), h1) > 0.0;
    ClampToBounds(Unclamped(h, h1, t0), minStep, maxStep)
  }

  /** The whole estimate, given the derivative `yDot1` obtained at the Euler probe. */
  function EstimatedStep(forward: bool, order: int, scale: seq<real>, state0: FieldODEStateAndDerivative,
                         yDot1: seq<real>, minStep: real, maxStep: real, m: FastMath): real
    requires order != 0 && m.Valid() && state0.WellFormed() && NonZero(scale)
    requires |scale| <= |state0.CompleteState()| && |yDot1| == |state0.CompleteState()|
  {
    var yDot0 := state0.CompleteDerivative();
    var magnitude := RefinedMagnitude(FirstGuess(forward, scale, state0, m), ScaledSquareSum(yDot0, scale, |scale|),
                                      yDot0, yDot1, scale, order, state0.time, minStep, maxStep, m);
    if forward then magnitude else -magnitude
  }

  /** The derivative at the probe, given the rough guess and the probe state. */
  lemma ProbeDerivativeAt(f: Equations, forward: bool, scale: seq<real>, state0: FieldODEStateAndDerivative,
                          m: FastMath, h: real, y1: seq<real>)
    requires state0.WellFormed() && NonZero(scale) && |scale| <= |state0.CompleteState()|
    requires h == FirstGuess(forward, scale, state0, m)
    requires y1 == EulerProbe(state0.CompleteState(), state0.CompleteDerivative(), h)
    ensures f(state0.time + h, y1) == ProbeDerivative(f, forward, scale, state0, m)
  {
  }

  /** The estimate, given the values of its stages. */
  lemma EstimatedStepFrom(forward: bool, order: int, scale: seq<real>, state0: FieldODEStateAndDerivative,
                          yDot1: seq<real>, minStep: real, maxStep: real, m: FastMath,
                          h: real, yDotOnScale2: real, magnitude: real)
    requires order != 0 && m.Valid() && state0.WellFormed() && NonZero(scale)
    requires |scale| <= |state0.CompleteState()| && |yDot1| == |state0.CompleteState()|
    requires h == FirstGuess(forward, scale, state0, m)
    requires yDotOnScale2 == ScaledSquareSum(state0.CompleteDerivative(), scale, |scale|)
    requires magnitude == RefinedMagnitude(h, yDotOnScale2, state0.CompleteDerivative(), yDot1, scale, order,
                                           state0.time, minStep, maxStep, m)
    ensures EstimatedStep(forward, order, scale, state0, yDot1, minStep, maxStep, m)
            == if forward then magnitude else -magnitude
  {
  }

  /** With consistent bounds the estimate's magnitude lies within them. */
  lemma EstimatedStepWithinBounds(forward: bool, order: int, scale: seq<real>, state0: FieldODEStateAndDerivative,
                                  yDot1: seq<real>, minStep: real, maxStep: real, m: FastMath)
    requires order != 0 && m.Valid() && state0.WellFormed() && NonZero(scale)
    requires |scale| <= |state0.CompleteState()| && |yDot1| == |state0.CompleteState()|
    requires 0.0 <= minStep <= maxStep
    ensures minStep <= Abs(EstimatedStep(forward, order, scale, state0, yDot1, minStep, maxStep, m)) <= maxStep
  {
  }

  /** The estimate points in the integration direction, and is non-zero when `maxStep` is. */
  lemma EstimatedStepDirection(forward: bool, order: int, scale: seq<real>, state0: FieldODEStateAndDerivative,
                               yDot1: seq<real>, minStep: real, maxStep: real, m: FastMath)
    requires order != 0 && m.Valid() && state0.WellFormed() && NonZero(scale)
    requires |scale| <= |state0.CompleteState()| && |yDot1| == |state0.CompleteState()|
    requires minStep >= 0.0 && maxStep >= 0.0
    ensures var h := EstimatedStep(forward, order, scale, state0, yDot1, minStep, maxStep, m);
            (forward ==> h >= 0.0) && (!forward ==> h <= 0.0) &&
            (maxStep > 0.0 ==> h != 0.0 && (h > 0.0 <==> forward))
  {
  }

  /**
   * Because the second-derivative scale is divided by the signed probe step, a
   * backward estimate never uses it: `maxInv2` is then `||y'/scale||` alone.
   */
  lemma BackwardEstimateIgnoresSecondDerivative(scale: seq<real>, state0: FieldODEStateAndDerivative,
                                                yDot1: seq<real>, m: FastMath)
    requires m.Valid() && state0.WellFormed() && NonZero(scale)
    requires |scale| <= |state0.CompleteState()| && |yDot1| == |state0.CompleteState()|
    ensures var yDot0 := state0.CompleteDerivative();
            var yDotOnScale2 := ScaledSquareSum(yDot0, scale, |scale|);
            var h := FirstGuess(false, scale, state0, m);
            MaxInverseScale(yDotOnScale2, SecondDerivativeScale(yDot0, yDot1, scale, h, m), m) == m.sqrt(yDotOnScale2)
  {
  }
}
