/** Time scaling of path-parameterised swerve-module commands.
 *
 *  A kinematic model produces, for one module, the derivatives of the steering
 *  angle `beta` and the wheel speed `phi` with respect to an abstract path
 *  parameter `s`.  A `TimeScaler` computes admissible intervals for `ds/dt` and
 *  `d2s/dt2` that keep the actuators inside their limits, selects one value of
 *  each, and turns the `s`-derivatives into time derivatives by the chain rule.
 *  All quantities are exact reals.
 */
module TimeScaling {

  /** Absolute tolerance under which a command is treated as zero and its
      constraint is ignored. */
  const Tolerance: real := 0.01

  /** A position in a two-element limit list. */
  type Index = i: nat | i < 2

  /** A `[min, max]` limit list: `At(0)` is its first entry, `At(1)` its second.
      Nothing requires `lo <= hi`; no proof below depends on it. */
  datatype Bounds = Bounds(lo: real, hi: real) {
    function At(i: Index): real {
      if i == 0 then lo else hi
    }
  }

  /** Inclusive membership of `value` in the limit list `rng`. */
  predicate InRange(value: real, rng: Bounds) {
    rng.At(0) <= value <= rng.At(1)
  }

  /** `math.isclose(x, 0, abs_tol=Tolerance)`: with a zero reference value the
      relative tolerance never decides, so this is `|x| <= Tolerance`. */
  predicate NearZero(x: real) {
    -Tolerance <= x <= Tolerance
  }

  function Max(a: real, b: real): real {
    if b > a then b else a
  }

  function Min(a: real, b: real): real {
    if b < a then b else a
  }

  /** Admissible intervals `[dsLower, dsUpper]` for `ds/dt` and
      `[d2sLower, d2sUpper]` for `d2s/dt2`.  Either may be empty (crossed). */
  datatype ScalingBounds = ScalingBounds(dsLower: real, dsUpper: real, d2sLower: real, d2sUpper: real)

  /** The starting point of every tightening, and the fast-path answer. */
  const Identity: ScalingBounds := ScalingBounds(0.0, 1.0, 0.0, 1.0)

  /** Both intervals are non-empty: what selection assumes of its arguments. */
  predicate Feasible(r: ScalingBounds) {
    r.dsLower <= r.dsUpper && r.d2sLower <= r.d2sUpper
  }

  /** The `(lower, upper)` positions into a limit list when the constraint is
      divided by `x`: swapped for a negative divisor, which reverses the
      inequalities. */
  function SignIndices(x: real): (Index, Index) {
    if x < 0.0 then (1, 0) else (0, 1)
  }

  /** One first-order constraint `b[0] <= x * sDot <= b[1]`, divided through by
      `x`, intersected into the `ds` interval. */
  function RateStep(r: ScalingBounds, b: Bounds, x: real): (t: ScalingBounds)
    requires x != 0.0
    ensures r.dsLower <= t.dsLower && t.dsUpper <= r.dsUpper
    ensures t.d2sLower == r.d2sLower && t.d2sUpper == r.d2sUpper
  {
    var (lower, upper) := SignIndices(x);
    r.(dsLower := Max(r.dsLower, b.At(lower) / x),
       dsUpper := Min(r.dsUpper, b.At(upper) / x))
  }

  /** The part of the module acceleration due to the path's own second
      derivative: `d2 * sDot^2`. */
  function QuadraticTerm(d2: real, sDot: real): real {
    d2 * (sDot * sDot)
  }

  /** The second-order constraint `b[0] <= d2 * sDot^2 + x * s2Dot <= b[1]` at
      the working point `sDot = r.dsUpper`, divided through by `x`, intersected
      into the `d2s` interval. */
  function AccelStep(r: ScalingBounds, b: Bounds, x: real, d2: real): (t: ScalingBounds)
    requires x != 0.0
    ensures r.d2sLower <= t.d2sLower && t.d2sUpper <= r.d2sUpper
    ensures t.dsLower == r.dsLower && t.dsUpper == r.dsUpper
  {
    var sDot := r.dsUpper;
    var (lower, upper) := SignIndices(x);
    r.(d2sLower := Max(r.d2sLower, (b.At(lower) - QuadraticTerm(d2, sDot)) / x),
       d2sUpper := Min(r.d2sUpper, (b.At(upper) - QuadraticTerm(d2, sDot)) / x))
  }

  /** The selected `ds/dt` and `d2s/dt2`. */
  datatype ScalingParameters = ScalingParameters(sDot: real, s2Dot: real)

  /** Selection policy: the largest admissible value of each interval. */
  function Select(r: ScalingBounds): (p: ScalingParameters)
    requires Feasible(r)
    ensures r.dsLower <= p.sDot <= r.dsUpper && r.d2sLower <= p.s2Dot <= r.d2sUpper
    ensures p.sDot == r.dsUpper && p.s2Dot == r.d2sUpper
  {
    ScalingParameters(r.dsUpper, r.d2sUpper)
  }

  /** Time derivatives of the actuator motion. */
  datatype ScaledCommand = ScaledCommand(betaDot: real, beta2Dot: real, phi2Dot: real)

  /** The chain rule for `s = s(t)`: `dbeta/dt = dbeta/ds * sDot`,
      `d2beta/dt2 = d2beta/ds2 * sDot^2 + dbeta/ds * s2Dot`, and the wheel term
      scaled to first order only. */
  function ChainRule(dbeta: real, d2beta: real, dphiDot: real, p: ScalingParameters): ScaledCommand {
    ScaledCommand(dbeta * p.sDot, QuadraticTerm(d2beta, p.sDot) + dbeta * p.s2Dot, dphiDot * p.sDot)
  }

  /** One scaler per module: three fixed limit lists, and the scaling
      parameters that selection writes and motion scaling reads. */
  class TimeScaler {
    const betaDotB: Bounds
    const beta2DotB: Bounds
    const phi2DotB: Bounds
    var sDot: real
    var s2Dot: real
    /** The parameters have been selected at least once (before that the
        fields do not exist in the original and reading them fails). */
    ghost var selected: bool

    constructor(betaDotBounds: Bounds, beta2DotBounds: Bounds, phi2DotBounds: Bounds)
      ensures betaDotB == betaDotBounds && beta2DotB == beta2DotBounds && phi2DotB == phi2DotBounds
      ensures !selected
    {
      betaDotB := betaDotBounds;
      beta2DotB := beta2DotBounds;
      phi2DotB := phi2DotBounds;
      selected := false;
    }

    /** The current scaling parameters. */
    function Parameters(): ScalingParameters
      reads this
    {
      ScalingParameters(sDot, s2Dot)
    }

    /** Every command already lies within its limit list: no scaling needed. */
    predicate FastPath(dbeta: real, d2beta: real, dphiDot: real) {
      InRange(dbeta, betaDotB) && InRange(d2beta, beta2DotB) && InRange(dphiDot, phi2DotB)
    }

    /** Admissible scaling intervals for one command sample.  Constraints
        whose governing command is near zero are skipped, so no division is by
        a value of magnitude `Tolerance` or less. */
    function ComputeScalingBounds(dbeta: real, d2beta: real, dphiDot: real): (r: ScalingBounds)
      ensures FastPath(dbeta, d2beta, dphiDot) ==> r == Identity
      ensures NearZero(dbeta) && NearZero(dphiDot) ==> r == Identity
      ensures NearZero(dbeta) ==> r.d2sLower == 0.0 && r.d2sUpper == 1.0
      ensures 0.0 <= r.dsLower && r.dsUpper <= 1.0 && 0.0 <= r.d2sLower && r.d2sUpper <= 1.0
    {
      if FastPath(dbeta, d2beta, dphiDot) then
        Identity
      else
        var ignoreBeta := NearZero(dbeta);
        var ignorePhi := NearZero(dphiDot);
        var afterBeta := if ignoreBeta then Identity else RateStep(Identity, beta2DotB, dbeta);
        var afterPhi := if ignorePhi then afterBeta else RateStep(afterBeta, phi2DotB, dphiDot);
        if ignoreBeta then afterPhi else AccelStep(afterPhi, beta2DotB, dbeta, d2beta)
    }

    /** Stores the upper end of each interval as the scaling parameters.  The
        intervals are assumed non-empty. */
    method ComputeScalingParameters(dsLower: real, dsUpper: real, d2sLower: real, d2sUpper: real)
      requires dsLower <= dsUpper && d2sLower <= d2sUpper
      modifies this
      ensures selected
      ensures dsLower <= sDot <= dsUpper && d2sLower <= s2Dot <= d2sUpper
      ensures Parameters() == Select(ScalingBounds(dsLower, dsUpper, d2sLower, d2sUpper))
    {
      sDot := dsUpper;
      s2Dot := d2sUpper;
      selected := true;
    }

    /** Time derivatives of the commands under the stored parameters; the
        object is left unchanged. */
    method ScaleMotion(dbeta: real, d2beta: real, dphiDot: real) returns (c: ScaledCommand)
      requires selected
      ensures c == ChainRule(dbeta, d2beta, dphiDot, Parameters())
    {
      var betaDot := dbeta * sDot;
      var beta2Dot := d2beta * (sDot * sDot) + dbeta * s2Dot;
      var phi2Dot := dphiDot * sDot;
      c := ScaledCommand(betaDot, beta2Dot, phi2Dot);
    }
  }

  /** One control tick: bounds, selection, scaling, on the example limits
      `[-1, 1]`, `[-2, 2]`, `[-3, 3]`. */
  method ScalingProtocolExample() {
    var t := new TimeScaler(Bounds(-1.0, 1.0), Bounds(-2.0, 2.0), Bounds(-3.0, 3.0));
    var r := t.ComputeScalingBounds(4.0, 0.0, 0.0);
    assert r == ScalingBounds(0.0, 0.5, 0.0, 0.5);
    t.ComputeScalingParameters(r.dsLower, r.dsUpper, r.d2sLower, r.d2sUpper);
    var c := t.ScaleMotion(4.0, 0.0, 0.0);
    assert c == ScaledCommand(2.0, 2.0, 0.0);

    t.ComputeScalingParameters(0.0, 2.0, 0.0, 0.5);
    c := t.ScaleMotion(3.0, 1.0, 4.0);
    assert c == ScaledCommand(6.0, 5.5, 8.0);
  }
}
