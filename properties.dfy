/** Properties of the time-scaling model: what each tightening step admits,
 *  what the computed intervals mean for the scaled actuator commands, the
 *  sign convention, degenerate commands, monotonicity, and the chain rule. */
module TimeScalingProperties {
  import opened TimeScaling

  /** The limit list reflected through zero: `x` is in `b` iff `-x` is in
      `Mirror(b)`. */
  function Mirror(b: Bounds): Bounds {
    Bounds(-b.hi, -b.lo)
  }

  /** `u` has every limit list at least as wide as `t`'s. */
  predicate Wider(u: TimeScaler, t: TimeScaler) {
    u.betaDotB.lo <= t.betaDotB.lo && t.betaDotB.hi <= u.betaDotB.hi &&
    u.beta2DotB.lo <= t.beta2DotB.lo && t.beta2DotB.hi <= u.beta2DotB.hi &&
    u.phi2DotB.lo <= t.phi2DotB.lo && t.phi2DotB.hi <= u.phi2DotB.hi
  }

  /** The module acceleration `d2 * sDot^2 + x * s2Dot` lies within `b`. */
  predicate AccelAdmits(b: Bounds, x: real, d2: real, sDot: real, s2: real) {
    InRange(QuadraticTerm(d2, sDot) + x * s2, b)
  }

  /** `sDot` lies in `[0, 1]` and keeps every non-ignored first-order
      constraint: `dbeta * sDot` within the module acceleration limits and
      `dphiDot * sDot` within the wheel acceleration limits. */
  predicate FirstOrderAdmits(t: TimeScaler, dbeta: real, dphiDot: real, s: real) {
    0.0 <= s <= 1.0 &&
    (!NearZero(dbeta) ==> InRange(dbeta * s, t.beta2DotB)) &&
    (!NearZero(dphiDot) ==> InRange(dphiDot * s, t.phi2DotB))
  }

  /** `s2Dot` lies in `[0, 1]` and, unless `dbeta` is ignored, keeps the module
      acceleration within its limits at the working point `sDot`. */
  predicate SecondOrderAdmits(t: TimeScaler, dbeta: real, d2beta: real, sDot: real, s2: real) {
    0.0 <= s2 <= 1.0 &&
    (!NearZero(dbeta) ==> AccelAdmits(t.beta2DotB, dbeta, d2beta, sDot, s2))
  }

  /** Dividing `lo <= x * s <= hi` by `x` keeps the inequalities for a
      positive `x` and swaps them for a negative one. */
  lemma DivisionBounds(a: real, x: real, s: real)
    requires x != 0.0
    ensures x > 0.0 ==> (a / x <= s <==> a <= x * s) && (s <= a / x <==> x * s <= a)
    ensures x < 0.0 ==> (a / x <= s <==> x * s <= a) && (s <= a / x <==> a <= x * s)
  {
    assert x * (a / x) == a;
    if x > 0.0 {
      assert a / x <= s ==> x * (a / x) <= x * s;
      assert s <= a / x ==> x * s <= x * (a / x);
      assert a <= x * s ==> a / x <= (x * s) / x;
      assert x * s <= a ==> (x * s) / x <= a / x;
    } else {
      assert a / x <= s ==> x * s <= x * (a / x);
      assert s <= a / x ==> x * (a / x) <= x * s;
      assert x * s <= a ==> a / x <= (x * s) / x;
      assert a <= x * s ==> (x * s) / x <= a / x;
    }
  }

  /** Negating the divisor negates the quotient. */
  lemma NegatedDivisor(a: real, x: real)
    requires x != 0.0
    ensures a / -x == -a / x
  {
    var q := a / x;
    assert x * q == a;
    assert -x * -q == a;
    assert (-x * -q) / -x == -q;
    assert -a / x == (x * -q) / x;
  }

  /** Intersecting `[lo0, hi0]` with the quotients `(b[i] - q) / x` at the
      sign-chosen positions admits exactly the `s` in `[lo0, hi0]` with
      `q + x * s` within `b`. */
  lemma TightenExact(lo0: real, hi0: real, b: Bounds, q: real, x: real, s: real)
    requires x != 0.0
    ensures var (lower, upper) := SignIndices(x);
      (Max(lo0, (b.At(lower) - q) / x) <= s <= Min(hi0, (b.At(upper) - q) / x)) <==>
      (lo0 <= s <= hi0 && InRange(q + x * s, b))
  {
    DivisionBounds(b.lo - q, x, s);
    DivisionBounds(b.hi - q, x, s);
  }

  /** A first-order step admits exactly the `sDot` that the old interval
      admitted and that keep `x * sDot` within `b`, whatever the sign of `x`. */
  lemma RateStepExact(r: ScalingBounds, b: Bounds, x: real, s: real)
    requires x != 0.0
    ensures var t := RateStep(r, b, x);
      (t.dsLower <= s <= t.dsUpper) <==> (r.dsLower <= s <= r.dsUpper && InRange(x * s, b))
  {
    TightenExact(r.dsLower, r.dsUpper, b, 0.0, x, s);
    var (lower, upper) := SignIndices(x);
    assert b.At(lower) - 0.0 == b.At(lower) && b.At(upper) - 0.0 == b.At(upper);
  }

  /** The second-order step admits exactly the `s2Dot` that the old interval
      admitted and that keep `d2 * sDot^2 + x * s2Dot` within `b`, at the
      working point `sDot = r.dsUpper`. */
  lemma AccelStepExact(r: ScalingBounds, b: Bounds, x: real, d2: real, s2: real)
    requires x != 0.0
    ensures var t := AccelStep(r, b, x, d2);
      (t.d2sLower <= s2 <= t.d2sUpper) <==> (r.d2sLower <= s2 <= r.d2sUpper && AccelAdmits(b, x, d2, r.dsUpper, s2))
  {
    TightenExact(r.d2sLower, r.d2sUpper, b, QuadraticTerm(d2, r.dsUpper), x, s2);
  }

  /** Off the fast path, `[dsLower, dsUpper]` is exactly the set of `sDot` in
      `[0, 1]` that keep every non-ignored first-order constraint: `dbeta * sDot`
      within the module acceleration limits and `dphiDot * sDot` within the
      wheel acceleration limits. */
  lemma FirstOrderCharacterization(t: TimeScaler, dbeta: real, d2beta: real, dphiDot: real, s: real)
    requires !t.FastPath(dbeta, d2beta, dphiDot)
    ensures var r := t.ComputeScalingBounds(dbeta, d2beta, dphiDot);
      (r.dsLower <= s <= r.dsUpper) <==> FirstOrderAdmits(t, dbeta, dphiDot, s)
  {
    var afterBeta := if NearZero(dbeta) then Identity else RateStep(Identity, t.beta2DotB, dbeta);
    var afterPhi := if NearZero(dphiDot) then afterBeta else RateStep(afterBeta, t.phi2DotB, dphiDot);
    if !NearZero(dbeta) {
      RateStepExact(Identity, t.beta2DotB, dbeta, s);
    }
    if !NearZero(dphiDot) {
      RateStepExact(afterBeta, t.phi2DotB, dphiDot, s);
    }
    var r := t.ComputeScalingBounds(dbeta, d2beta, dphiDot);
    assert r.dsLower == afterPhi.dsLower && r.dsUpper == afterPhi.dsUpper;
  }

  /** Off the fast path, `[d2sLower, d2sUpper]` is exactly the set of `s2Dot`
      in `[0, 1]` that keep `d2beta * sDot^2 + dbeta * s2Dot` within the module
      acceleration limits at `sDot = dsUpper`, or all of `[0, 1]` when `dbeta`
      is ignored. */
  lemma SecondOrderCharacterization(t: TimeScaler, dbeta: real, d2beta: real, dphiDot: real, s2: real)
    requires !t.FastPath(dbeta, d2beta, dphiDot)
    ensures var r := t.ComputeScalingBounds(dbeta, d2beta, dphiDot);
      (r.d2sLower <= s2 <= r.d2sUpper) <==> SecondOrderAdmits(t, dbeta, d2beta, r.dsUpper, s2)
  {
    var afterBeta := if NearZero(dbeta) then Identity else RateStep(Identity, t.beta2DotB, dbeta);
    var afterPhi := if NearZero(dphiDot) then afterBeta else RateStep(afterBeta, t.phi2DotB, dphiDot);
    assert afterPhi.d2sLower == 0.0 && afterPhi.d2sUpper == 1.0;
    var r := t.ComputeScalingBounds(dbeta, d2beta, dphiDot);
    if NearZero(dbeta) {
      assert r == afterPhi;
    } else {
      assert r == AccelStep(afterPhi, t.beta2DotB, dbeta, d2beta);
      AccelStepExact(afterPhi, t.beta2DotB, dbeta, d2beta, s2);
    }
  }

  /** End to end: off the fast path, when both intervals are non-empty, the
      selected parameters scale every non-ignored command into its limits —
      the module rate and acceleration into the module acceleration limits,
      the wheel acceleration into the wheel limits. */
  lemma SelectedScalingWithinLimits(t: TimeScaler, dbeta: real, d2beta: real, dphiDot: real)
    requires !t.FastPath(dbeta, d2beta, dphiDot)
    requires Feasible(t.ComputeScalingBounds(dbeta, d2beta, dphiDot))
    ensures var c := ChainRule(dbeta, d2beta, dphiDot, Select(t.ComputeScalingBounds(dbeta, d2beta, dphiDot)));
      (!NearZero(dbeta) ==> InRange(c.betaDot, t.beta2DotB) && InRange(c.beta2Dot, t.beta2DotB)) &&
      (!NearZero(dphiDot) ==> InRange(c.phi2Dot, t.phi2DotB))
  {
    var r := t.ComputeScalingBounds(dbeta, d2beta, dphiDot);
    var p := Select(r);
    FirstOrderCharacterization(t, dbeta, d2beta, dphiDot, p.sDot);
    SecondOrderCharacterization(t, dbeta, d2beta, dphiDot, p.s2Dot);
    assert FirstOrderAdmits(t, dbeta, dphiDot, p.sDot);
    assert SecondOrderAdmits(t, dbeta, d2beta, p.sDot, p.s2Dot);
    ScaledWithinLimits(t.beta2DotB, t.phi2DotB, dbeta, d2beta, dphiDot, p);
  }

  /** The chain rule turns admitted parameters into commands within limits. */
  lemma ScaledWithinLimits(b: Bounds, pb: Bounds, dbeta: real, d2beta: real, dphiDot: real, p: ScalingParameters)
    requires !NearZero(dbeta) ==> InRange(dbeta * p.sDot, b) && AccelAdmits(b, dbeta, d2beta, p.sDot, p.s2Dot)
    requires !NearZero(dphiDot) ==> InRange(dphiDot * p.sDot, pb)
    ensures var c := ChainRule(dbeta, d2beta, dphiDot, p);
      (!NearZero(dbeta) ==> InRange(c.betaDot, b) && InRange(c.beta2Dot, b)) &&
      (!NearZero(dphiDot) ==> InRange(c.phi2Dot, pb))
  {
  }

  /** On the fast path selection yields `sDot = 1` and `s2Dot = 1`, so the
      scaled module acceleration is `d2beta + dbeta` rather than `d2beta`. */
  lemma FastPathScaledCommand(t: TimeScaler, dbeta: real, d2beta: real, dphiDot: real)
    requires t.FastPath(dbeta, d2beta, dphiDot)
    ensures ChainRule(dbeta, d2beta, dphiDot, Select(t.ComputeScalingBounds(dbeta, d2beta, dphiDot)))
      == ScaledCommand(dbeta, d2beta + dbeta, dphiDot)
  {
  }

  /** A module-rate command near zero has no influence at all: two such
      commands, with any module accelerations, give the same intervals. */
  lemma IgnoredBetaIrrelevant(t: TimeScaler, dbeta: real, d2beta: real, dbeta': real, d2beta': real, dphiDot: real)
    requires NearZero(dbeta) && NearZero(dbeta')
    requires !t.FastPath(dbeta, d2beta, dphiDot) && !t.FastPath(dbeta', d2beta', dphiDot)
    ensures t.ComputeScalingBounds(dbeta, d2beta, dphiDot) == t.ComputeScalingBounds(dbeta', d2beta', dphiDot)
  {
  }

  /** Negating the divisor and the offset is the same as reflecting the limit
      list: the positions swap and the quotients agree. */
  lemma MirroredQuotients(b: Bounds, q: real, x: real)
    requires x != 0.0
    ensures var (lower, upper) := SignIndices(-x);
      var (lower', upper') := SignIndices(x);
      (b.At(lower) + q) / -x == (Mirror(b).At(lower') - q) / x &&
      (b.At(upper) + q) / -x == (Mirror(b).At(upper') - q) / x
  {
    NegatedDivisor(b.lo + q, x);
    NegatedDivisor(b.hi + q, x);
  }

  /** Negating `x` in a first-order step is the same as reflecting the limit
      list: the positions swap and the quotients change sign. */
  lemma RateStepMirror(r: ScalingBounds, b: Bounds, x: real)
    requires x != 0.0
    ensures RateStep(r, b, -x) == RateStep(r, Mirror(b), x)
  {
    MirroredQuotients(b, 0.0, x);
    var (lower, upper) := SignIndices(-x);
    var (lower', upper') := SignIndices(x);
    assert b.At(lower) + 0.0 == b.At(lower) && b.At(upper) + 0.0 == b.At(upper);
    assert Mirror(b).At(lower') - 0.0 == Mirror(b).At(lower') && Mirror(b).At(upper') - 0.0 == Mirror(b).At(upper');
  }

  /** The same reflection for the second-order step, negating both the rate
      and the acceleration command. */
  lemma AccelStepMirror(r: ScalingBounds, b: Bounds, x: real, d2: real)
    requires x != 0.0
    ensures AccelStep(r, b, -x, -d2) == AccelStep(r, Mirror(b), x, d2)
  {
    var q := QuadraticTerm(d2, r.dsUpper);
    assert QuadraticTerm(-d2, r.dsUpper) == -q;
    MirroredQuotients(b, q, x);
    var (lower, upper) := SignIndices(-x);
    assert b.At(lower) - QuadraticTerm(-d2, r.dsUpper) == b.At(lower) + q;
    assert b.At(upper) - QuadraticTerm(-d2, r.dsUpper) == b.At(upper) + q;
  }

  /** Sign symmetry: negating the module commands gives the same intervals as
      keeping them and reflecting the module limit lists. */
  lemma ComputeScalingBoundsMirror(t: TimeScaler, u: TimeScaler, dbeta: real, d2beta: real, dphiDot: real)
    requires u.betaDotB == Mirror(t.betaDotB) && u.beta2DotB == Mirror(t.beta2DotB)
    requires u.phi2DotB == t.phi2DotB
    ensures t.ComputeScalingBounds(-dbeta, -d2beta, dphiDot) == u.ComputeScalingBounds(dbeta, d2beta, dphiDot)
  {
    assert t.FastPath(-dbeta, -d2beta, dphiDot) == u.FastPath(dbeta, d2beta, dphiDot);
    if !u.FastPath(dbeta, d2beta, dphiDot) && !NearZero(dbeta) {
      RateStepMirror(Identity, t.beta2DotB, dbeta);
      var tb := RateStep(Identity, t.beta2DotB, -dbeta);
      var tp := if NearZero(dphiDot) then tb else RateStep(tb, t.phi2DotB, dphiDot);
      AccelStepMirror(tp, t.beta2DotB, dbeta, d2beta);
    }
  }

  /** Widening every limit list never shrinks the `ds/dt` interval. */
  lemma FirstOrderMonotone(t: TimeScaler, u: TimeScaler, dbeta: real, d2beta: real, dphiDot: real)
    requires Wider(u, t)
    ensures var rt := t.ComputeScalingBounds(dbeta, d2beta, dphiDot);
      var ru := u.ComputeScalingBounds(dbeta, d2beta, dphiDot);
      ru.dsLower <= rt.dsLower && rt.dsUpper <= ru.dsUpper
  {
    if !u.FastPath(dbeta, d2beta, dphiDot) {
      assert !t.FastPath(dbeta, d2beta, dphiDot);
      if !NearZero(dbeta) {
        DivisionMonotone(u.beta2DotB, t.beta2DotB, dbeta);
      }
      if !NearZero(dphiDot) {
        DivisionMonotone(u.phi2DotB, t.phi2DotB, dphiDot);
      }
    }
  }

  /** Quotients of a wider limit list bracket those of a narrower one at the
      sign-chosen positions. */
  lemma DivisionMonotone(wide: Bounds, narrow: Bounds, x: real)
    requires x != 0.0
    requires wide.lo <= narrow.lo && narrow.hi <= wide.hi
    ensures var (lower, upper) := SignIndices(x);
      wide.At(lower) / x <= narrow.At(lower) / x && narrow.At(upper) / x <= wide.At(upper) / x
  {
    DivisionBounds(wide.lo, x, narrow.lo / x);
    DivisionBounds(narrow.hi, x, wide.hi / x);
    DivisionBounds(wide.hi, x, narrow.hi / x);
    DivisionBounds(narrow.lo, x, wide.lo / x);
    assert x * (narrow.lo / x) == narrow.lo && x * (wide.hi / x) == wide.hi;
    assert x * (narrow.hi / x) == narrow.hi && x * (wide.lo / x) == wide.lo;
  }

  /** The `d2s/dt2` interval is not monotone in the limits: widening the
      module acceleration limits raises the working point `sDot = dsUpper`,
      which can lower `d2sUpper`. */
  lemma SecondOrderNotMonotone(t: TimeScaler, u: TimeScaler)
    requires t.betaDotB == u.betaDotB == Bounds(0.0, 0.0)
    requires t.beta2DotB == Bounds(0.0, 0.5) && u.beta2DotB == Bounds(0.0, 1.0)
    requires t.phi2DotB == u.phi2DotB == Bounds(0.0, 0.0)
    ensures Wider(u, t)
    ensures t.ComputeScalingBounds(1.0, 1.0, 0.0) == ScalingBounds(0.0, 0.5, 0.0, 0.25)
    ensures u.ComputeScalingBounds(1.0, 1.0, 0.0) == ScalingBounds(0.0, 1.0, 0.0, 0.0)
  {
  }

  /** The intervals can come back crossed: a module constraint forcing
      `sDot >= 0.5` and a wheel constraint forcing `sDot <= 0.25`. */
  lemma InfeasibleExample(t: TimeScaler)
    requires t.betaDotB == Bounds(0.0, 0.0)
    requires t.beta2DotB == Bounds(0.5, 1.0) && t.phi2DotB == Bounds(0.0, 0.25)
    ensures !Feasible(t.ComputeScalingBounds(1.0, 0.0, 1.0))
  {
  }

  /** With `sDot = 1` and `s2Dot = 0` time and path parameter coincide and the
      commands pass through unchanged. */
  lemma ChainRuleIdentity(dbeta: real, d2beta: real, dphiDot: real)
    ensures ChainRule(dbeta, d2beta, dphiDot, ScalingParameters(1.0, 0.0)) == ScaledCommand(dbeta, d2beta, dphiDot)
  {
  }

  /** The parameters of `s(v(t))` from those of `s(v)` and of `v(t)`. */
  function Compose(p: ScalingParameters, q: ScalingParameters): ScalingParameters {
    ScalingParameters(p.sDot * q.sDot, p.s2Dot * (q.sDot * q.sDot) + p.sDot * q.s2Dot)
  }

  /** Scaling in two stages equals scaling once by the composed parameters, as
      the chain rule for a composition of reparameterisations demands. */
  lemma ChainRuleComposes(dbeta: real, d2beta: real, dphiDot: real, p: ScalingParameters, q: ScalingParameters)
    ensures var c := ChainRule(dbeta, d2beta, dphiDot, p);
      ChainRule(c.betaDot, c.beta2Dot, c.phi2Dot, q) == ChainRule(dbeta, d2beta, dphiDot, Compose(p, q))
  {
    var s1, s2, t1, t2 := p.sDot, p.s2Dot, q.sDot, q.s2Dot;
    var a, b := s1 * s1, t1 * t1;
    assert (d2beta * a + dbeta * s2) * b == (d2beta * a) * b + (dbeta * s2) * b;
    assert (d2beta * a) * b == d2beta * (a * b);
    assert a * b == (s1 * t1) * (s1 * t1);
    assert (dbeta * s2) * b == dbeta * (s2 * b);
    assert (dbeta * s1) * t2 == dbeta * (s1 * t2);
    assert dbeta * (s2 * b) + dbeta * (s1 * t2) == dbeta * (s2 * b + s1 * t2);
    assert (dbeta * s1) * t1 == dbeta * (s1 * t1);
    assert (dphiDot * s1) * t1 == dphiDot * (s1 * t1);
  }
}
