# TimeScaler: verified model of swerve-drive time scaling

A motion planner gives each swerve module's commands as derivatives with
respect to a path parameter `s`. These are `dbeta` and `d2beta` for the
steering angle, and `dphi_dot` for the wheel speed. The `TimeScaler` class
turns them into time derivatives that respect the actuator limits. It works in
three steps:

1. `compute_scaling_bounds` computes admissible intervals for `ds/dt` and
   `d2s/dt2`.
2. `compute_scaling_parameters` stores the upper end of each interval.
3. `scale_motion` applies the chain rule with the stored values.

This project models that class in Dafny over exact reals and proves what the
intervals mean.

- `timescaler.dfy` (module `TimeScaling`) holds the model. Each limit list is
  a `Bounds` pair, indexed by position as in the original. The inclusive range
  test `in_range` is `InRange`. The near-zero test
  `math.isclose(x, 0, abs_tol=1e-2)` is `NearZero`, i.e. `|x| <= 0.01`.
  `compute_scaling_bounds` is a pure class function built from two tightening
  steps: `RateStep` for the first-order constraints and `AccelStep` for the
  second-order one. Selection and scaling are methods on the `TimeScaler`
  class, which has mutable `sDot`/`s2Dot` fields and a ghost `selected` flag
  for the "parameters set" state.
- `properties.dfy` (module `TimeScalingProperties`) holds the lemmas.

What the proofs establish:

- Off the fast path, `[dsLower, dsUpper]` is exactly the set of `ds/dt` in
  `[0, 1]` that keep the non-ignored first-order constraints.
  `[d2sLower, d2sUpper]` is exactly the set of `d2s/dt2` in `[0, 1]` that keep
  the module acceleration within its limits at `ds/dt = dsUpper`. Both
  directions are proved.
- As a consequence, when both intervals are non-empty, the selected parameters
  scale every non-ignored command into its limits.
- The limit list used for the module *rate* `dbeta * sDot` is
  `beta_2dot_bounds` (the acceleration limits), as the code does.
  `beta_dot_bounds` is consulted only on the fast path.
- On the fast path, selection picks `ds/dt = 1` and `d2s/dt2 = 1`, so the
  scaled module acceleration is `d2beta + dbeta`, not `d2beta`
  (`FastPathScaledCommand`).
- Widening the limits never shrinks `[dsLower, dsUpper]`. The
  `[d2sLower, d2sUpper]` interval can shrink, because a wider first-order
  interval moves the working point `ds/dt = dsUpper` (`SecondOrderNotMonotone`).
  The code does not have the monotonicity one might expect of the second
  interval; the model follows the code.
- Bounds can come back crossed (`InfeasibleExample`). The code returns them
  as they are, without a tagged infeasible result, and so does the model.

## Model

| member | source | states |
|---|---|---|
| `TimeScaling.TimeScaler.constructor` | swervedrive/icr/timescaler.py:7-20 | the three limit lists are stored as given, and no parameters are selected yet |
| `TimeScaling.TimeScaler.ComputeScalingBounds` | swervedrive/icr/timescaler.py:22-80 | fast path gives `(0, 1, 0, 1)`; both commands near zero give `(0, 1, 0, 1)` whatever `d2beta` is; an ignored `dbeta` leaves `d2s` at `[0, 1]`; every result has `dsLower >= 0`, `dsUpper <= 1`, `d2sLower >= 0`, `d2sUpper <= 1`; no division by a near-zero command (well-formedness) |
| `TimeScaling.RateStep` | swervedrive/icr/timescaler.py:51-65 | a first-order constraint only raises `dsLower` and lowers `dsUpper`, and leaves the `d2s` interval alone |
| `TimeScaling.AccelStep` | swervedrive/icr/timescaler.py:67-78 | the second-order constraint only tightens the `d2s` interval, and leaves the `ds` interval alone |
| `TimeScaling.Select` | swervedrive/icr/timescaler.py:82-95 | on non-empty intervals, the selected values lie inside them and are their upper ends |
| `TimeScaling.TimeScaler.ComputeScalingParameters` | swervedrive/icr/timescaler.py:82-95 | stores `sDot := ds_upper` and `s2Dot := d2s_upper`, ignores the lower bounds, marks the parameters selected, and changes nothing else |
| `TimeScaling.TimeScaler.ScaleMotion` | swervedrive/icr/timescaler.py:97-112 | returns `(dbeta*sDot, d2beta*sDot^2 + dbeta*s2Dot, dphi_dot*sDot)` with the stored parameters, and does not modify the object |
| `TimeScalingProperties.RateStepExact` | swervedrive/icr/timescaler.py:51-65 | after a first-order step, `s` is admitted iff it was admitted before and `x*s` is within the limit list, for either sign of `x` (the index swap is exactly the inequality reversal) |
| `TimeScalingProperties.AccelStepExact` | swervedrive/icr/timescaler.py:67-78 | after the second-order step, `s2` is admitted iff it was admitted before and `d2*dsUpper^2 + x*s2` is within the limit list |
| `TimeScalingProperties.FirstOrderCharacterization` | swervedrive/icr/timescaler.py:43-65 | off the fast path, `s` is in `[dsLower, dsUpper]` iff `0 <= s <= 1`, `dbeta*s` is in `beta_2dot_b` unless `dbeta` is ignored, and `dphi_dot*s` is in `phi_2dot_b` unless `dphi_dot` is ignored |
| `TimeScalingProperties.SecondOrderCharacterization` | swervedrive/icr/timescaler.py:67-78 | off the fast path, `s2` is in `[d2sLower, d2sUpper]` iff `0 <= s2 <= 1` and, unless `dbeta` is ignored, `d2beta*dsUpper^2 + dbeta*s2` is in `beta_2dot_b` |
| `TimeScalingProperties.SelectedScalingWithinLimits` | swervedrive/icr/timescaler.py:49-110 | off the fast path and with non-empty intervals, scaling by the selected parameters puts the module rate and acceleration within `beta_2dot_b` unless `dbeta` is ignored, and the wheel acceleration within `phi_2dot_b` unless `dphi_dot` is ignored |
| `TimeScalingProperties.FastPathScaledCommand` | swervedrive/icr/timescaler.py:36-41 | on the fast path, selection and scaling give `(dbeta, d2beta + dbeta, dphi_dot)` |
| `TimeScalingProperties.IgnoredBetaIrrelevant` | swervedrive/icr/timescaler.py:43-51 | off the fast path, a `dbeta` with `abs(dbeta) <= 0.01` has no effect on the result, and neither does `d2beta` |
| `TimeScalingProperties.RateStepMirror` | swervedrive/icr/timescaler.py:52-58 | a first-order step with `-x` equals the step with `x` and the limit list reflected through zero |
| `TimeScalingProperties.AccelStepMirror` | swervedrive/icr/timescaler.py:72-78 | the second-order step with `-x, -d2` equals the step with `x, d2` and the reflected limit list |
| `TimeScalingProperties.ComputeScalingBoundsMirror` | swervedrive/icr/timescaler.py:36-80 | negating `dbeta` and `d2beta` gives the same bounds as keeping them and reflecting `beta_dot_b` and `beta_2dot_b` |
| `TimeScalingProperties.FirstOrderMonotone` | swervedrive/icr/timescaler.py:36-65 | widening every limit list never shrinks `[dsLower, dsUpper]` |
| `TimeScalingProperties.SecondOrderNotMonotone` | swervedrive/icr/timescaler.py:67-78 | a concrete widening of `beta_2dot_b` (from `[0, 0.5]` to `[0, 1]`) lowers `d2sUpper` from `0.25` to `0` |
| `TimeScalingProperties.InfeasibleExample` | swervedrive/icr/timescaler.py:80 | a module constraint and a wheel constraint can give `dsLower > dsUpper`, and the result is returned crossed |
| `TimeScalingProperties.ChainRuleIdentity` | swervedrive/icr/timescaler.py:108-110 | with `sDot = 1` and `s2Dot = 0` the commands pass through unchanged |
| `TimeScalingProperties.ChainRuleComposes` | swervedrive/icr/timescaler.py:108-110 | scaling twice equals scaling once by the composed parameters `(p.sDot*q.sDot, p.s2Dot*q.sDot^2 + p.sDot*q.s2Dot)`, the chain rule for a composition of reparameterisations |

`ScalingProtocolExample` in `timescaler.dfy` runs one tick on the limits
`[-1, 1]`, `[-2, 2]`, `[-3, 3]` with `dbeta = 4`. Its bounds are
`(0, 0.5, 0, 0.5)` and its scaled command is `(2, 2, 0)`. It also checks that
`sDot = 2`, `s2Dot = 0.5` on `(3, 1, 4)` gives `(6, 5.5, 8)`.

## Left out

- NumPy arrays: the type hints name `np.ndarray`, but `math.isclose`, `max`/`min` and the chained comparisons work only on scalars. Every quantity is one `real`.
- Floating-point rounding: all arithmetic is exact. `math.isclose`'s relative tolerance never decides against a zero reference, so only the absolute tolerance `0.01` is modelled.
- Constructor validation: none exists in the code. No bound pair is required to have `lo <= hi`, and no proof needs it.
- TimeScaling.TimeScaler.ComputeScalingParameters: requires both intervals to be non-empty, as its documentation assumes. The code itself stores the upper ends without checking.
- TimeScaling.TimeScaler.ScaleMotion: calling it before selection raises `AttributeError` in the original. The model makes this a precondition on the ghost `selected` flag instead of modelling the exception.
- Infeasible intervals: the code returns crossed bounds without a tagged result. The model does the same, and `Feasible` is the selection precondition.
- Collaborators: the kinematic model that produces the commands, the path planner and the execution loop are not part of this model.
