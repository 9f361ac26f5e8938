# Angle metric

A Dafny model of `angle_distance(a, b)` from `code/angle_metric.py`, the
repository's only function. It takes two angles in degrees and returns the
absolute value of their arithmetic difference, `|b - a|`.

The model is one module, `AngleMetric`, in `angle_metric.dfy`. Angles are
Dafny `real`s, so the model has no rounding and no special values. Angles
are not restricted to a range. The distance is the raw difference: it is
never reduced by a full turn.

The function's documentation calls the result "the interior angle" between
`a` and `b`. The code does not compute that: `angle_distance(10, 350)` is
340, not 20. The model follows the code. `InteriorAngle` exists only as a
reference for what the documentation describes. It is defined for angles in
[0, 360), and `AgreesWithInteriorAngleIff` states exactly when the two agree.
Nothing else in the model uses it.

## Model

| member | source | states |
|---|---|---|
| AngleMetric.Abs | code/angle_metric.py:21 | the built-in absolute value is non-negative and equals its argument or its negation |
| AngleMetric.AngleDistance | code/angle_metric.py:4-21 | the distance is never negative; it is zero exactly when the two angles are equal; it is `b - a` when `b >= a` and `a - b` otherwise |
| AngleMetric.Symmetric | code/angle_metric.py:21 | swapping the two angles does not change the distance |
| AngleMetric.ShiftInvariant | code/angle_metric.py:21 | rotating both angles by the same amount leaves the distance unchanged |
| AngleMetric.LeastSeparatingBound | code/angle_metric.py:21 | the distance is at most `d` exactly when each angle lies within `d` of the other |
| AngleMetric.EuclideanOnTheLine | code/angle_metric.py:21 | for non-negative `d`, `d` squared equals the squared difference exactly when `d` is the distance, so the distance is the Euclidean distance on the real line |
| AngleMetric.FullTurnChangesDistance | code/angle_metric.py:21 | adding a full turn to one angle leaves the distance unchanged only when `b - a` is exactly -180; otherwise it changes, so there is no wrap-around |
| AngleMetric.Unbounded | code/angle_metric.py:21 | for every bound there are two angles further apart than it, so the result is not capped at 180 or 360 |
| AngleMetric.ExceedsHalfTurn | code/angle_metric.py:18-21 | two angles already in [0, 360) can be more than half a turn apart, which no interior angle can be |
| AngleMetric.InteriorAngle | code/angle_metric.py:5-6 | the interior angle that the documentation describes lies in [0, 180], is at most the raw distance, and is either the raw distance or a full turn minus it |
| AngleMetric.AgreesWithInteriorAngleIff | code/angle_metric.py:18-21 | for angles in [0, 360), the raw distance equals the documented interior angle exactly when it is at most 180 |
| AngleMetric.DocumentedCases | code/angle_metric.py:4-21 | worked values: 0 and 90 give 90 in either order, 10 and 350 give 340 and not 20, -45 and 45 give 90, 0 and 0 give 0, 100.5 and 200.25 give 99.75 |

## Left out

- IEEE-754 behaviour: NaN propagation, infinities and the rounding of `b - a` are not modelled, because angles are exact reals.
- Python duck typing: the `TypeError` that a non-numeric argument raises is not modelled, because the parameters are statically typed as `real`.
- Circular or shortest-arc distance is not part of the model's behaviour, because the code does not compute it. It appears only as the reference `InteriorAngle`.
