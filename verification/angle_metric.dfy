/**
 The angle metric of code/angle_metric.py: the distance between two angles,
 each given in degrees. Angles are arbitrary real numbers (no canonical range
 is assumed or enforced), and the distance is the raw arithmetic difference
 between them, with no wrap-around at a full turn.
 */
module AngleMetric {

  /** One full turn and one half turn, in degrees. The distance never reduces
      by these; they appear only to state what the distance does not do. */
  const FullTurn: real := 360.0
  const HalfTurn: real := 180.0

  /** The host language's absolute value on a real number. */
  function Abs(x: real): (r: real)
    ensures r >= 0.0
    ensures r == x || r == -x
  {
    if x < 0.0 then -x else x
  }

  /** `angle_distance(a, b)`: the absolute difference of the two angles. */
  function AngleDistance(a: real, b: real): (d: real)
    ensures d >= 0.0
    ensures d == 0.0 <==> a == b
    ensures b >= a ==> d == b - a
    ensures b < a ==> d == a - b
  {
    Abs(b - a)
  }

  /** The argument order does not matter. */
  lemma Symmetric(a: real, b: real)
    ensures AngleDistance(a, b) == AngleDistance(b, a)
  {
  }

  /** Rotating both angles by the same amount leaves the distance unchanged. */
  lemma ShiftInvariant(a: real, b: real, c: real)
    ensures AngleDistance(a + c, b + c) == AngleDistance(a, b)
  {
  }

  /** The distance is the smallest non-negative d such that each angle lies
      within d of the other. */
  lemma LeastSeparatingBound(a: real, b: real, d: real)
    ensures (a <= b + d && b <= a + d) <==> AngleDistance(a, b) <= d
  {
  }

  /** Squaring is strictly increasing on the non-negative reals. */
  lemma SquareMonotone(d: real, e: real)
    requires 0.0 <= d < e
    ensures d * d < e * e
  {
    var p, q, r := d * d, d * e, e * e;
    assert p <= q;
    assert q < r;
  }

  /** The distance is the Euclidean distance on the real line: the unique
      non-negative square root of the squared difference. */
  lemma EuclideanOnTheLine(a: real, b: real, d: real)
    requires d >= 0.0
    ensures d * d == (b - a) * (b - a) <==> d == AngleDistance(a, b)
  {
    var e := AngleDistance(a, b);
    assert e * e == (b - a) * (b - a) by {
      if b < a {
        assert e * e == (a - b) * (a - b);
      }
    }
    if d < e {
      SquareMonotone(d, e);
    } else if e < d {
      SquareMonotone(e, d);
    }
  }

  /** There is no wrap-around: adding a full turn to one angle changes the
      distance, except when the angles are exactly half a turn apart in the
      direction the turn is added. */
  lemma FullTurnChangesDistance(a: real, b: real)
    ensures AngleDistance(a, b + FullTurn) == AngleDistance(a, b) <==> b - a == -HalfTurn
  {
  }

  /** The distance has no upper bound: for any bound, some pair of angles is
      further apart than it. In particular it is not capped at a half or a
      full turn. */
  lemma Unbounded(bound: real)
    ensures exists a, b :: AngleDistance(a, b) > bound
  {
    var b := Abs(bound) + 1.0;
    assert AngleDistance(0.0, b) > bound;
  }

  /** Even for two angles already in [0, 360), the distance can exceed half a
      turn, which no interior angle between two directions does. */
  lemma ExceedsHalfTurn()
    ensures exists a, b ::
              0.0 <= a < FullTurn && 0.0 <= b < FullTurn && AngleDistance(a, b) > HalfTurn
  {
    assert AngleDistance(10.0, 350.0) == 340.0;
  }

  /** An angle in the canonical range [0, 360). */
  predicate Normalised(a: real) {
    0.0 <= a < FullTurn
  }

  /** The interior angle between two directions, given as angles in [0, 360),
      which is what the function's documentation describes. The function does
      not compute this; it is defined only to say where the two agree. */
  function InteriorAngle(a: real, b: real): (r: real)
    requires Normalised(a) && Normalised(b)
    ensures 0.0 <= r <= HalfTurn
    ensures r == AngleDistance(a, b) || r == FullTurn - AngleDistance(a, b)
    ensures r <= AngleDistance(a, b)
  {
    var d := AngleDistance(a, b);
    if d <= HalfTurn then d else FullTurn - d
  }

  /** For angles in [0, 360), the raw distance equals the interior angle
      exactly when it is at most half a turn. */
  lemma AgreesWithInteriorAngleIff(a: real, b: real)
    requires Normalised(a) && Normalised(b)
    ensures AngleDistance(a, b) == InteriorAngle(a, b) <==> AngleDistance(a, b) <= HalfTurn
  {
  }

  /** The worked cases that document the function, including negative input
      and the pair 10 and 350 degrees, whose distance is 340 and not 20. */
  lemma DocumentedCases()
    ensures AngleDistance(0.0, 90.0) == 90.0
    ensures AngleDistance(90.0, 0.0) == 90.0
    ensures AngleDistance(10.0, 350.0) == 340.0
    ensures AngleDistance(10.0, 350.0) != 20.0
    ensures AngleDistance(-45.0, 45.0) == 90.0
    ensures AngleDistance(0.0, 0.0) == 0.0
    ensures AngleDistance(100.5, 200.25) == 99.75
  {
  }
}
