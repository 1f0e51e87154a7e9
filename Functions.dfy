/** `calculate_direction` of `Functions.cpp`: which side of ship `a` a hit
    coming from `b` lands on.  The bearing (`atan2` of the position delta, in
    degrees) is a parameter; the rest is the angle arithmetic and the bucket
    chain. */
module HitQuadrants {
  import opened Numerics
  import opened Components

  datatype HitQuadrant = Front | Right | Back | Left

  /** C's `fmod(x, 360)`: `x` less a whole number of turns, with the sign of
      `x` and a magnitude below 360 and at most that of `x`. */
  function FMod360(x: real): (r: real)
    ensures x >= 0.0 ==> 0.0 <= r < 360.0
    ensures x < 0.0 ==> -360.0 < r <= 0.0
    ensures (x - r) / 360.0 == ((x - r) / 360.0).Floor as real
    ensures x >= 0.0 ==> r <= x
    ensures x < 0.0 ==> x <= r
  {
    x - Truncate(x / 360.0) as real * 360.0
  }

  /** `fmod` by 360, then one correction of a negative remainder: the result
      is the angle reduced by whole turns into [0, 360). */
  function Normalise(angle: real): (r: real)
    ensures 0.0 <= r < 360.0
    ensures r == angle - (angle / 360.0).Floor as real * 360.0
  {
    var m := FMod360(angle);
    FloorTurns(angle, m);
    if m < 0.0 then m + 360.0 else m
  }

  lemma FloorTurns(angle: real, m: real)
    requires m == FMod360(angle)
    ensures m >= 0.0 ==> m == angle - (angle / 360.0).Floor as real * 360.0
    ensures m < 0.0 ==> m + 360.0 == angle - (angle / 360.0).Floor as real * 360.0
  {
    var v := angle / 360.0;
    var f := v.Floor;
    var t := Truncate(v);
    assert v * 360.0 == angle;
    if angle >= 0.0 {
      assert t == f;
    } else if m < 0.0 {
      assert t as real > v;
      assert t == f + 1;
    } else {
      assert m == 0.0;
      assert t as real * 360.0 == angle;
      assert t as real == v;
      assert t == f;
    }
  }

  /** The `if` chain, fallback included. */
  function Bucket(a: real): HitQuadrant
  {
    if a <= 45.0 || a >= 315.0 then Front
    else if a >= 45.0 && a <= 135.0 then Right
    else if a >= 135.0 && a <= 225.0 then Back
    else if a >= 225.0 && a <= 315.0 then Left
    else Back
  }

  /** The fallback is reached only for an angle no comparison holds of, and
      every real satisfies one of them. */
  lemma FallbackUnreachable(a: real)
    ensures a <= 45.0 || a >= 315.0 || (a >= 45.0 && a <= 135.0) ||
      (a >= 135.0 && a <= 225.0) || (a >= 225.0 && a <= 315.0)
  {}

  lemma BucketFront(a: real)
    ensures Bucket(a) == Front <==> a <= 45.0 || a >= 315.0
  {}

  lemma BucketRight(a: real)
    ensures Bucket(a) == Right <==> 45.0 < a <= 135.0
  {}

  lemma BucketBack(a: real)
    ensures Bucket(a) == Back <==> 135.0 < a <= 225.0
  {}

  lemma BucketLeft(a: real)
    ensures Bucket(a) == Left <==> 225.0 < a < 315.0
  {}

  /** The angle of `b` relative to `a`'s facing, normalised. */
  function RelativeAngle(a: Transform, b: Transform, bearing: (real, real) -> real): (r: real)
    ensures 0.0 <= r < 360.0
  {
    var delta := Sub(b.position, a.position);
    Normalise(bearing(delta.y, delta.x) - a.rotation - 270.0)
  }

  /** `calculate_direction(a, b)`; `bearing(y, x)` stands for `atan2(y, x)` in degrees. */
  function CalculateDirection(a: Transform, b: Transform, bearing: (real, real) -> real): (q: HitQuadrant)
    ensures var r := RelativeAngle(a, b, bearing);
      (q == Front <==> r <= 45.0 || r >= 315.0) &&
      (q == Right <==> 45.0 < r <= 135.0) &&
      (q == Back <==> 135.0 < r <= 225.0) &&
      (q == Left <==> 225.0 < r < 315.0)
  {
    Bucket(RelativeAngle(a, b, bearing))
  }

  /** Turning `a` by a full circle does not change the quadrant. */
  lemma FullTurnInvariant(a: Transform, b: Transform, bearing: (real, real) -> real)
    ensures CalculateDirection(a.(rotation := a.rotation + 360.0), b, bearing) == CalculateDirection(a, b, bearing)
  {
    var x := bearing(b.position.y - a.position.y, b.position.x - a.position.x) - a.rotation - 270.0;
    NormalisePeriodic(x);
    assert Sub(b.position, a.position) == Sub(b.position, a.(rotation := a.rotation + 360.0).position);
  }

  lemma NormalisePeriodic(x: real)
    ensures Normalise(x - 360.0) == Normalise(x)
  {
    assert (x - 360.0) / 360.0 == x / 360.0 - 1.0;
  }
}
