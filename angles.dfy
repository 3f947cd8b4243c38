/** Angle arithmetic shared by the physics and the visualiser: numpy's pi,
    np.deg2rad / np.rad2deg, and the one-shot wrap that Physics.compute
    applies to the pendulum angle. Numbers are exact reals. */
module Angles {

  /** np.pi: the IEEE-754 double nearest to pi, written as the exact ratio it denotes. */
  const Pi: real := 884279719003555.0 / 281474976710656.0

  lemma PiBounds()
    ensures 3.14 < Pi < 3.15
  {
  }

  /** np.deg2rad */
  function DegToRad(d: real): real
  {
    d * Pi / 180.0
  }

  /** np.rad2deg */
  function RadToDeg(r: real): real
  {
    r * 180.0 / Pi
  }

  /** Over the reals the two conversions are inverse to each other. */
  lemma DegreesRoundTrip(d: real, r: real)
    ensures RadToDeg(DegToRad(d)) == d
    ensures DegToRad(RadToDeg(r)) == r
  {
  }

  /** The angle limiting of Physics.compute: one correction by 2*pi at most,
      with strict comparisons, so that exactly -pi and pi are left alone. */
  function WrapAngle(a: real): (r: real)
    ensures r == a || r == a + 2.0 * Pi || r == a - 2.0 * Pi
    ensures r == a <==> -Pi <= a <= Pi
    ensures -3.0 * Pi <= a <= 3.0 * Pi ==> -Pi <= r <= Pi
    ensures a < -Pi ==> r > a
    ensures a > Pi ==> r < a
  {
    if a < -Pi then a + 2.0 * Pi
    else if a > Pi then a - 2.0 * Pi
    else a
  }

  /** Wrapping a value that is at most one turn out of range is idempotent. */
  lemma WrapIdempotent(a: real)
    requires -3.0 * Pi <= a <= 3.0 * Pi
    ensures WrapAngle(WrapAngle(a)) == WrapAngle(a)
  {
  }

  /** A value more than one turn out of range is not brought back by one wrap. */
  lemma WrapIsSingleShot()
    ensures WrapAngle(4.0 * Pi) == 2.0 * Pi
    ensures WrapAngle(4.0 * Pi) > Pi
  {
  }
}
