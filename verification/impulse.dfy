/** The charge mechanic's arithmetic: how long the player held the screen becomes
    the impulse that launches the wallaby. */
module Impulse {
  import opened Reals
  import opened Tuning

  /** A 2-D impulse as handed to the physics engine. */
  datatype Vector = Vector(dx: real, dy: real)

  /** The impulse of the shortest and of the longest charge. */
  const MinImpulse: Vector := Vector(30.0, 300.0)
  const MaxImpulse: Vector := Vector(50.0, 500.0)

  /** The hold time forced into the charge window. */
  function ClampDuration(d: real): (c: real)
    ensures MinChargeDuration <= c <= MaxChargeDuration
    ensures c == d <==> MinChargeDuration <= d <= MaxChargeDuration
    ensures d <= MinChargeDuration ==> c == MinChargeDuration
    ensures d >= MaxChargeDuration ==> c == MaxChargeDuration
  {
    Max(MinChargeDuration, Min(d, MaxChargeDuration))
  }

  /** How far through the charge window the hold went: 0 at its short end, 1 at its long end. */
  function ChargeFraction(d: real): (t: real)
    ensures 0.0 <= t <= 1.0
    ensures t == 0.0 <==> d <= MinChargeDuration
    ensures t == 1.0 <==> d >= MaxChargeDuration
  {
    (ClampDuration(d) - MinChargeDuration) / (MaxChargeDuration - MinChargeDuration)
  }

  /** Linear interpolation from `a` (at t = 0) to `b` (at t = 1). */
  function Lerp(a: real, b: real, t: real): (r: real)
  {
    a + t * (b - a)
  }

  /** The impulse a hold of `d` seconds produces: both axes interpolated with the same fraction. */
  function ImpulseFor(d: real): (v: Vector)
    ensures MinImpulse.dx <= v.dx <= MaxImpulse.dx
    ensures MinImpulse.dy <= v.dy <= MaxImpulse.dy
    ensures d <= MinChargeDuration ==> v == MinImpulse
    ensures d >= MaxChargeDuration ==> v == MaxImpulse
    ensures v.dy == 10.0 * v.dx
  {
    var t := ChargeFraction(d);
    Vector(Lerp(MinImpulse.dx, MaxImpulse.dx, t), Lerp(MinImpulse.dy, MaxImpulse.dy, t))
  }

  /** The inverse reading of an impulse: the (clamped) hold time that produced its horizontal part. */
  function HoldFor(v: Vector): (d: real)
  {
    MinChargeDuration
      + (v.dx - MinImpulse.dx) / (MaxImpulse.dx - MinImpulse.dx) * (MaxChargeDuration - MinChargeDuration)
  }

  /** Reading an impulse back gives exactly the clamped hold that produced it. */
  lemma ImpulseRecoversHold(d: real)
    ensures HoldFor(ImpulseFor(d)) == ClampDuration(d)
  {
  }

  /** Every impulse on the launch line between the two extremes is produced by some hold. */
  lemma ImpulseReachesEvery(dx: real)
    requires MinImpulse.dx <= dx <= MaxImpulse.dx
    ensures MinChargeDuration <= HoldFor(Vector(dx, 10.0 * dx)) <= MaxChargeDuration
    ensures ImpulseFor(HoldFor(Vector(dx, 10.0 * dx))) == Vector(dx, 10.0 * dx)
  {
  }

  /** A longer hold never gives a weaker impulse, on either axis. */
  lemma ImpulseMonotone(d1: real, d2: real)
    requires d1 <= d2
    ensures ImpulseFor(d1).dx <= ImpulseFor(d2).dx
    ensures ImpulseFor(d1).dy <= ImpulseFor(d2).dy
  {
  }

  /** Inside the charge window a longer hold always gives a strictly stronger impulse. */
  lemma ImpulseStrictInWindow(d1: real, d2: real)
    requires MinChargeDuration <= d1 < d2 <= MaxChargeDuration
    ensures ImpulseFor(d1).dx < ImpulseFor(d2).dx
    ensures ImpulseFor(d1).dy < ImpulseFor(d2).dy
  {
  }

  /** The middle of the charge window gives the mean of the two extreme impulses. */
  lemma MidpointImpulse()
    ensures (MinChargeDuration + MaxChargeDuration) / 2.0 == 0.425
    ensures ImpulseFor(0.425) == Vector(40.0, 400.0)
  {
  }

  /** A 0.4 s hold lies just short of the midpoint, so it gives slightly less than (40, 400). */
  lemma FourTenthsImpulse()
    ensures ImpulseFor(0.4) == Vector(118.0 / 3.0, 1180.0 / 3.0)
  {
  }
}
