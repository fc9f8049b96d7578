/** A strike on the ball: one impulse along the strike direction with the
    requested strength (Assets/Scripts/UseCases/TriggerBallHitUseCase.cs). */
module BallHit {
  import opened UnityMath

  /** ExecuteHit: the impulse handed to the ball, the unit vector along the
      strike direction times the force. A zero direction strikes with nothing.
      The use case applies exactly this one impulse per call. */
  function ExecuteHit(k: Kernel, hitDirection: Vec3, hitForce: real): (impulse: Vec3)
    requires Valid(k)
    ensures hitDirection == Zero3 ==> impulse == Zero3
    ensures hitDirection != Zero3 ==>
      && SqrMagnitude3(impulse) == Sq(hitForce)
      && Scale3(impulse, Magnitude3(k, hitDirection)) == Scale3(hitDirection, hitForce)
  {
    var n := Normalized3(k, hitDirection);
    if hitDirection == Zero3 then Scale3(n, hitForce)
    else
      UnitImpulse(n, Magnitude3(k, hitDirection), hitDirection, hitForce);
      Scale3(n, hitForce)
  }

  /** A unit vector `n` with `n * m == d`, scaled by `f`: its squared length
      is `f²` and scaling it by `m` gives `d * f`. */
  lemma UnitImpulse(n: Vec3, m: real, d: Vec3, f: real)
    requires SqrMagnitude3(n) == 1.0 && Scale3(n, m) == d
    ensures SqrMagnitude3(Scale3(n, f)) == Sq(f)
    ensures Scale3(Scale3(n, f), m) == Scale3(d, f)
  {
    SqrMagnitudeScale3(n, f);
    ScaleCommutes3(n, f, m);
  }

  /** With a positive force the impulse points exactly along the strike
      direction. */
  lemma HitAlongDirection(k: Kernel, hitDirection: Vec3, hitForce: real)
    requires Valid(k) && hitDirection != Zero3 && 0.0 < hitForce
    ensures Normalized3(k, ExecuteHit(k, hitDirection, hitForce)) == Normalized3(k, hitDirection)
  {
    NormalizedScaledUnit3(k, Normalized3(k, hitDirection), hitForce);
  }

  /** The strike direction's length does not matter, only where it points. */
  lemma HitIgnoresDirectionLength(k: Kernel, hitDirection: Vec3, c: real, hitForce: real)
    requires Valid(k) && SqrMagnitude3(hitDirection) == 1.0 && 0.0 < c
    ensures ExecuteHit(k, Scale3(hitDirection, c), hitForce) == ExecuteHit(k, hitDirection, hitForce)
  {
    NormalizedScaledUnit3(k, hitDirection, c);
    NormalizedUnit3(k, hitDirection);
  }

  /** Normalizing the strike direction before the hit changes nothing: the
      use case normalizes again, and a unit vector is its own normalization. */
  lemma HitThroughNormalized(k: Kernel, hitDirection: Vec3, hitForce: real)
    requires Valid(k)
    ensures ExecuteHit(k, Normalized3(k, hitDirection), hitForce) == ExecuteHit(k, hitDirection, hitForce)
  {
    if hitDirection != Zero3 {
      NormalizedUnit3(k, Normalized3(k, hitDirection));
    }
  }
}
