/** The ball's per-round wiring: the serve at start-up and the speed cap
    applied every physics step (Assets/Scripts/Ball/BallMediator.cs, with the
    view's ResetPosition and ApplyLinearVelocity from
    Assets/Scripts/Ball/BallView.cs). */
module BallMediator {
  import opened UnityMath
  import opened Ball

  /** The start of a round: the model after serving, the body put back on
      its spawn point at rest, and the serve impulse handed to the physics. */
  datatype Start = Start(model: BallModel, body: BallBody, impulse: Vec3)

  /** Initialize: reset the body to the model's position with zero velocity,
      then push it along a fresh serve direction with half the speed cap. The
      direction pushed along is the one the model now remembers. */
  function Initialize(k: Kernel, m: BallModel, x: real): (r: Start)
    requires Valid(k)
    ensures r.body == BallBody(m.position, Zero3)
    ensures r.model == GetRandomDirection(k, m, x).model
    ensures r.impulse == Scale3(r.model.randomDirection, m.maxSpeed / 2.0)
    ensures r.impulse.y == 0.0
    ensures SqrMagnitude3(r.impulse) == Sq(m.maxSpeed / 2.0)
  {
    var serve := GetRandomDirection(k, m, x);
    var impulse := Scale3(serve.direction, m.maxSpeed / 2.0);
    SqrMagnitudeScale3(serve.direction, m.maxSpeed / 2.0);
    Start(serve.model, BallBody(m.position, Zero3), impulse)
  }

  /** With a positive cap the serve pushes the ball toward the end the serve
      direction alternates to. */
  lemma ServeImpulseAlternates(k: Kernel, m: BallModel, x: real)
    requires Valid(k) && 0.0 < m.maxSpeed
    ensures Initialize(k, m, x).impulse.z > 0.0 <==> m.randomDirection.z <= 0.0
    ensures Initialize(k, m, x).impulse.z < 0.0 <==> m.randomDirection.z > 0.0
  {
    var d := GetRandomDirection(k, m, x).direction;
    ScaledSign(d.z, m.maxSpeed / 2.0, Initialize(k, m, x).impulse.z);
  }

  /** FixedTick: when the body is faster than the cap, rescale its velocity to
      the cap along the same direction. A missing view or model makes the
      engine's lifted comparison false, so nothing happens then. With a
      non-negative cap the step is Vector3.ClampMagnitude: comparing the speed
      with the cap is comparing the squared speed with its square. */
  function FixedTick(k: Kernel, view: Option<BallBody>, model: Option<BallModel>): (r: Option<BallBody>)
    requires Valid(k)
    ensures view.None? ==> r.None?
    ensures view.Some? ==> r.Some? && r.value.position == view.value.position
    ensures model.None? ==> r == view
    ensures view.Some? && model.Some? && 0.0 <= model.value.maxSpeed ==>
      r == Some(view.value.(velocity := ClampMagnitude3(k, view.value.velocity, model.value.maxSpeed)))
  {
    if view.Some? && model.Some? && Magnitude3(k, view.value.velocity) > model.value.maxSpeed then
      MagnitudeSquared3(k, view.value.velocity);
      RootAgainstBound(Magnitude3(k, view.value.velocity), SqrMagnitude3(view.value.velocity), model.value.maxSpeed);
      Some(view.value.(velocity := Scale3(Normalized3(k, view.value.velocity), model.value.maxSpeed)))
    else
      if view.Some? && model.Some? then
        MagnitudeSquared3(k, view.value.velocity);
        RootAgainstBound(Magnitude3(k, view.value.velocity), SqrMagnitude3(view.value.velocity), model.value.maxSpeed);
        view
      else view
  }

  /** A non-negative root `s` of `q` exceeds a non-negative bound exactly
      when `q` exceeds the bound's square. */
  lemma RootAgainstBound(s: real, q: real, max: real)
    requires 0.0 <= s && Sq(s) == q
    ensures 0.0 <= max ==> (s > max <==> q > Sq(max))
  {
    if 0.0 <= max {
      if s > max {
        SqMonotonic(max, s);
      } else if s < max {
        SqMonotonic(s, max);
      }
    }
  }

  /** With a non-negative cap, a body at or under the cap is left alone, and
      one over it leaves the step moving exactly at the cap. */
  lemma FixedTickCapsSpeed(k: Kernel, body: BallBody, m: BallModel)
    requires Valid(k) && 0.0 <= m.maxSpeed
    ensures Magnitude3(k, body.velocity) <= m.maxSpeed ==> FixedTick(k, Some(body), Some(m)) == Some(body)
    ensures Magnitude3(k, body.velocity) > m.maxSpeed ==>
      SqrMagnitude3(FixedTick(k, Some(body), Some(m)).value.velocity) == Sq(m.maxSpeed)
  {
    MagnitudeSquared3(k, body.velocity);
    RootAgainstBound(Magnitude3(k, body.velocity), SqrMagnitude3(body.velocity), m.maxSpeed);
  }

  /** A step right after a clamp changes nothing. */
  lemma FixedTickIdempotent(k: Kernel, view: Option<BallBody>, model: Option<BallModel>)
    requires Valid(k) && (model.Some? ==> 0.0 <= model.value.maxSpeed)
    ensures FixedTick(k, FixedTick(k, view, model), model) == FixedTick(k, view, model)
  {
    if view.Some? && model.Some? {
      ClampMagnitudeIdempotent3(k, view.value.velocity, model.value.maxSpeed);
    }
  }

  /** A clamp with a positive cap keeps the direction of travel. */
  lemma FixedTickKeepsDirection(k: Kernel, body: BallBody, m: BallModel)
    requires Valid(k) && 0.0 < m.maxSpeed
    ensures Normalized3(k, FixedTick(k, Some(body), Some(m)).value.velocity) == Normalized3(k, body.velocity)
  {
    var v := body.velocity;
    if Magnitude3(k, v) > m.maxSpeed {
      assert v != Zero3;
      var n := Normalized3(k, v);
      assert SqrMagnitude3(n) == 1.0;
      assert FixedTick(k, Some(body), Some(m)).value.velocity == Scale3(n, m.maxSpeed);
      NormalizedScaledUnit3(k, n, m.maxSpeed);
    }
  }
}
