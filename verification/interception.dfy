/** The enemy's one-axis interception heuristic: how long until it can meet
    the ball along x, and where along x the ball will be by then
    (Assets/Scripts/UseCases/PredictBallPositionUseCase.cs). */
module Interception {
  import opened UnityMath
  import opened Ball

  /** The sign of a quotient is the sign of the product, and the quotient
      times the divisor gives the dividend back. */
  lemma QuotientSign(d: real, v: real)
    requires v != 0.0
    ensures (d / v) * v == d
    ensures 0.0 <= d / v <==> 0.0 <= d * v
  {
    DivMulCancel(d, v);
    SqPositive(v);
    assert (d / v) * Sq(v) == ((d / v) * v) * v;
    ScaledSign(d / v, Sq(v), d * v);
  }

  /** CalculateInterceptionTime. When the ball is faster along x than the
      entity can move (`speed² < v²`) the time is the one the entity needs to
      cover the gap `|d|`; otherwise it is the time until the ball reaches the
      entity's x, or 0 when the ball moves away. With a zero ball velocity a
      negative gap divides to minus infinity, which `Mathf.Max(0, t)` turns
      into 0; every other division by zero yields an infinite or undefined
      time, which has no value here: the result is `None` then. */
  function CalculateInterceptionTime(d: real, v: real, speed: real): (r: Option<real>)
    ensures r.None? <==> (Sq(speed) < Sq(v) && speed == 0.0) || (Sq(speed) >= Sq(v) && v == 0.0 && 0.0 <= d)
    ensures r.Some? && Sq(speed) < Sq(v) ==> r.value * speed == Abs(d)
    ensures r.Some? && Sq(speed) >= Sq(v) ==>
      && 0.0 <= r.value
      && (0.0 <= d * v && v != 0.0 ==> r.value * v == d)
      && (d * v < 0.0 || v == 0.0 ==> r.value == 0.0)
  {
    var discriminant := Sq(speed) - Sq(v);
    if discriminant < 0.0 then
      if speed == 0.0 then None
      else
        DivMulCancel(Abs(d), speed);
        Some(Abs(d) / speed)
    else if v == 0.0 then
      if d < 0.0 then Some(0.0) else None
    else
      QuotientSign(d, v);
      Some(Max(0.0, d / v))
  }

  /** For an entity with positive speed and a ball moving along x, the time
      exists and is never negative. */
  lemma InterceptionTimeNonNegative(d: real, v: real, speed: real)
    requires 0.0 < speed && v != 0.0
    ensures CalculateInterceptionTime(d, v, speed).Some?
    ensures CalculateInterceptionTime(d, v, speed).value >= 0.0
  {
    var t := CalculateInterceptionTime(d, v, speed).value;
    if Sq(speed) < Sq(v) {
      ScaledSign(t, speed, Abs(d));
    }
  }

  /** GetTargetPosition: the entity's own position with x replaced by where
      the ball will be along x after the interception time. Only the ball's
      x-velocity is consulted. */
  function GetTargetPosition(ball: BallBody, entityPosition: Vec3, entitySpeed: real): (r: Option<Vec3>)
    ensures var t := CalculateInterceptionTime(entityPosition.x - ball.position.x, ball.velocity.x, entitySpeed);
      r.None? <==> t.None?
    ensures r.Some? ==> r.value.y == entityPosition.y && r.value.z == entityPosition.z
  {
    var ballVelocityX := ball.velocity.x;
    var relativeDistance := entityPosition.x - ball.position.x;
    var time := CalculateInterceptionTime(relativeDistance, ballVelocityX, entitySpeed);
    if time.None? then None
    else Some(Vec3(ball.position.x + ballVelocityX * time.value, entityPosition.y, entityPosition.z))
  }

  /** A ball that comes toward an entity at least as fast as it is meets it
      where it stands: the target is the entity's own position. */
  lemma ApproachingBallTargetsEntity(ball: BallBody, entityPosition: Vec3, entitySpeed: real)
    requires ball.velocity.x != 0.0 && Sq(entitySpeed) >= Sq(ball.velocity.x)
    requires 0.0 <= (entityPosition.x - ball.position.x) * ball.velocity.x
    ensures GetTargetPosition(ball, entityPosition, entitySpeed) == Some(entityPosition)
  {
    var d := entityPosition.x - ball.position.x;
    var t := CalculateInterceptionTime(d, ball.velocity.x, entitySpeed).value;
    var g := GetTargetPosition(ball, entityPosition, entitySpeed).value;
    assert g.x == ball.position.x + ball.velocity.x * t;
    assert ball.velocity.x * t == d;
    assert g == Vec3(entityPosition.x, entityPosition.y, entityPosition.z);
  }

  /** A ball moving away from a faster entity is targeted where it is now. */
  lemma RecedingBallTargetsBall(ball: BallBody, entityPosition: Vec3, entitySpeed: real)
    requires ball.velocity.x != 0.0 && Sq(entitySpeed) >= Sq(ball.velocity.x)
    requires (entityPosition.x - ball.position.x) * ball.velocity.x < 0.0
    ensures GetTargetPosition(ball, entityPosition, entitySpeed)
            == Some(Vec3(ball.position.x, entityPosition.y, entityPosition.z))
  {
  }

  /** Against a ball faster than the entity, the target leads the ball by
      its velocity over the time the entity needs to cover the current gap. */
  lemma FastBallTargetLeads(ball: BallBody, entityPosition: Vec3, entitySpeed: real)
    requires entitySpeed != 0.0 && Sq(entitySpeed) < Sq(ball.velocity.x)
    ensures GetTargetPosition(ball, entityPosition, entitySpeed).Some?
    ensures (GetTargetPosition(ball, entityPosition, entitySpeed).value.x - ball.position.x) * entitySpeed
            == ball.velocity.x * Abs(entityPosition.x - ball.position.x)
  {
    var t := CalculateInterceptionTime(entityPosition.x - ball.position.x, ball.velocity.x, entitySpeed).value;
    assert (ball.velocity.x * t) * entitySpeed == ball.velocity.x * (t * entitySpeed);
  }

  /** A ball standing still along x on the entity's positive side is
      targeted where it is; on the other side, or level with the entity,
      there is no target. */
  lemma StillBallTarget(ball: BallBody, entityPosition: Vec3, entitySpeed: real)
    requires ball.velocity.x == 0.0
    ensures entityPosition.x < ball.position.x <==> GetTargetPosition(ball, entityPosition, entitySpeed).Some?
    ensures entityPosition.x < ball.position.x ==>
      GetTargetPosition(ball, entityPosition, entitySpeed) == Some(Vec3(ball.position.x, entityPosition.y, entityPosition.z))
  {
    SqNonNegative(entitySpeed);
  }

  /** Only the ball's position and x-velocity matter. */
  lemma OnlyVelocityXConsulted(ball: BallBody, other: BallBody, entityPosition: Vec3, entitySpeed: real)
    requires other.position == ball.position && other.velocity.x == ball.velocity.x
    ensures GetTargetPosition(other, entityPosition, entitySpeed) == GetTargetPosition(ball, entityPosition, entitySpeed)
  {
    var t := CalculateInterceptionTime(entityPosition.x - ball.position.x, ball.velocity.x, entitySpeed);
    var g := GetTargetPosition(ball, entityPosition, entitySpeed);
    var h := GetTargetPosition(other, entityPosition, entitySpeed);
    if t.Some? {
      assert g.value.x == ball.position.x + ball.velocity.x * t.value == h.value.x;
      assert g.value == Vec3(h.value.x, h.value.y, h.value.z);
    }
  }
}
