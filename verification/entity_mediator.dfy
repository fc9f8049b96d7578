/** The behaviour shared by the player and the enemy: striking the ball when
    it is within reach, and each physics step's movement and turning
    (Assets/Scripts/Entity/EntityMediator.cs). The engine view is reduced to
    the commands the mediator sends it, and to the rigid body's position and
    heading that those commands move (Assets/Scripts/Entity/EntityView.cs). */
module EntityMediator {
  import opened UnityMath
  import opened Entity
  import opened BallHit

  /** What the mediator asks of the engine, in the order it asks. */
  datatype ViewCommand =
    | MovePosition(offset: Vec3)
    | MoveRotation(yaw: real)
    | MoveAnimation(isMoving: bool)
    | HitAnimation
    | BallImpulse(impulse: Vec3)

  /** The entity's rigid body: its position and its heading about the vertical axis. */
  datatype Body = Body(position: Vec3, yaw: real)

  /** EntityView.MovePosition displaces the body; MoveRotation sets its
      heading; the other commands leave the body where it is. */
  function Apply(b: Body, c: ViewCommand): (r: Body)
    ensures c.MovePosition? ==> Sub3(r.position, b.position) == c.offset && r.yaw == b.yaw
    ensures c.MoveRotation? ==> r.yaw == c.yaw && r.position == b.position
    ensures !c.MovePosition? && !c.MoveRotation? ==> r == b
  {
    match c
    case MovePosition(offset) => b.(position := Add3(b.position, offset))
    case MoveRotation(yaw) => b.(yaw := yaw)
    case _ => b
  }

  function ApplyAll(b: Body, cs: seq<ViewCommand>): Body
    decreases |cs|
  {
    if |cs| == 0 then b else ApplyAll(Apply(b, cs[0]), cs[1..])
  }

  /** Running two batches of commands one after the other is running them
      as one batch. */
  lemma {:induction false} ApplyAllConcat(b: Body, xs: seq<ViewCommand>, ys: seq<ViewCommand>)
    ensures ApplyAll(b, xs + ys) == ApplyAll(ApplyAll(b, xs), ys)
    decreases |xs|
  {
    if |xs| > 0 {
      assert (xs + ys)[1..] == xs[1..] + ys;
      ApplyAllConcat(Apply(b, xs[0]), xs[1..], ys);
    } else {
      assert xs + ys == ys;
    }
  }

  /** The sum of the displacements the MovePosition commands of `cs` ask for. */
  function Displacement(cs: seq<ViewCommand>): Vec3
    decreases |cs|
  {
    if |cs| == 0 then Zero3
    else
      var last := cs[|cs| - 1];
      Add3(Displacement(cs[..|cs| - 1]), if last.MovePosition? then last.offset else Zero3)
  }

  /** The heading the last MoveRotation of `cs` sets, or `yaw` when there is none. */
  function LastYaw(yaw: real, cs: seq<ViewCommand>): real
    decreases |cs|
  {
    if |cs| == 0 then yaw
    else if cs[|cs| - 1].MoveRotation? then cs[|cs| - 1].yaw
    else LastYaw(yaw, cs[..|cs| - 1])
  }

  /** After a batch of commands the body has moved by the sum of the
      displacements sent and faces the last heading sent, if any. */
  lemma {:induction false} ApplyAllEffect(b: Body, cs: seq<ViewCommand>)
    ensures ApplyAll(b, cs).position == Add3(b.position, Displacement(cs))
    ensures ApplyAll(b, cs).yaw == LastYaw(b.yaw, cs)
    decreases |cs|
  {
    if |cs| > 0 {
      var init, last := cs[..|cs| - 1], cs[|cs| - 1];
      assert cs == init + [last];
      ApplyAllConcat(b, init, [last]);
      ApplyAllEffect(b, init);
      var mid := ApplyAll(b, init);
      assert ApplyAll(mid, [last]) == Apply(mid, last) by {
        assert [last][1..] == [];
      }
      var offset := if last.MovePosition? then last.offset else Zero3;
      assert Displacement(cs) == Add3(Displacement(init), offset);
      assert Add3(b.position, Displacement(cs)) == Add3(mid.position, offset);
    }
  }

  /** The heading, in degrees, that faces along `v` on the ground plane:
      Atan2 of the x and z components, converted with Rad2Deg. It lies within
      half a turn either way. */
  function FacingAngle(k: Kernel, v: Vec3): (r: real)
    requires Valid(k)
    ensures -Pi * Rad2Deg <= r <= Pi * Rad2Deg
  {
    var a := k.atan2(v.x, v.z);
    assert -Pi <= a <= Pi;
    a * Rad2Deg
  }

  /** The height of a vector plays no part in where it faces. */
  lemma FacingIgnoresHeight(k: Kernel, v: Vec3, y: real)
    requires Valid(k)
    ensures FacingAngle(k, v.(y := y)) == FacingAngle(k, v)
  {
  }

  /** TriggerHit: nothing when the ball is farther than the hit radius;
      otherwise turn to face the ball, strike it along the unit direction
      toward it with `force`, and play the hit animation, in that order. */
  function TriggerHit(k: Kernel, m: EntityModel, position: Vec3, ballPosition: Vec3, force: real): (cs: seq<ViewCommand>)
    requires Valid(k)
    ensures Magnitude3(k, Sub3(position, ballPosition)) > m.data.hitRadius ==> cs == []
    ensures Magnitude3(k, Sub3(position, ballPosition)) <= m.data.hitRadius ==>
      var toBall := Sub3(ballPosition, position);
      && |cs| == 3
      && cs[0] == MoveRotation(FacingAngle(k, Normalized3(k, toBall)))
      && cs[1] == BallImpulse(ExecuteHit(k, toBall, force))
      && (toBall == Zero3 ==> cs[1].impulse == Zero3)
      && (toBall != Zero3 ==> SqrMagnitude3(cs[1].impulse) == Sq(force))
      && cs[2] == HitAnimation
  {
    var distanceToBall := Magnitude3(k, Sub3(position, ballPosition));
    if distanceToBall > m.data.hitRadius then []
    else
      var directionToBall := Normalized3(k, Sub3(ballPosition, position));
      HitThroughNormalized(k, Sub3(ballPosition, position), force);
      [MoveRotation(FacingAngle(k, directionToBall)),
       BallImpulse(ExecuteHit(k, directionToBall, force)),
       HitAnimation]
  }

  /** The commands of a strike move nothing but the heading: the entity
      turns where it stands. */
  lemma StrikeCommandsOnlyTurn(b: Body, cs: seq<ViewCommand>, angle: real)
    requires |cs| == 3 && cs[0] == MoveRotation(angle) && cs[1].BallImpulse? && cs[2] == HitAnimation
    ensures ApplyAll(b, cs) == b.(yaw := angle)
  {
    ApplyThree(b, cs[0], cs[1], cs[2]);
    assert cs == [cs[0], cs[1], cs[2]];
  }

  lemma ApplyThree(b: Body, c0: ViewCommand, c1: ViewCommand, c2: ViewCommand)
    ensures ApplyAll(b, [c0, c1, c2]) == Apply(Apply(Apply(b, c0), c1), c2)
  {
    var b3 := Apply(Apply(Apply(b, c0), c1), c2);
    assert [c2][1..] == [];
    assert ApplyAll(Apply(Apply(b, c0), c1), [c2]) == b3;
    assert [c1, c2][1..] == [c2];
    assert ApplyAll(Apply(b, c0), [c1, c2]) == b3;
    assert [c0, c1, c2][1..] == [c1, c2];
  }

  /** HandleCollision: a collision strikes with the entity's hit force, so a
      landed strike pushes the ball away from the entity with exactly that
      strength. */
  function HandleCollision(k: Kernel, m: EntityModel, position: Vec3, ballPosition: Vec3): (cs: seq<ViewCommand>)
    requires Valid(k)
    ensures cs == [] <==> Magnitude3(k, Sub3(position, ballPosition)) > m.data.hitRadius
    ensures cs != [] && ballPosition != position ==>
      |cs| == 3 && cs[1].BallImpulse? && SqrMagnitude3(cs[1].impulse) == Sq(m.data.hitForce)
    ensures cs != [] ==>
      |cs| == 3 && cs[1] == BallImpulse(ExecuteHit(k, Sub3(ballPosition, position), m.data.hitForce))
  {
    TriggerHit(k, m, position, ballPosition, m.data.hitForce)
  }

  /** The model after a physics step and the commands the step sent. */
  datatype Step = Step(model: EntityModel, commands: seq<ViewCommand>)

  /** FixedTick: first move by the velocity over the step and show whether
      the entity is moving; then, unless the entity stands still, steer the
      heading toward the direction of travel through the threshold-gated
      smoothing, sending no rotation when the smoothing yields 0. */
  function FixedTick(k: Kernel, m: EntityModel, body: Body, fixedDeltaTime: real): (r: Step)
    requires Valid(k)
    ensures 2 <= |r.commands| <= 3
    ensures r.commands[0] == MovePosition(Scale3(m.velocity, fixedDeltaTime))
    ensures r.commands[1] == MoveAnimation(m.isMoving)
    ensures r.model.(rotationSpeed := m.rotationSpeed) == m
    ensures m.velocity == Zero3 ==> r == Step(m, r.commands) && |r.commands| == 2
    ensures |r.commands| == 3 ==>
      && m.velocity != Zero3
      && r.commands[2].MoveRotation? && r.commands[2].yaw != 0.0
      && Abs(k.deltaAngle(body.yaw, FacingAngle(k, m.velocity))) > m.data.minAngleForRotation
  {
    var movement := [MovePosition(Scale3(m.velocity, fixedDeltaTime)), MoveAnimation(m.isMoving)];
    if SqrMagnitude3(m.velocity) <= 0.0 then
      Step(m, movement)
    else
      var rotation := CalculateRotationAngle(k, m, body.yaw, FacingAngle(k, m.velocity), fixedDeltaTime);
      if rotation.angle == 0.0 then Step(rotation.model, movement)
      else Step(rotation.model, movement + [MoveRotation(rotation.angle)])
  }

  /** A moving entity keeps the angular rate the smoothing wrote back, and it
      sends a rotation exactly when the smoothed angle is not 0, that angle. */
  lemma MovingStepTurnsBySmoothing(k: Kernel, m: EntityModel, body: Body, fixedDeltaTime: real)
    requires Valid(k) && m.velocity != Zero3
    ensures var r := FixedTick(k, m, body, fixedDeltaTime);
      var rotation := CalculateRotationAngle(k, m, body.yaw, FacingAngle(k, m.velocity), fixedDeltaTime);
      && r.model == rotation.model
      && (|r.commands| == 3 <==> rotation.angle != 0.0)
      && (|r.commands| == 3 ==> r.commands[2] == MoveRotation(rotation.angle))
  {
    SqrMagnitudePositive3(m.velocity);
  }

  /** After a step the body has moved by exactly velocity times the step
      length, and its heading is the smoothed angle when one was sent. */
  lemma StepMovesByVelocity(k: Kernel, m: EntityModel, body: Body, fixedDeltaTime: real)
    requires Valid(k)
    ensures var r := FixedTick(k, m, body, fixedDeltaTime);
      var after := ApplyAll(body, r.commands);
      && after.position == Add3(body.position, Scale3(m.velocity, fixedDeltaTime))
      && after.yaw == (if |r.commands| == 3 then r.commands[2].yaw else body.yaw)
  {
    var cs := FixedTick(k, m, body, fixedDeltaTime).commands;
    var b2 := Apply(Apply(body, cs[0]), cs[1]);
    assert ApplyAll(body, cs) == ApplyAll(b2, cs[2..]) by {
      assert cs[1..][1..] == cs[2..];
    }
    if |cs| == 3 {
      assert cs[2..][1..] == [];
      assert ApplyAll(b2, cs[2..]) == Apply(b2, cs[2]);
    }
  }

  /** Turning only happens while moving: a stopped entity neither moves nor
      turns, and its model is left exactly as it was. */
  lemma StoppedEntityStaysPut(k: Kernel, m: EntityModel, body: Body, fixedDeltaTime: real)
    requires Valid(k)
    ensures var stopped := SetMoving(m, false);
      var r := FixedTick(k, stopped, body, fixedDeltaTime);
      r.model == stopped && ApplyAll(body, r.commands) == body
  {
    var stopped := SetMoving(m, false);
    StepMovesByVelocity(k, stopped, body, fixedDeltaTime);
    assert Scale3(Zero3, fixedDeltaTime) == Zero3;
  }
}
