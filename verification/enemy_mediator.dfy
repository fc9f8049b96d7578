/** The enemy: each physics step it decides where to run from the predicted
    ball position, tries to kick, then moves and turns like any entity
    (Assets/Scripts/Entity/Enemy/EnemyEntityMediator.cs). */
module EnemyMediator {
  import opened UnityMath
  import opened Entity
  import opened Ball
  import opened Interception
  import opened EntityMediator

  /** The half-width of the band around the target inside which the enemy
      stands still (0.1f in the engine, taken as the real 0.1). */
  const DeadBand: real := 0.1

  /** CalculateAIMovement: stop when the predicted ball x is within the dead
      band of the enemy's x; otherwise run at full speed toward it along x.
      When the interception time has no value the decision has none either. */
  function CalculateAIMovement(m: EntityModel, enemyPosition: Vec3, ball: BallBody): (r: Option<EntityModel>)
    ensures r.None? <==> GetTargetPosition(ball, enemyPosition, m.data.maxSpeed).None?
    ensures r.Some? ==>
      var deltaX := GetTargetPosition(ball, enemyPosition, m.data.maxSpeed).value.x - enemyPosition.x;
      && r.value.data == m.data
      && (Abs(deltaX) < DeadBand ==>
            r.value.velocity == Zero3 && r.value.rotationSpeed == 0.0 && !r.value.isMoving)
      && (Abs(deltaX) >= DeadBand ==>
            && r.value.isMoving && r.value.rotationSpeed == m.rotationSpeed
            && r.value.velocity == Vec3(if deltaX > 0.0 then m.data.maxSpeed else -m.data.maxSpeed, 0.0, 0.0))
  {
    var target := GetTargetPosition(ball, enemyPosition, m.data.maxSpeed);
    if target.None? then None
    else
      var deltaX := target.value.x - enemyPosition.x;
      if Abs(deltaX) < DeadBand then Some(SetMoving(m, false))
      else
        var direction := if deltaX > 0.0 then Right2 else Left2;
        Some(SetMoving(SetVelocity(m, direction, 1.0), true))
  }

  /** Outside the dead band the enemy runs toward the target: the velocity
      along x has the sign of the gap (for a positive maximum speed). */
  lemma RunsTowardTarget(m: EntityModel, enemyPosition: Vec3, ball: BallBody)
    requires 0.0 < m.data.maxSpeed
    requires CalculateAIMovement(m, enemyPosition, ball).Some?
    requires var t := GetTargetPosition(ball, enemyPosition, m.data.maxSpeed).value;
      Abs(t.x - enemyPosition.x) >= DeadBand
    ensures var t := GetTargetPosition(ball, enemyPosition, m.data.maxSpeed).value;
      var v := CalculateAIMovement(m, enemyPosition, ball).value.velocity;
      (v.x > 0.0 <==> t.x > enemyPosition.x) && (v.x < 0.0 <==> t.x < enemyPosition.x)
  {
  }

  /** A ball coming at the enemy no faster along x than the enemy can run is
      met where the enemy stands, so the enemy waits for it. */
  lemma WaitsForApproachingBall(m: EntityModel, enemyPosition: Vec3, ball: BallBody)
    requires ball.velocity.x != 0.0 && Sq(m.data.maxSpeed) >= Sq(ball.velocity.x)
    requires 0.0 <= (enemyPosition.x - ball.position.x) * ball.velocity.x
    ensures CalculateAIMovement(m, enemyPosition, ball) == Some(NewEntityModel(m.data))
  {
    ApproachingBallTargetsEntity(ball, enemyPosition, m.data.maxSpeed);
  }

  /** FixedTick: the movement decision first, then a kick attempt with the
      kick force against the ball where it is now, then the shared movement
      and turning step with the decided velocity. The enemy's body is read
      once, at the start of the step. */
  function FixedTick(k: Kernel, m: EntityModel, body: Body, ball: BallBody, fixedDeltaTime: real): (r: Option<Step>)
    requires Valid(k)
    ensures r.None? <==> CalculateAIMovement(m, body.position, ball).None?
    ensures r.Some? ==>
      var decided := CalculateAIMovement(m, body.position, ball).value;
      var kick := TriggerHit(k, decided, body.position, ball.position, m.data.kickForce);
      && |kick| + 2 <= |r.value.commands|
      && r.value.commands[..|kick|] == kick
      && r.value.commands[|kick|] == MovePosition(Scale3(decided.velocity, fixedDeltaTime))
      && r.value.model.(rotationSpeed := decided.rotationSpeed) == decided
  {
    match CalculateAIMovement(m, body.position, ball)
    case None => None
    case Some(decided) =>
      var kick := TriggerHit(k, decided, body.position, ball.position, decided.data.kickForce);
      var step := EntityMediator.FixedTick(k, decided, body, fixedDeltaTime);
      Some(Step(step.model, kick + step.commands))
  }

  /** An enemy that decides to stop does not move during that same step. */
  lemma StopTakesEffectAtOnce(k: Kernel, m: EntityModel, body: Body, ball: BallBody, fixedDeltaTime: real)
    requires Valid(k) && CalculateAIMovement(m, body.position, ball).Some?
    requires !CalculateAIMovement(m, body.position, ball).value.isMoving
    ensures var r := FixedTick(k, m, body, ball, fixedDeltaTime).value;
      MovePosition(Zero3) in r.commands && !r.model.isMoving && r.model.velocity == Zero3
  {
    var decided := CalculateAIMovement(m, body.position, ball).value;
    var kick := TriggerHit(k, decided, body.position, ball.position, m.data.kickForce);
    var r := FixedTick(k, m, body, ball, fixedDeltaTime).value;
    assert Scale3(Zero3, fixedDeltaTime) == Zero3;
    assert r.commands[|kick|] == MovePosition(Zero3);
  }

  /** The enemy's step is the kick attempt followed by exactly the shared
      movement and turning step run on the decided model, so the animation,
      the optional rotation and the new angular rate are the shared step's. */
  lemma StepIsKickThenSharedStep(k: Kernel, m: EntityModel, body: Body, ball: BallBody, fixedDeltaTime: real)
    requires Valid(k) && CalculateAIMovement(m, body.position, ball).Some?
    ensures var decided := CalculateAIMovement(m, body.position, ball).value;
      var kick := TriggerHit(k, decided, body.position, ball.position, m.data.kickForce);
      var step := EntityMediator.FixedTick(k, decided, body, fixedDeltaTime);
      FixedTick(k, m, body, ball, fixedDeltaTime) == Some(Step(step.model, kick + step.commands))
  {
  }

  /** Whether or not the kick lands, the enemy's body ends the step moved by
      exactly the decided velocity times the step: a strike only turns it. */
  lemma MovesByDecidedVelocity(k: Kernel, m: EntityModel, body: Body, ball: BallBody, fixedDeltaTime: real)
    requires Valid(k) && CalculateAIMovement(m, body.position, ball).Some?
    ensures var decided := CalculateAIMovement(m, body.position, ball).value;
      var r := FixedTick(k, m, body, ball, fixedDeltaTime).value;
      ApplyAll(body, r.commands).position == Add3(body.position, Scale3(decided.velocity, fixedDeltaTime))
  {
    var decided := CalculateAIMovement(m, body.position, ball).value;
    var kick := TriggerHit(k, decided, body.position, ball.position, m.data.kickForce);
    var step := EntityMediator.FixedTick(k, decided, body, fixedDeltaTime);
    StepIsKickThenSharedStep(k, m, body, ball, fixedDeltaTime);
    ApplyAllConcat(body, kick, step.commands);
    var turned := ApplyAll(body, kick);
    if kick != [] {
      StrikeCommandsOnlyTurn(body, kick, kick[0].yaw);
    }
    assert turned.position == body.position;
    ApplyAllEffect(turned, step.commands);
    ApplyAllEffect(body, step.commands);
    StepMovesByVelocity(k, decided, body, fixedDeltaTime);
  }
}
