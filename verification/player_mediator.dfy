/** The player: it reacts to the joystick's published events, steering on a
    drag, starting on a press and stopping and kicking on a release
    (Assets/Scripts/Entity/Player/PlayerEntityMediator.cs). Its physics step
    is the shared one of the entity mediator. */
module PlayerMediator {
  import opened UnityMath
  import opened Entity
  import opened EntityMediator
  import opened JoystickMediator

  /** The model after a handler and the commands the handler sent. */
  datatype Reaction = Reaction(model: EntityModel, commands: seq<ViewCommand>)

  /** The three subscriptions: a drag steers, a press starts moving, and a
      release stops the player before it tries to kick the ball with its kick
      force. */
  function OnJoystickEvent(k: Kernel, m: EntityModel, position: Vec3, ballPosition: Vec3, e: JoystickEvent): (r: Reaction)
    requires Valid(k)
    ensures e.JoystickDrag? ==>
      && r.commands == []
      && r.model.(velocity := m.velocity) == m
      && r.model.velocity == SetVelocity(m, e.direction, e.magnitude).velocity
    ensures e.JoystickPressed? ==>
      r == Reaction(m.(isMoving := true), [])
    ensures e.JoystickReleased? ==>
      && r.model == NewEntityModel(m.data)
      && r.commands == TriggerHit(k, r.model, position, ballPosition, m.data.kickForce)
  {
    match e
    case JoystickDrag(direction, magnitude) => Reaction(SetVelocity(m, direction, magnitude), [])
    case JoystickPressed => Reaction(SetMoving(m, true), [])
    case JoystickReleased =>
      var stopped := SetMoving(m, false);
      Reaction(stopped, TriggerHit(k, stopped, position, ballPosition, stopped.data.kickForce))
  }

  /** After a release the player stands still whether or not the kick lands:
      the strike only turns it in place. */
  lemma ReleaseStopsWhetherOrNotKickLands(k: Kernel, m: EntityModel, body: Body, ballPosition: Vec3)
    requires Valid(k)
    ensures var r := OnJoystickEvent(k, m, body.position, ballPosition, JoystickReleased);
      && r.model.velocity == Zero3 && r.model.rotationSpeed == 0.0
      && ApplyAll(body, r.commands).position == body.position
  {
    var r := OnJoystickEvent(k, m, body.position, ballPosition, JoystickReleased);
    if r.commands != [] {
      StrikeCommandsOnlyTurn(body, r.commands, r.commands[0].yaw);
    }
  }

  /** A press between two drags does not disturb the steering. */
  lemma PressKeepsVelocity(k: Kernel, m: EntityModel, position: Vec3, ballPosition: Vec3)
    requires Valid(k)
    ensures OnJoystickEvent(k, m, position, ballPosition, JoystickPressed).model.velocity == m.velocity
  {
  }

  /** Every drag the joystick publishes drives the player at most at its
      maximum speed, for a joystick whose drag vector starts out bounded. */
  lemma JoystickDragWithinMaxSpeed(k: Kernel, m: EntityModel, position: Vec3, ballPosition: Vec3,
                                   s: JoystickState, canvas: CanvasMapping, provider: TouchInput.InputProvider,
                                   e: JoystickEvent)
    requires Valid(k) && s.model.maxDistance != 0.0 && Joystick.DragBounded(s.model)
    requires e in Tick(k, s, canvas, provider).published && e.JoystickDrag?
    ensures SqrMagnitude3(OnJoystickEvent(k, m, position, ballPosition, e).model.velocity) <= Sq(m.data.maxSpeed)
  {
    TickPublishesBoundedDrag(k, s, canvas, provider);
    SpeedWithinMax(m, e.direction, e.magnitude);
  }
}
