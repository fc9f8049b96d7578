# StrikeBall core, modelled in Dafny

StrikeBall is a small Unity game. A player steers a character with an
on-screen joystick and kicks a ball toward an enemy, and the enemy runs along
one axis to intercept it. This project models the game logic that decides
what happens each frame:

- **Touch input** (`touch_input.dfy`): the touch-input state machine
  (start / move / end of a drag) and the touchscreen sample mapper.
- **Joystick** (`joystick_config.dfy`, `joystick.dfy`, `joystick_mediator.dfy`):
  - the tunables validator;
  - the model that turns a handle offset into a drag vector;
  - the mediator that places the joystick under the finger, relocates it
    when the finger runs too far, keeps the handle within reach and
    publishes drag / press / release events.
- **Entities** (`entity.dfy`, `entity_mediator.dfy`, `player_mediator.dfy`,
  `enemy_mediator.dfy`):
  - velocity and the moving flag;
  - threshold-gated heading smoothing;
  - the strike on the ball;
  - the physics step;
  - the player's reaction to joystick events;
  - the enemy's dead-band decision from the predicted ball position.
- **Ball** (`ball.dfy`, `ball_mediator.dfy`, `ball_hit.dfy`,
  `interception.dfy`):
  - the alternating serve direction;
  - the round start;
  - the speed cap;
  - the strike impulse;
  - the one-axis interception heuristic.

## How the engine appears

The engine's math is modelled as follows (`unity_math.dfy`):

- Vectors are records of reals.
- `Sqrt`, `Atan2`, `DeltaAngle` and `SmoothDampAngle` are the fields of a
  `Kernel` value that every operation receives. The predicate `Valid` states
  the only facts the proofs rely on:
  - the square root is the non-negative root;
  - `Atan2` lies in [-PI, PI], with `PI` the engine's single-precision constant;
  - `DeltaAngle` lies in [-180, 180].
- The game calls the short overload of `SmoothDampAngle`, which has no
  speed limit and reads the frame's time step. The kernel's smoothing takes
  that step as an explicit argument, and the entity step passes it the
  fixed time step.
- `Normalized` and `ClampMagnitude` are defined from these as the engine
  documents them.

Engine objects are handled as follows:

- Views are reduced to the commands a mediator sends them (`ViewCommand`).
  The rigid-body state those commands move is modelled as data: a `Body` for
  entities and a `BallBody` for the ball.
- Everything the engine supplies is a parameter:
  - the touch device;
  - the screen-to-rectangle conversion (`CanvasMapping`, which may fail);
  - the random serve coordinate;
  - the fixed time step.
- Event-bus subscriptions are modelled as direct calls, in the order the
  source raises them.

Where the code divides by zero, the model follows the engine's float
arithmetic as far as it gives a finite answer, and returns `None` otherwise.
When the ball's x-velocity is 0 and the entity is on the lower-x side of the
ball, the quotient is minus infinity and `Mathf.Max(0, t)` makes the time 0,
so the target is the ball's own x; the model returns that. When the entity
is level with the ball or on its higher-x side, the engine's time is
infinite or NaN, and the model gives no interception estimate; the enemy's
step then has no value either. A zero entity speed against a moving ball
also gives `None`. Heading
smoothing happens only when the angle gap is strictly greater than the
minimum angle for rotation (`EntityModel.cs` compares with `>`), so a gap
exactly equal to it does not turn the entity.

## Model

| member | source | states |
|---|---|---|
| TouchInput.HandleInput | Assets/Scripts/UseCases/TouchInputHandlerUseCase.cs:14-41 | at most one event per frame; the flag flips exactly when a start or an end is raised; idle, the new flag is the down flag; dragging, it is the negation of the up flag; a move is raised only while dragging, at the sample position |
| TouchInput.IdlePressStarts | Assets/Scripts/UseCases/TouchInputHandlerUseCase.cs:19-25 | idle with a press raises one start at the sample position and begins dragging |
| TouchInput.IdleWithoutPressIgnored | Assets/Scripts/UseCases/TouchInputHandlerUseCase.cs:19-26 | idle without a press does nothing, whatever the up and held flags say |
| TouchInput.ReleaseWinsOverHeld | Assets/Scripts/UseCases/TouchInputHandlerUseCase.cs:29-33 | while dragging, an up sample ends the drag even when it is also held |
| TouchInput.HeldMoves | Assets/Scripts/UseCases/TouchInputHandlerUseCase.cs:34-37 | while dragging, a held sample that is not up raises a move at its position |
| TouchInput.DraggingQuietSample | Assets/Scripts/UseCases/TouchInputHandlerUseCase.cs:27-38 | while dragging, a sample neither up nor held keeps the drag and raises nothing |
| TouchInput.PollsWithCallerFlag | Assets/Scripts/UseCases/TouchInputHandlerUseCase.cs:16-17 | the sample is taken after the caller's flag is stored, so only the sample for that flag matters |
| TouchInput.Run | Assets/Scripts/UseCases/TouchInputHandlerUseCase.cs:14-41 | successive frames, each fed the flag the previous one wrote back, raise at most one event per frame |
| TouchInput.FrameIsBracketed | Assets/Scripts/UseCases/TouchInputHandlerUseCase.cs:19-40 | one frame's events form a legal stream from the old flag to the flag written back |
| TouchInput.RunIsBracketed | Assets/Scripts/UseCases/TouchInputHandlerUseCase.cs:14-41 | across any number of frames, starts and ends alternate, moves occur only between them, and the final flag is where the stream ends |
| TouchInput.MobileInputState | Assets/Scripts/UseCases/MobileTouchInputUseCase.cs:8-38 | the first touch gives the position; down is Began, up is Ended or Canceled, held is Moved or Stationary; with no touch, the sample is at zero and is up exactly when dragging; no two flags are ever set together |
| TouchInput.UnknownPhaseSilent | Assets/Scripts/UseCases/MobileTouchInputUseCase.cs:21-24 | a touch in no recognised phase raises no flag |
| TouchInput.VanishedTouchEndsDrag | Assets/Scripts/UseCases/MobileTouchInputUseCase.cs:26-29 | touches vanishing while dragging end the drag |
| TouchInput.NoTouchIdle | Assets/Scripts/UseCases/MobileTouchInputUseCase.cs:10-29 | with no touch and no drag, a frame does nothing |
| TouchInput.Gesture | Assets/Scripts/UseCases/MobileTouchInputUseCase.cs:21-24 | a touch that begins, moves and ends raises start, move and end in order and ends idle |
| JoystickConfig.OnValidate | Assets/Scripts/Joystick/JoystickData.cs:21-26 | the result meets the floors (reach at least 50, threshold at least the reach, dead zone at least 0.001); valid input is unchanged; every tunable only rises; a tunable already at or above its floor is kept |
| JoystickConfig.OnValidateIdempotent | Assets/Scripts/Joystick/JoystickData.cs:21-26 | validating twice is validating once |
| JoystickConfig.OnValidateLeast | Assets/Scripts/Joystick/JoystickData.cs:23-25 | the result is the least valid configuration that dominates the input |
| JoystickConfig.DefaultsValidated | Assets/Scripts/Joystick/JoystickData.cs:9-15 | the serialized defaults 100 / 120 / 0.001 already pass validation |
| Joystick.NewJoystickModel | Assets/Scripts/Joystick/JoystickModel.cs:27-32 | tunables copied from the data; no input, not dragging, resting position zero |
| Joystick.SetOriginalPosition | Assets/Scripts/Joystick/JoystickModel.cs:34 | only the resting position changes |
| Joystick.SetDragging | Assets/Scripts/Joystick/JoystickModel.cs:35 | only the dragging flag changes |
| Joystick.UpdateInput | Assets/Scripts/Joystick/JoystickModel.cs:37-44 | magnitude in [0, 1]; active exactly when the magnitude exceeds the dead zone; zero direction exactly for a zero offset; otherwise a unit direction along the offset; setup and flag untouched |
| Joystick.MagnitudeWithinReach | Assets/Scripts/Joystick/JoystickModel.cs:39-42 | within reach, the magnitude times the reach's absolute value is the offset's length |
| Joystick.MagnitudeSaturates | Assets/Scripts/Joystick/JoystickModel.cs:39-42 | at or beyond the reach the magnitude is exactly 1 |
| Joystick.ResetInput | Assets/Scripts/Joystick/JoystickModel.cs:46-52 | no input and not dragging, setup untouched |
| Joystick.DragVectorsBounded | Assets/Scripts/Joystick/JoystickModel.cs:37-52 | update and reset produce a unit-or-zero direction with magnitude in [0, 1]; changing the flag keeps that bound |
| Joystick.ResetForgetsInput | Assets/Scripts/Joystick/JoystickModel.cs:46-52 | a reset forgets every earlier update and flag change |
| Joystick.SetDraggingCommutes | Assets/Scripts/Joystick/JoystickModel.cs:35-44 | the dragging flag and the drag vector are independent |
| Joystick.UpdateInputOverwrites | Assets/Scripts/Joystick/JoystickModel.cs:37-44 | only the latest handle offset matters |
| Joystick.CentredHandleInactive | Assets/Scripts/Joystick/JoystickModel.cs:37-44 | a centred handle gives zero direction, zero magnitude and no activity |
| JoystickMediator.Initialize | Assets/Scripts/Joystick/JoystickMediator.cs:32-39 | the model remembers the rectangle's resting position; nothing else changes |
| JoystickMediator.HandleTouchStarted | Assets/Scripts/Joystick/JoystickMediator.cs:59-67 | when the finger maps onto the canvas, the rectangle moves under it, the handle is centred and a press is published; otherwise nothing happens |
| JoystickMediator.HandleTouchEnded | Assets/Scripts/Joystick/JoystickMediator.cs:69-75 | the input is reset, the rectangle returns to rest, the handle is centred, and exactly one release is published |
| JoystickMediator.OutValue | Assets/Scripts/Joystick/JoystickMediator.cs:87 | the re-read local point is the converted point when the conversion succeeds, and the zero vector the engine writes to the out parameter when it fails |
| JoystickMediator.RelocateAmount | Assets/Scripts/Joystick/JoystickMediator.cs:84-85 | moving the rectangle by this amount leaves the local point exactly at the reach along its own direction |
| JoystickMediator.Relocate | Assets/Scripts/Joystick/JoystickMediator.cs:82-88 | within the relocate threshold nothing moves; beyond it the rectangle moves just far enough that the finger lies at the reach in its own direction, and when the conversion follows the rectangle the re-read point is exactly that rim point |
| JoystickMediator.HandleTouchMoved | Assets/Scripts/Joystick/JoystickMediator.cs:77-93 | a failed conversion changes nothing; otherwise the handle is the clamped point and the model's input is computed from it; nothing is published |
| JoystickMediator.Dispatch | Assets/Scripts/Joystick/JoystickMediator.cs:36-38 | a start goes to HandleTouchStarted, a move to HandleTouchMoved, an end to HandleTouchEnded; none of them publishes a drag or changes the setup |
| JoystickMediator.Tick | Assets/Scripts/Joystick/JoystickMediator.cs:41-50 | the model's flag follows the state machine; a drag is published exactly when the joystick is active, and it carries the model's vector; at most two events per frame |
| JoystickMediator.HeldDragMovesHandle | Assets/Scripts/Joystick/JoystickMediator.cs:41-50 | a frame that continues a drag with a held, mappable finger puts the handle at the clamped (possibly relocated) offset, feeds it to the model, keeps dragging, and publishes the new vector exactly when it is active |
| JoystickMediator.TickKeepsHandleWithinReach | Assets/Scripts/Joystick/JoystickMediator.cs:41-93 | the handle never ends a frame farther than the reach |
| JoystickMediator.DispatchKeepsHandleWithinReach | Assets/Scripts/Joystick/JoystickMediator.cs:59-93 | every handler keeps the handle within reach |
| JoystickMediator.StartedKeepsHandleWithinReach | Assets/Scripts/Joystick/JoystickMediator.cs:59-67 | a touch start keeps the handle within reach |
| JoystickMediator.EndedCentresHandle | Assets/Scripts/Joystick/JoystickMediator.cs:69-75 | a touch end leaves the handle within reach |
| JoystickMediator.TickKeepsQuietWhenIdle | Assets/Scripts/Joystick/JoystickMediator.cs:41-50 | a joystick that is not dragging has no input, frame after frame |
| JoystickMediator.TickReleasePublishesOnlyRelease | Assets/Scripts/Joystick/JoystickMediator.cs:69-75 | the frame a drag ends publishes the release alone and leaves the joystick idle |
| JoystickMediator.TickStartPublishesOnlyPress | Assets/Scripts/Joystick/JoystickMediator.cs:59-67 | the frame a drag starts from a quiet joystick publishes at most the press |
| JoystickMediator.PressNeedsMapping | Assets/Scripts/Joystick/JoystickMediator.cs:61-66 | a press is published only for a fresh press whose position maps onto the canvas |
| JoystickMediator.RelocatedHandleOnRim | Assets/Scripts/Joystick/JoystickMediator.cs:82-92 | after a relocation, the handle sits exactly on the rim when the moved rectangle maps consistently |
| JoystickMediator.DispatchKeepsDragBounded | Assets/Scripts/Joystick/JoystickMediator.cs:59-93 | the handlers keep the drag vector bounded |
| JoystickMediator.TickKeepsDragBounded | Assets/Scripts/Joystick/JoystickMediator.cs:41-50 | a frame keeps the drag vector bounded |
| JoystickMediator.TickPublishesBoundedDrag | Assets/Scripts/Joystick/JoystickMediator.cs:47-49 | every published drag has a direction of at most unit length and a magnitude in [0, 1] |
| Entity.NewEntityModel | Assets/Scripts/Entity/EntityModel.cs:26-38 | a new entity has the given tunables, stands still and is not turning |
| Entity.SetVelocity | Assets/Scripts/Entity/EntityModel.cs:40-45 | the velocity is the stick input times the maximum speed, laid on the ground plane; nothing else changes |
| Entity.SetMoving | Assets/Scripts/Entity/EntityModel.cs:47-55 | raising the flag keeps the motion; lowering it zeroes velocity and angular rate |
| Entity.StopIsFreshState | Assets/Scripts/Entity/EntityModel.cs:47-55 | a stopped entity equals a freshly built one |
| Entity.SetVelocityOverwrites | Assets/Scripts/Entity/EntityModel.cs:40-45 | steering twice keeps only the latest input |
| Entity.RaiseKeepsVelocity | Assets/Scripts/Entity/EntityModel.cs:47-52 | raising the flag after steering keeps the steered velocity |
| Entity.SetVelocitySpeed | Assets/Scripts/Entity/EntityModel.cs:40-45 | the squared speed is (magnitude × max speed)² times the squared direction length |
| Entity.SpeedWithinMax | Assets/Scripts/Entity/EntityModel.cs:40-45 | a stick input of at most unit length, with magnitude in [0, 1], never exceeds the maximum speed |
| Entity.CalculateRotationAngle | Assets/Scripts/Entity/EntityModel.cs:57-68 | a gap not greater than the minimum angle gives angle 0 and keeps the rate; otherwise the angle and rate smoothed over the given step; nothing but the rate changes |
| Entity.RateChangesOnlyBySmoothing | Assets/Scripts/Entity/EntityModel.cs:59-67 | a changed angular rate implies the gap exceeded the minimum angle |
| Entity.HalfTurnThresholdNeverTurns | Assets/Scripts/Entity/EntityModel.cs:59-60 | a minimum angle of 180 degrees or more never turns |
| BallHit.ExecuteHit | Assets/Scripts/UseCases/TriggerBallHitUseCase.cs:15-19 | a zero direction gives a zero impulse; otherwise the impulse has exactly the force's length and, scaled by the direction's length, equals the direction times the force |
| BallHit.HitAlongDirection | Assets/Scripts/UseCases/TriggerBallHitUseCase.cs:17 | with a positive force, the impulse points along the strike direction |
| BallHit.HitThroughNormalized | Assets/Scripts/Entity/EntityMediator.cs:62-64 | striking along the normalized direction is striking along the direction itself |
| BallHit.HitIgnoresDirectionLength | Assets/Scripts/UseCases/TriggerBallHitUseCase.cs:17 | only where the strike direction points matters, not its length |
| EntityMediator.Apply | Assets/Scripts/Entity/EntityView.cs:38-41 | a position move displaces the body by its offset and keeps the heading; a rotation sets the heading and keeps the position; animations and impulses leave the body alone |
| EntityMediator.ApplyAllConcat | Assets/Scripts/Entity/EntityView.cs:38-39 | two batches of view calls in a row act as one batch |
| EntityMediator.ApplyAllEffect | Assets/Scripts/Entity/EntityView.cs:38-39 | after a batch of view calls the body has moved by the sum of the offsets sent and faces the last heading sent, if any |
| EntityMediator.FacingAngle | Assets/Scripts/Entity/EntityMediator.cs:63 | the heading computed from Atan2 of the x and z components in degrees lies within half a turn either way |
| EntityMediator.FacingIgnoresHeight | Assets/Scripts/Entity/EntityMediator.cs:82 | only the ground-plane components of the velocity decide where the entity faces |
| EntityMediator.TriggerHit | Assets/Scripts/Entity/EntityMediator.cs:55-68 | beyond the hit radius nothing is sent; otherwise the entity turns to face the ball, strikes it with exactly the hit the use case makes along the offset to the ball (the extra normalization changes nothing), with an impulse of the force's length, and plays the hit animation, in that order |
| EntityMediator.StrikeCommandsOnlyTurn | Assets/Scripts/Entity/EntityMediator.cs:62-67 | the turn, impulse and animation of a strike change only the body's heading, never its position |
| EntityMediator.HandleCollision | Assets/Scripts/Entity/EntityMediator.cs:70 | a collision strikes exactly when the ball is within the hit radius, with the use case's hit along the offset to the ball at the hit force, whose length is the hit force |
| EntityMediator.FixedTick | Assets/Scripts/Entity/EntityMediator.cs:44-89 | the body moves by velocity times the step and the animation shows the moving flag; a rotation is sent only while moving, when the gap exceeds the minimum angle and the angle is nonzero; only the angular rate changes in the model |
| EntityMediator.StepMovesByVelocity | Assets/Scripts/Entity/EntityMediator.cs:72-89 | after a step the body has moved by exactly velocity times the step, and its heading is the sent angle, if any |
| EntityMediator.MovingStepTurnsBySmoothing | Assets/Scripts/Entity/EntityMediator.cs:72-89 | while moving, the model is the one the threshold-gated smoothing returns, and a rotation is sent exactly when its angle is nonzero, with that angle |
| EntityMediator.StoppedEntityStaysPut | Assets/Scripts/Entity/EntityMediator.cs:72-80 | a stopped entity neither moves nor turns, and its model is unchanged |
| Interception.CalculateInterceptionTime | Assets/Scripts/UseCases/PredictBallPositionUseCase.cs:34-41 | no value exactly when the code's division by zero leaves an infinite or NaN time; against a faster ball, the time × speed is the gap; otherwise the time is non-negative, equals the time until the ball reaches the entity, and is 0 for a receding ball or for a still ball on the entity's higher-x side |
| Interception.InterceptionTimeNonNegative | Assets/Scripts/UseCases/PredictBallPositionUseCase.cs:34-41 | with a positive speed and a moving ball, the time exists and is not negative |
| Interception.GetTargetPosition | Assets/Scripts/UseCases/PredictBallPositionUseCase.cs:20-32 | defined exactly when the time is; keeps the entity's y and z |
| Interception.ApproachingBallTargetsEntity | Assets/Scripts/UseCases/PredictBallPositionUseCase.cs:20-41 | a ball approaching an entity at least as fast as it meets it where it stands |
| Interception.RecedingBallTargetsBall | Assets/Scripts/UseCases/PredictBallPositionUseCase.cs:39-40 | a receding ball is targeted where it is now |
| Interception.FastBallTargetLeads | Assets/Scripts/UseCases/PredictBallPositionUseCase.cs:36-37 | against a faster ball, the target leads the ball by its velocity over the entity's travel time |
| Interception.StillBallTarget | Assets/Scripts/UseCases/PredictBallPositionUseCase.cs:25-40 | a ball with zero x-velocity is targeted where it is exactly when it is on the entity's higher-x side; otherwise there is no target |
| Interception.OnlyVelocityXConsulted | Assets/Scripts/UseCases/PredictBallPositionUseCase.cs:22-25 | only the ball's position and x-velocity affect the target |
| EnemyMediator.CalculateAIMovement | Assets/Scripts/Entity/Enemy/EnemyEntityMediator.cs:23-38 | no decision without a target; within 0.1 of the target the enemy stops; otherwise it moves at full speed along ±x toward it, keeping its angular rate |
| EnemyMediator.RunsTowardTarget | Assets/Scripts/Entity/Enemy/EnemyEntityMediator.cs:35-37 | outside the dead band, the velocity's x has the sign of the gap |
| EnemyMediator.WaitsForApproachingBall | Assets/Scripts/Entity/Enemy/EnemyEntityMediator.cs:23-33 | a ball approaching no faster than the enemy makes it stand still |
| EnemyMediator.FixedTick | Assets/Scripts/Entity/Enemy/EnemyEntityMediator.cs:16-21 | decide, then attempt a kick with the kick force, then move by the decided velocity; the model is the decision up to its angular rate |
| EnemyMediator.StepIsKickThenSharedStep | Assets/Scripts/Entity/Enemy/EnemyEntityMediator.cs:16-21 | the enemy's step is the kick attempt with the kick force followed by exactly the shared movement and turning step on the decided model |
| EnemyMediator.MovesByDecidedVelocity | Assets/Scripts/Entity/Enemy/EnemyEntityMediator.cs:16-21 | whether or not the kick lands, the enemy moves by exactly the decided velocity times the step |
| EnemyMediator.StopTakesEffectAtOnce | Assets/Scripts/Entity/Enemy/EnemyEntityMediator.cs:16-33 | a decision to stop means no displacement in the same step |
| PlayerMediator.OnJoystickEvent | Assets/Scripts/Entity/Player/PlayerEntityMediator.cs:50-64 | a drag sets the velocity only; a press raises the moving flag; a release stops the player and then attempts a kick with the kick force |
| PlayerMediator.ReleaseStopsWhetherOrNotKickLands | Assets/Scripts/Entity/Player/PlayerEntityMediator.cs:60-64 | after a release the player stands still and the body stays in place, whether or not the kick lands |
| PlayerMediator.PressKeepsVelocity | Assets/Scripts/Entity/Player/PlayerEntityMediator.cs:55-58 | a press keeps the steered velocity |
| PlayerMediator.JoystickDragWithinMaxSpeed | Assets/Scripts/Entity/Player/PlayerEntityMediator.cs:50-53 | a drag the joystick publishes never drives the player faster than its maximum speed |
| Ball.NewBallModel | Assets/Scripts/Ball/BallModel.cs:15-19 | tunables copied; the remembered direction starts at zero |
| Ball.GetRandomDirection | Assets/Scripts/Ball/BallModel.cs:21-28 | a unit vector on the ground plane, remembered by the model; its z has the opposite side of the remembered one (forward when that is 0); its x has the sign of the drawn value |
| Ball.Serves | Assets/Scripts/Ball/BallModel.cs:21-28 | successive serves, one per draw, each a unit vector on the ground plane whose x has the sign of its draw |
| Ball.ServesAlternate | Assets/Scripts/Ball/BallModel.cs:23-27 | successive serves alternate ends, starting from the side opposite the remembered one |
| Ball.FirstServeForward | Assets/Scripts/Ball/BallModel.cs:10-23 | a new ball's first serve points forward (+z) |
| BallMediator.Initialize | Assets/Scripts/Ball/BallMediator.cs:17-21 | the body is put back at rest at the spawn point; the impulse is the newly remembered serve direction times half the speed cap, on the ground plane with length half the cap |
| BallMediator.ServeImpulseAlternates | Assets/Scripts/Ball/BallMediator.cs:17-21 | with a positive cap, the serve impulse points to the end opposite the previous serve |
| BallMediator.FixedTick | Assets/Scripts/Ball/BallMediator.cs:23-29 | a missing view or model changes nothing; the position is always kept; with a non-negative cap the step is the engine's magnitude clamp of the velocity to the cap |
| BallMediator.FixedTickCapsSpeed | Assets/Scripts/Ball/BallMediator.cs:25-28 | with a non-negative cap, a body at or under the cap is unchanged, and one over it moves exactly at the cap afterwards |
| BallMediator.FixedTickIdempotent | Assets/Scripts/Ball/BallMediator.cs:23-29 | a second step right after a clamp changes nothing |
| BallMediator.FixedTickKeepsDirection | Assets/Scripts/Ball/BallView.cs:27-30 | a clamp with a positive cap keeps the direction of travel |
| UnityMath.Normalized2 | Assets/Scripts/Joystick/JoystickModel.cs:41 | zero for zero; otherwise a unit vector that, scaled by the length, gives the input back |
| UnityMath.ClampMagnitude2 | Assets/Scripts/Joystick/JoystickMediator.cs:90 | a vector within the limit is unchanged; otherwise the result has the limit's length along the same direction |
| UnityMath.ClampMagnitudeIdempotent2 | Assets/Scripts/Joystick/JoystickMediator.cs:90 | clamping twice is clamping once |
| UnityMath.ClampMagnitude3 | Assets/Scripts/Ball/BallView.cs:27-30 | a velocity within the cap is kept; one over it becomes the unit vector along it times the cap, whose length is the cap |
| UnityMath.Magnitude2 | Assets/Scripts/Joystick/JoystickModel.cs:42 | the length is non-negative, and zero exactly for the zero vector |
| UnityMath.MagnitudeSquared2 | Assets/Scripts/Joystick/JoystickModel.cs:42 | the length squared is the squared length |
| UnityMath.Magnitude3 | Assets/Scripts/Ball/BallView.cs:13 | the length is non-negative, and zero exactly for the zero vector |
| UnityMath.MagnitudeSquared3 | Assets/Scripts/Ball/BallView.cs:13 | the length squared is the squared length |
| UnityMath.Normalized3 | Assets/Scripts/Ball/BallView.cs:29 | zero for zero; otherwise a unit vector that, scaled by the length, gives the input back |

## Left out

- `EditorTouchInputUseCase` reads the mouse through the engine. It is represented only by the abstract `InputProvider` that the state machine polls.
- `PredictBallPositionUseCase.GetCurrentBallPosition` (PredictBallPositionUseCase.cs:15-18) only reads the ball body's position. The model reads the `BallBody.position` field directly.
- Dependency injection, the repositories, the lifetime scope and the event-bus subscription and `Dispose` bookkeeping are wiring with no game logic. Events are delivered by direct calls.
- Physics is not modelled:
  - how the rigid body responds to `AddForce` (the model returns the impulse);
  - collision detection;
  - the filter on kinematic or body-less colliders in `EntityView.OnCollisionEnter`;
  - the deferred effect of `MoveRotation` (the enemy's body is read once, at the start of its step);
  - Euler-angle normalisation of the heading.
- Animation parameters appear only as the `MoveAnimation` and `HitAnimation` commands.
- `Random.Range(-1f, 1f)` in the serve is the parameter `x`. Its range is not assumed.
- Floating point is not modelled:
  - single-precision arithmetic is taken as exact real arithmetic;
  - literals such as `0.1f` and `0.001f` are the reals they denote, not their nearest floats; `Mathf.PI` and `Mathf.Rad2Deg` are written as their exact single-precision values;
  - NaN and infinity are not modelled. A division by zero that leaves the engine with an infinite or NaN time or target gives `None`, and what the engine then does (for example, which way the enemy runs) is not modelled. This covers a ball with zero x-velocity level with the entity or on its lower-x side, and a zero entity speed against a moving ball. The one finite case of a division by zero, a zero x-velocity with the ball on the entity's higher-x side, is modelled: the time is 0.
- `Normalized2` and `Normalized3` return zero only for the zero vector. The engine also returns zero for lengths below 1e-5.
- `Atan2`, `DeltaAngle` and `SmoothDampAngle` are uninterpreted, except for the ranges of `Atan2` and `DeltaAngle`. Properties of the smoothing itself, such as not overshooting, are not stated.
- `ScreenPointToLocalPointInRectangle` is the `CanvasMapping` parameter. The failure case is kept; the camera and canvas geometry are not.
- The inspector's `[Range]` attributes on `JoystickData` and `BallData` are editor-only clamps and are not enforced. The joystick operations that divide by the reach require it to be nonzero, which `OnValidate` guarantees.
- `BallView.Speed` returns 0 when the view has no rigid body, and `ResetPosition` also zeroes the angular velocity. Neither is modelled: `BallBody` has a position and a linear velocity only.
- BallMediator.FixedTick: says nothing about the velocity for a negative cap, which `BallData`'s range excludes. With such a cap the engine's rescale would reverse the velocity; the model computes the same value.
