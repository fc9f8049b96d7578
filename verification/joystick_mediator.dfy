/** The joystick mediator: it runs the input state machine each frame,
    repositions the joystick on touch start and end, moves the handle on touch
    moves, and publishes pressed, released and drag events
    (Assets/Scripts/Joystick/JoystickMediator.cs). The view is a snapshot of
    the two positions the mediator writes; the engine's screen-to-rectangle
    conversion is a parameter. */
module JoystickMediator {
  import opened UnityMath
  import opened Joystick
  import opened TouchInput

  /** The anchored position of the joystick rectangle and of its handle. */
  datatype JoystickView = JoystickView(anchoredPosition: Vec2, handlePosition: Vec2)

  datatype JoystickState = JoystickState(model: JoystickModel, view: JoystickView)

  datatype JoystickEvent = JoystickDrag(direction: Vec2, magnitude: real) | JoystickPressed | JoystickReleased

  /** The engine's ScreenPointToLocalPointInRectangle, which fails (None) when
      the screen point cannot be mapped: `toCanvas` into the parent canvas,
      `toLocal` into the joystick rectangle placed at the given anchor. */
  datatype CanvasMapping = CanvasMapping(toCanvas: Vec2 -> Option<Vec2>, toLocal: (Vec2, Vec2) -> Option<Vec2>)

  /** The state after a handler, and the events it published in order. */
  datatype Outcome = Outcome(state: JoystickState, published: seq<JoystickEvent>)

  /** The engine writes zero to the out parameter before trying, so a failed
      conversion whose result is used anyway yields the zero vector. */
  function OutValue(p: Option<Vec2>): (r: Vec2)
    ensures p.Some? ==> r == p.value
    ensures p.None? ==> r == Zero2
  {
    match p
    case Some(v) => v
    case None => Zero2
  }

  /** Initialize: remember the rectangle's resting position. */
  function Initialize(model: JoystickModel, view: JoystickView): (s: JoystickState)
    ensures s.model.originalPosition == view.anchoredPosition && s.view == view
    ensures s.model.(originalPosition := model.originalPosition) == model
    ensures SameSetup(s.model, model.(originalPosition := s.model.originalPosition))
  {
    JoystickState(SetOriginalPosition(model, view.anchoredPosition), view)
  }

  /** HandleTouchStarted: move the joystick under the finger and centre the
      handle, announcing the press, but only when the screen point maps into
      the canvas. */
  function HandleTouchStarted(s: JoystickState, canvas: CanvasMapping, screen: Vec2): (o: Outcome)
    ensures o.state.model == s.model
    ensures canvas.toCanvas(screen).None? ==> o == Outcome(s, [])
    ensures canvas.toCanvas(screen).Some? ==>
      o.published == [JoystickPressed]
      && o.state.view == JoystickView(canvas.toCanvas(screen).value, Zero2)
  {
    match canvas.toCanvas(screen)
    case Some(p) => Outcome(JoystickState(s.model, JoystickView(p, Zero2)), [JoystickPressed])
    case None => Outcome(s, [])
  }

  /** HandleTouchEnded: forget the input, centre the handle, return the
      joystick to its resting position and announce the release. */
  function HandleTouchEnded(s: JoystickState): (o: Outcome)
    ensures o.published == [JoystickReleased]
    ensures Idle(o.state.model) && SameSetup(o.state.model, s.model)
    ensures o.state.view == JoystickView(s.model.originalPosition, Zero2)
  {
    var model := ResetInput(s.model);
    Outcome(JoystickState(model, JoystickView(model.originalPosition, Zero2)), [JoystickReleased])
  }

  /** The displacement that brings a local point farther than the relocate
      threshold back to the rim: along the point's direction, by its distance
      beyond the reach. */
  function RelocateAmount(k: Kernel, local: Vec2, maxDistance: real): (d: Vec2)
    requires Valid(k)
    ensures Sub2(local, d) == Scale2(Normalized2(k, local), maxDistance)
  {
    var n := Normalized2(k, local);
    var amount := Scale2(n, Magnitude2(k, local) - maxDistance);
    RimAfterRelocation(local, n, Magnitude2(k, local), maxDistance);
    amount
  }

  lemma RimAfterRelocation(local: Vec2, n: Vec2, m: real, maxDistance: real)
    requires Scale2(n, m) == local
    ensures Sub2(local, Scale2(n, m - maxDistance)) == Scale2(n, maxDistance)
  {
  }

  /** Where the rectangle sits and where the finger falls inside it. */
  datatype Placement = Placement(anchor: Vec2, point: Vec2)

  /** The relocation step of HandleTouchMoved: a local point beyond the
      relocate threshold drags the rectangle after it, just far enough that
      the finger ends up at the reach in its own direction, and is mapped
      again from the moved rectangle. */
  function Relocate(k: Kernel, s: JoystickState, canvas: CanvasMapping, screen: Vec2, local: Vec2): (p: Placement)
    requires Valid(k)
    ensures Magnitude2(k, local) <= s.model.relocateThreshold ==> p == Placement(s.view.anchoredPosition, local)
    ensures Magnitude2(k, local) > s.model.relocateThreshold ==>
      && p.anchor == Add2(s.view.anchoredPosition, RelocateAmount(k, local, s.model.maxDistance))
      && p.point == OutValue(canvas.toLocal(p.anchor, screen))
    ensures Magnitude2(k, local) > s.model.relocateThreshold ==>
      Sub2(local, Sub2(p.anchor, s.view.anchoredPosition)) == Scale2(Normalized2(k, local), s.model.maxDistance)
    ensures (&& Magnitude2(k, local) > s.model.relocateThreshold
             && canvas.toLocal(s.view.anchoredPosition, screen) == Some(local)
             && MovesWithRectangle(canvas, s.view.anchoredPosition, Sub2(p.anchor, s.view.anchoredPosition), screen))
      ==> p.point == Scale2(Normalized2(k, local), s.model.maxDistance)
  {
    if Magnitude2(k, local) > s.model.relocateThreshold then
      var moved := Add2(s.view.anchoredPosition, RelocateAmount(k, local, s.model.maxDistance));
      Placement(moved, OutValue(canvas.toLocal(moved, screen)))
    else Placement(s.view.anchoredPosition, local)
  }

  /** HandleTouchMoved: map the finger into the joystick rectangle, relocate
      if it is too far, then clamp the offset to the reach and feed it to the
      model and the handle. A finger that cannot be mapped changes nothing. */
  function HandleTouchMoved(k: Kernel, s: JoystickState, canvas: CanvasMapping, screen: Vec2): (o: Outcome)
    requires Valid(k) && s.model.maxDistance != 0.0
    ensures o.published == [] && SameSetup(o.state.model, s.model)
    ensures canvas.toLocal(s.view.anchoredPosition, screen).None? ==> o.state == s
    ensures canvas.toLocal(s.view.anchoredPosition, screen).Some? ==>
      var p := Relocate(k, s, canvas, screen, canvas.toLocal(s.view.anchoredPosition, screen).value);
      && o.state.view.anchoredPosition == p.anchor
      && o.state.view.handlePosition == ClampMagnitude2(k, p.point, s.model.maxDistance)
      && o.state.model == UpdateInput(k, s.model, o.state.view.handlePosition)
    ensures HandleWithinReach(s) ==> HandleWithinReach(o.state)
  {
    match canvas.toLocal(s.view.anchoredPosition, screen)
    case None => Outcome(s, [])
    case Some(local) =>
      var p := Relocate(k, s, canvas, screen, local);
      var offset := ClampMagnitude2(k, p.point, s.model.maxDistance);
      Outcome(JoystickState(UpdateInput(k, s.model, offset), JoystickView(p.anchor, offset)), [])
  }

  /** Each raised touch event goes synchronously to its handler. */
  function Dispatch(k: Kernel, s: JoystickState, canvas: CanvasMapping, e: TouchEvent): (o: Outcome)
    requires Valid(k) && s.model.maxDistance != 0.0
    ensures SameSetup(o.state.model, s.model)
    ensures forall ev :: ev in o.published ==> !ev.JoystickDrag?
    ensures e.TouchStarted? ==> o == HandleTouchStarted(s, canvas, e.position)
    ensures e.TouchMoved? ==> o == HandleTouchMoved(k, s, canvas, e.position)
    ensures e.TouchEnded? ==> o == HandleTouchEnded(s)
  {
    match e
    case TouchStarted(p) => HandleTouchStarted(s, canvas, p)
    case TouchMoved(p) => HandleTouchMoved(k, s, canvas, p)
    case TouchEnded => HandleTouchEnded(s)
  }

  /** Tick: run the state machine on the model's dragging flag, dispatching
      what it raises, store the returned flag, and publish the drag vector
      when the model is active. */
  function Tick(k: Kernel, s: JoystickState, canvas: CanvasMapping, provider: InputProvider): (o: Outcome)
    requires Valid(k) && s.model.maxDistance != 0.0
    ensures o.state.model.isDragging == HandleInput(s.model.isDragging, provider).isDragging
    ensures SameSetup(o.state.model, s.model)
    ensures o.state.model.isActive <==> JoystickDrag(o.state.model.direction, o.state.model.magnitude) in o.published
    ensures forall ev :: ev in o.published && ev.JoystickDrag? ==>
      ev == JoystickDrag(o.state.model.direction, o.state.model.magnitude)
    ensures |o.published| <= 2
  {
    var h := HandleInput(s.model.isDragging, provider);
    var d := if |h.events| == 0 then Outcome(s, []) else Dispatch(k, s, canvas, h.events[0]);
    var model := SetDragging(d.state.model, h.isDragging);
    var drag := if model.isActive then [JoystickDrag(model.direction, model.magnitude)] else [];
    Outcome(JoystickState(model, d.state.view), d.published + drag)
  }

  /** A frame that continues a drag with a held finger that maps into the
      rectangle moves the handle to the clamped, possibly relocated, finger
      offset, feeds that offset to the model, keeps the drag going, and
      publishes the new vector exactly when it is active. */
  lemma HeldDragMovesHandle(k: Kernel, s: JoystickState, canvas: CanvasMapping, provider: InputProvider)
    requires Valid(k) && s.model.maxDistance != 0.0 && s.model.isDragging
    requires !provider(true).isUp && provider(true).isHeld
    requires canvas.toLocal(s.view.anchoredPosition, provider(true).position).Some?
    ensures var screen := provider(true).position;
      var local := canvas.toLocal(s.view.anchoredPosition, screen).value;
      var p := Relocate(k, s, canvas, screen, local);
      var o := Tick(k, s, canvas, provider);
      && o.state.view == JoystickView(p.anchor, ClampMagnitude2(k, p.point, s.model.maxDistance))
      && o.state.model == UpdateInput(k, s.model, o.state.view.handlePosition)
      && o.state.model.isDragging
      && o.published == (if o.state.model.isActive then [JoystickDrag(o.state.model.direction, o.state.model.magnitude)] else [])
  {
    var screen := provider(true).position;
    HeldMoves(provider);
    var moved := HandleTouchMoved(k, s, canvas, screen);
    assert Dispatch(k, s, canvas, TouchMoved(screen)) == moved;
    assert SetDragging(moved.state.model, true) == moved.state.model;
  }

  /** The handle never sits beyond the reach. */
  predicate HandleWithinReach(s: JoystickState) {
    SqrMagnitude2(s.view.handlePosition) <= Sq(s.model.maxDistance)
  }

  /** Without a drag there is no input. */
  predicate QuietWhenIdle(s: JoystickState) {
    !s.model.isDragging ==> !s.model.isActive
  }

  lemma {:induction false} TickKeepsHandleWithinReach(k: Kernel, s: JoystickState, canvas: CanvasMapping, provider: InputProvider)
    requires Valid(k) && s.model.maxDistance != 0.0 && HandleWithinReach(s)
    ensures HandleWithinReach(Tick(k, s, canvas, provider).state)
  {
    var h := HandleInput(s.model.isDragging, provider);
    if |h.events| > 0 {
      DispatchKeepsHandleWithinReach(k, s, canvas, h.events[0]);
    }
  }

  lemma DispatchKeepsHandleWithinReach(k: Kernel, s: JoystickState, canvas: CanvasMapping, e: TouchEvent)
    requires Valid(k) && s.model.maxDistance != 0.0 && HandleWithinReach(s)
    ensures HandleWithinReach(Dispatch(k, s, canvas, e).state)
  {
    match e
    case TouchStarted(p) => StartedKeepsHandleWithinReach(s, canvas, p);
    case TouchMoved(p) =>
    case TouchEnded => EndedCentresHandle(s);
  }

  lemma StartedKeepsHandleWithinReach(s: JoystickState, canvas: CanvasMapping, screen: Vec2)
    requires HandleWithinReach(s)
    ensures HandleWithinReach(HandleTouchStarted(s, canvas, screen).state)
  {
    if canvas.toCanvas(screen).Some? {
      SqNonNegative(s.model.maxDistance);
      SqrMagnitudeZero2();
    }
  }

  lemma EndedCentresHandle(s: JoystickState)
    ensures HandleWithinReach(HandleTouchEnded(s).state)
  {
    SqNonNegative(s.model.maxDistance);
    SqrMagnitudeZero2();
  }

  lemma TickKeepsQuietWhenIdle(k: Kernel, s: JoystickState, canvas: CanvasMapping, provider: InputProvider)
    requires Valid(k) && s.model.maxDistance != 0.0 && QuietWhenIdle(s)
    ensures QuietWhenIdle(Tick(k, s, canvas, provider).state)
  {
  }

  /** A frame in which the touch ends publishes the release and nothing else,
      and leaves the joystick idle at its resting position. */
  lemma TickReleasePublishesOnlyRelease(k: Kernel, s: JoystickState, canvas: CanvasMapping, provider: InputProvider)
    requires Valid(k) && s.model.maxDistance != 0.0
    requires s.model.isDragging && provider(true).isUp
    ensures var o := Tick(k, s, canvas, provider);
      && o.published == [JoystickReleased]
      && Idle(o.state.model)
      && o.state.view == JoystickView(s.model.originalPosition, Zero2)
  {
  }

  /** A frame that starts a drag from a quiet idle joystick publishes the
      press when the finger maps into the canvas, and nothing otherwise. */
  lemma TickStartPublishesOnlyPress(k: Kernel, s: JoystickState, canvas: CanvasMapping, provider: InputProvider)
    requires Valid(k) && s.model.maxDistance != 0.0 && QuietWhenIdle(s)
    requires !s.model.isDragging && provider(false).isDown
    ensures var o := Tick(k, s, canvas, provider);
      && o.state.model.isDragging
      && o.published == (if canvas.toCanvas(provider(false).position).Some? then [JoystickPressed] else [])
  {
  }

  /** The press is announced only when a drag starts and the finger maps into the canvas. */
  lemma PressNeedsMapping(k: Kernel, s: JoystickState, canvas: CanvasMapping, provider: InputProvider)
    requires Valid(k) && s.model.maxDistance != 0.0
    requires JoystickPressed in Tick(k, s, canvas, provider).published
    ensures !s.model.isDragging && provider(false).isDown && canvas.toCanvas(provider(false).position).Some?
  {
  }

  /** The local-point conversion follows the rectangle when it is moved by `d`. */
  predicate MovesWithRectangle(canvas: CanvasMapping, anchor: Vec2, d: Vec2, screen: Vec2) {
    canvas.toLocal(anchor, screen).Some? ==>
      canvas.toLocal(Add2(anchor, d), screen) == Some(Sub2(canvas.toLocal(anchor, screen).value, d))
  }

  lemma OnRim(n: Vec2, maxDistance: real)
    requires SqrMagnitude2(n) == 1.0
    ensures SqrMagnitude2(Scale2(n, maxDistance)) == Sq(maxDistance)
  {
    SqrMagnitudeScale2(n, maxDistance);
  }

  /** When the finger is past the relocate threshold and the conversion
      follows the rectangle, the relocated joystick puts the handle exactly at
      the reach, in the finger's direction, at full magnitude. */
  lemma RelocatedHandleOnRim(k: Kernel, s: JoystickState, canvas: CanvasMapping, screen: Vec2)
    requires Valid(k) && 0.0 < s.model.maxDistance <= s.model.relocateThreshold
    requires canvas.toLocal(s.view.anchoredPosition, screen).Some?
    requires var local := canvas.toLocal(s.view.anchoredPosition, screen).value;
      && Magnitude2(k, local) > s.model.relocateThreshold
      && MovesWithRectangle(canvas, s.view.anchoredPosition, RelocateAmount(k, local, s.model.maxDistance), screen)
    ensures var local := canvas.toLocal(s.view.anchoredPosition, screen).value;
      var o := HandleTouchMoved(k, s, canvas, screen);
      && o.state.view.handlePosition == Scale2(Normalized2(k, local), s.model.maxDistance)
      && SqrMagnitude2(o.state.view.handlePosition) == Sq(s.model.maxDistance)
      && o.state.model.magnitude == 1.0
  {
    var local := canvas.toLocal(s.view.anchoredPosition, screen).value;
    var n := Normalized2(k, local);
    OnRim(n, s.model.maxDistance);
    var handle := Scale2(n, s.model.maxDistance);
    MagnitudeSaturates(k, s.model, handle);
  }

  lemma DispatchKeepsDragBounded(k: Kernel, s: JoystickState, canvas: CanvasMapping, e: TouchEvent)
    requires Valid(k) && s.model.maxDistance != 0.0 && DragBounded(s.model)
    ensures DragBounded(Dispatch(k, s, canvas, e).state.model)
  {
    match e
    case TouchStarted(p) =>
    case TouchMoved(p) =>
      var o := HandleTouchMoved(k, s, canvas, p);
      if canvas.toLocal(s.view.anchoredPosition, p).Some? {
        DragVectorsBounded(k, s.model, o.state.view.handlePosition, false);
      }
    case TouchEnded => DragVectorsBounded(k, s.model, Zero2, false);
  }

  lemma TickKeepsDragBounded(k: Kernel, s: JoystickState, canvas: CanvasMapping, provider: InputProvider)
    requires Valid(k) && s.model.maxDistance != 0.0 && DragBounded(s.model)
    ensures DragBounded(Tick(k, s, canvas, provider).state.model)
  {
    var h := HandleInput(s.model.isDragging, provider);
    if |h.events| > 0 {
      DispatchKeepsDragBounded(k, s, canvas, h.events[0]);
    }
  }

  /** A bounded drag vector has a direction of at most unit length. */
  lemma BoundedDirection(m: JoystickModel)
    requires DragBounded(m)
    ensures SqrMagnitude2(m.direction) <= 1.0
  {
    if m.direction == Zero2 {
      SqrMagnitudeZero2();
    }
  }

  /** Every drag event a frame publishes carries a direction of at most unit
      length and a magnitude in [0, 1], provided the model starts out with
      such a drag vector (as a new model does). */
  lemma TickPublishesBoundedDrag(k: Kernel, s: JoystickState, canvas: CanvasMapping, provider: InputProvider)
    requires Valid(k) && s.model.maxDistance != 0.0 && DragBounded(s.model)
    ensures forall ev :: ev in Tick(k, s, canvas, provider).published && ev.JoystickDrag? ==>
      SqrMagnitude2(ev.direction) <= 1.0 && 0.0 <= ev.magnitude <= 1.0
  {
    TickKeepsDragBounded(k, s, canvas, provider);
    BoundedDirection(Tick(k, s, canvas, provider).state.model);
  }
}
