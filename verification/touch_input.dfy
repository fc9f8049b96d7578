/** The touch-input state machine: each frame the handler polls one input
    sample and, depending on whether a drag is in progress, reports a touch
    start, move or end. The touchscreen sample mapper is modelled alongside it;
    the mouse mapper used in the editor reads the engine directly and is
    represented only by the abstract `InputProvider`. */
module TouchInput {
  import opened UnityMath

  /** One polled sample: the touch position and the down/up/held flags. */
  datatype InputState = InputState(position: Vec2, isDown: bool, isUp: bool, isHeld: bool)

  datatype TouchEvent = TouchStarted(position: Vec2) | TouchMoved(position: Vec2) | TouchEnded

  /** A sample source. It receives the dragging flag that the handler stores
      just before polling, which is the flag the caller passed in. */
  type InputProvider = bool -> InputState

  /** The flag written back through the `ref` parameter, and the events raised. */
  datatype HandleResult = HandleResult(isDragging: bool, events: seq<TouchEvent>)

  /** One frame of input handling. */
  function HandleInput(isDragging: bool, provider: InputProvider): (r: HandleResult)
    ensures var s := provider(isDragging);
      && |r.events| <= 1
      && (r.isDragging != isDragging <==> r.events == [TouchStarted(s.position)] || r.events == [TouchEnded])
      && (!isDragging ==> (r.isDragging <==> s.isDown))
      && (isDragging ==> (r.isDragging <==> !s.isUp))
      && (forall e :: e in r.events && e.TouchMoved? ==> isDragging && e == TouchMoved(s.position))
  {
    var s := provider(isDragging);
    if !isDragging then
      if s.isDown then HandleResult(true, [TouchStarted(s.position)])
      else HandleResult(false, [])
    else if s.isUp then HandleResult(false, [TouchEnded])
    else if s.isHeld then HandleResult(true, [TouchMoved(s.position)])
    else HandleResult(true, [])
  }

  /** Idle with a press: exactly one start event at the sample position. */
  lemma IdlePressStarts(provider: InputProvider)
    requires provider(false).isDown
    ensures HandleInput(false, provider) == HandleResult(true, [TouchStarted(provider(false).position)])
  {
  }

  /** Idle without a press: nothing happens, whatever the up and held flags say. */
  lemma IdleWithoutPressIgnored(provider: InputProvider)
    requires !provider(false).isDown
    ensures HandleInput(false, provider) == HandleResult(false, [])
  {
  }

  /** While dragging, a release ends the drag even when the sample is also held. */
  lemma ReleaseWinsOverHeld(provider: InputProvider)
    requires provider(true).isUp
    ensures HandleInput(true, provider) == HandleResult(false, [TouchEnded])
  {
  }

  /** While dragging, a held sample without release reports a move at the sample position. */
  lemma HeldMoves(provider: InputProvider)
    requires !provider(true).isUp && provider(true).isHeld
    ensures HandleInput(true, provider) == HandleResult(true, [TouchMoved(provider(true).position)])
  {
  }

  /** While dragging, a sample with neither flag keeps the drag silently. */
  lemma DraggingQuietSample(provider: InputProvider)
    requires !provider(true).isUp && !provider(true).isHeld
    ensures HandleInput(true, provider) == HandleResult(true, [])
  {
  }

  /** The provider sees the caller's flag: two providers that agree on that
      flag's sample give the same frame. */
  lemma PollsWithCallerFlag(isDragging: bool, p: InputProvider, q: InputProvider)
    requires p(isDragging) == q(isDragging)
    ensures HandleInput(isDragging, p) == HandleInput(isDragging, q)
  {
  }

  /** Successive frames, each fed the flag the previous one returned. */
  function Run(isDragging: bool, providers: seq<InputProvider>): (r: HandleResult)
    ensures |r.events| <= |providers|
    decreases |providers|
  {
    if |providers| == 0 then HandleResult(isDragging, [])
    else
      var h := HandleInput(isDragging, providers[0]);
      var rest := Run(h.isDragging, providers[1..]);
      HandleResult(rest.isDragging, h.events + rest.events)
  }

  /** `events` is a legal event stream from state `start` to state `end`: a
      start only when idle, moves and an end only while dragging. */
  ghost predicate Bracketed(start: bool, events: seq<TouchEvent>, end: bool)
    decreases |events|
  {
    if |events| == 0 then start == end
    else match events[0]
      case TouchStarted(_) => !start && Bracketed(true, events[1..], end)
      case TouchMoved(_) => start && Bracketed(true, events[1..], end)
      case TouchEnded => start && Bracketed(false, events[1..], end)
  }

  lemma FrameIsBracketed(isDragging: bool, provider: InputProvider)
    ensures Bracketed(isDragging, HandleInput(isDragging, provider).events, HandleInput(isDragging, provider).isDragging)
  {
    var h := HandleInput(isDragging, provider);
    if |h.events| == 1 {
      assert h.events[1..] == [];
    }
  }

  lemma {:induction false} BracketedAppend(a: bool, e1: seq<TouchEvent>, b: bool, e2: seq<TouchEvent>, c: bool)
    requires Bracketed(a, e1, b) && Bracketed(b, e2, c)
    ensures Bracketed(a, e1 + e2, c)
    decreases |e1|
  {
    if |e1| == 0 {
      assert e1 + e2 == e2;
    } else {
      assert (e1 + e2)[0] == e1[0];
      assert (e1 + e2)[1..] == e1[1..] + e2;
      match e1[0]
      case TouchStarted(_) => BracketedAppend(true, e1[1..], b, e2, c);
      case TouchMoved(_) => BracketedAppend(true, e1[1..], b, e2, c);
      case TouchEnded => BracketedAppend(false, e1[1..], b, e2, c);
    }
  }

  /** Any run of frames raises a legal event stream: starts and ends
      alternate, moves occur only between them, and the final flag is the
      state the stream leaves. */
  lemma {:induction false} RunIsBracketed(isDragging: bool, providers: seq<InputProvider>)
    ensures Bracketed(isDragging, Run(isDragging, providers).events, Run(isDragging, providers).isDragging)
    decreases |providers|
  {
    if |providers| > 0 {
      var h := HandleInput(isDragging, providers[0]);
      FrameIsBracketed(isDragging, providers[0]);
      RunIsBracketed(h.isDragging, providers[1..]);
      var rest := Run(h.isDragging, providers[1..]);
      BracketedAppend(isDragging, h.events, h.isDragging, rest.events, rest.isDragging);
    }
  }

  // ---- touchscreen samples ---------------------------------------------------

  datatype TouchPhase = PhaseNone | Began | Moved | Ended | Canceled | Stationary

  datatype Touch = Touch(position: Vec2, phase: TouchPhase)

  /** The touch device; `None` stands for no touchscreen being present. */
  datatype Touchscreen = Touchscreen(touches: seq<Touch>)

  /** The touchscreen sample: the first touch decides, and a touch that
      vanished while dragging counts as a release. */
  function MobileInputState(screen: Option<Touchscreen>, isDragging: bool): (s: InputState)
    ensures screen.Some? && |screen.value.touches| > 0 ==>
      var t := screen.value.touches[0];
      && s.position == t.position
      && (s.isDown <==> t.phase == Began)
      && (s.isUp <==> t.phase == Ended || t.phase == Canceled)
      && (s.isHeld <==> t.phase == Moved || t.phase == Stationary)
    ensures !(screen.Some? && |screen.value.touches| > 0) ==>
      s == InputState(Zero2, false, isDragging, false)
    ensures !(s.isDown && s.isUp) && !(s.isDown && s.isHeld) && !(s.isUp && s.isHeld)
  {
    if screen.Some? && |screen.value.touches| > 0 then
      var t := screen.value.touches[0];
      InputState(t.position, t.phase == Began, t.phase == Ended || t.phase == Canceled,
                 t.phase == Moved || t.phase == Stationary)
    else if isDragging then InputState(Zero2, false, true, false)
    else InputState(Zero2, false, false, false)
  }

  function MobileProvider(screen: Option<Touchscreen>): InputProvider
  {
    (isDragging: bool) => MobileInputState(screen, isDragging)
  }

  /** A touch that is neither beginning, ending nor moving raises no flag. */
  lemma UnknownPhaseSilent(screen: Option<Touchscreen>, isDragging: bool)
    requires screen.Some? && |screen.value.touches| > 0
    requires screen.value.touches[0].phase == PhaseNone
    ensures var s := MobileInputState(screen, isDragging); !s.isDown && !s.isUp && !s.isHeld
  {
  }

  /** Touches vanishing while dragging end the drag. */
  lemma VanishedTouchEndsDrag(screen: Option<Touchscreen>)
    requires !(screen.Some? && |screen.value.touches| > 0)
    ensures HandleInput(true, MobileProvider(screen)) == HandleResult(false, [TouchEnded])
  {
  }

  /** Without a touch and without a drag, a frame does nothing. */
  lemma NoTouchIdle(screen: Option<Touchscreen>)
    requires !(screen.Some? && |screen.value.touches| > 0)
    ensures HandleInput(false, MobileProvider(screen)) == HandleResult(false, [])
  {
  }

  /** A complete gesture, began, moved and lifted, raises start, move and end in order. */
  lemma Gesture(p: Vec2, q: Vec2, r: Vec2)
    ensures Run(false, [MobileProvider(Some(Touchscreen([Touch(p, Began)]))),
                        MobileProvider(Some(Touchscreen([Touch(q, Moved)]))),
                        MobileProvider(Some(Touchscreen([Touch(r, Ended)])))])
            == HandleResult(false, [TouchStarted(p), TouchMoved(q), TouchEnded])
  {
    var ps := [MobileProvider(Some(Touchscreen([Touch(p, Began)]))),
               MobileProvider(Some(Touchscreen([Touch(q, Moved)]))),
               MobileProvider(Some(Touchscreen([Touch(r, Ended)])))];
    assert ps[1..][1..][1..] == [];
    assert Run(false, ps[1..][1..][1..]) == HandleResult(false, []);
    assert Run(true, ps[1..][1..]) == HandleResult(false, [TouchEnded]);
    assert Run(true, ps[1..]) == HandleResult(false, [TouchMoved(q), TouchEnded]);
  }
}
