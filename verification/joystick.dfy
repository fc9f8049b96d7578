/** The joystick's state: the tunables copied from its configuration, the
    resting anchor, and the drag vector derived from the handle offset
    (Assets/Scripts/Joystick/JoystickModel.cs). */
module Joystick {
  import opened UnityMath
  import opened JoystickConfig

  datatype JoystickModel = JoystickModel(
    originalPosition: Vec2,
    maxDistance: real,
    relocateThreshold: real,
    inputDeadZone: real,
    direction: Vec2,
    magnitude: real,
    isActive: bool,
    isDragging: bool)

  /** The model and `m` agree on everything but the drag vector and flags. */
  predicate SameSetup(r: JoystickModel, m: JoystickModel) {
    && r.originalPosition == m.originalPosition
    && r.maxDistance == m.maxDistance
    && r.relocateThreshold == m.relocateThreshold
    && r.inputDeadZone == m.inputDeadZone
  }

  /** The state with no input: zero drag vector, inactive, not dragging. */
  predicate Idle(m: JoystickModel) {
    m.direction == Zero2 && m.magnitude == 0.0 && !m.isActive && !m.isDragging
  }

  /** The drag vectors the model can hold: a unit or zero direction and a
      magnitude in [0, 1]. */
  predicate DragBounded(m: JoystickModel) {
    (m.direction == Zero2 || SqrMagnitude2(m.direction) == 1.0) && 0.0 <= m.magnitude <= 1.0
  }

  /** The constructor copies the tunables; every other field starts at its zero value. */
  function NewJoystickModel(data: JoystickData): (m: JoystickModel)
    ensures Idle(m) && m.originalPosition == Zero2
    ensures m.maxDistance == data.maxDistance && m.relocateThreshold == data.relocateThreshold
            && m.inputDeadZone == data.inputDeadZone
  {
    JoystickModel(Zero2, data.maxDistance, data.relocateThreshold, data.inputDeadZone,
                  Zero2, 0.0, false, false)
  }

  function SetOriginalPosition(m: JoystickModel, p: Vec2): (r: JoystickModel)
    ensures r.originalPosition == p && r.(originalPosition := m.originalPosition) == m
  {
    m.(originalPosition := p)
  }

  function SetDragging(m: JoystickModel, isDragging: bool): (r: JoystickModel)
    ensures r.isDragging == isDragging && r.(isDragging := m.isDragging) == m
  {
    m.(isDragging := isDragging)
  }

  /** A square of at most one has a non-negative root of at most one. */
  lemma RootAtMostOne(m: real)
    requires 0.0 <= m && Sq(m) <= 1.0
    ensures m <= 1.0
  {
    if m > 1.0 {
      SqMonotonic(1.0, m);
    }
  }

  lemma RootAtLeastOne(m: real)
    requires 0.0 <= m && Sq(m) >= 1.0
    ensures m >= 1.0
  {
    if m < 1.0 {
      SqMonotonic(m, 1.0);
    }
  }

  /** `s * q` compared with `q`, for positive `q`, compares `s` with one. */
  lemma CompareRatio(s: real, q: real)
    requires 0.0 < q
    ensures s * q <= q ==> s <= 1.0
    ensures s * q >= q ==> s >= 1.0
  {
    if s > 1.0 {
      ProductPositive(s - 1.0, q);
    } else if s < 1.0 {
      ProductPositive(1.0 - s, q);
    }
  }

  lemma SqrMagnitudeDiv2(v: Vec2, c: real)
    requires c != 0.0
    ensures SqrMagnitude2(Div2(v, c)) * Sq(c) == SqrMagnitude2(v)
  {
    var n := Div2(v, c);
    SqQuotient(v.x, c);
    SqQuotient(v.y, c);
    Distribute2(Sq(n.x), Sq(n.y), Sq(c));
  }

  lemma DivZero2(v: Vec2, c: real)
    requires c != 0.0
    ensures Div2(v, c) == Zero2 <==> v == Zero2
  {
    DivMulCancel(v.x, c);
    DivMulCancel(v.y, c);
  }

  /** How the length `mi` of `handle / maxDistance` relates to the handle's
      own length: at most one within reach, where `mi * maxDistance` is the
      handle's length, and at least one at or beyond it. */
  lemma InputLength(handle: Vec2, maxDistance: real, mi: real, s: real)
    requires maxDistance != 0.0 && 0.0 <= mi && s == SqrMagnitude2(Div2(handle, maxDistance)) && Sq(mi) == s
    ensures SqrMagnitude2(handle) <= Sq(maxDistance) ==>
      mi <= 1.0 && Sq(mi * maxDistance) == SqrMagnitude2(handle)
    ensures SqrMagnitude2(handle) >= Sq(maxDistance) ==> mi >= 1.0
  {
    SqrMagnitudeDiv2(handle, maxDistance);
    SqPositive(maxDistance);
    SqProduct(mi, maxDistance);
    CompareRatio(s, Sq(maxDistance));
    if SqrMagnitude2(handle) <= Sq(maxDistance) {
      RootAtMostOne(mi);
    }
    if SqrMagnitude2(handle) >= Sq(maxDistance) {
      RootAtLeastOne(mi);
    }
  }

  /** UpdateInput: the drag vector for a handle offset. The offset is divided
      by the reach; the direction is that quotient's unit vector and the
      magnitude its length clamped to [0, 1]; the joystick is active when the
      magnitude exceeds the dead zone. */
  function UpdateInput(k: Kernel, m: JoystickModel, handle: Vec2): (r: JoystickModel)
    requires Valid(k) && m.maxDistance != 0.0
    ensures SameSetup(r, m) && r.isDragging == m.isDragging
    ensures 0.0 <= r.magnitude <= 1.0
    ensures r.isActive <==> r.magnitude > m.inputDeadZone
    ensures r.direction == Zero2 <==> handle == Zero2
    ensures handle == Zero2 ==> r.magnitude == 0.0
    ensures handle != Zero2 ==>
      var input := Div2(handle, m.maxDistance);
      SqrMagnitude2(r.direction) == 1.0 && Scale2(r.direction, Magnitude2(k, input)) == input
  {
    var input := Div2(handle, m.maxDistance);
    var mi := Magnitude2(k, input);
    DivZero2(handle, m.maxDistance);
    var magnitude := Clamp01(mi);
    m.(direction := Normalized2(k, input), magnitude := magnitude, isActive := magnitude > m.inputDeadZone)
  }

  /** Within reach the magnitude is the handle's length over the reach:
      `magnitude * |maxDistance|` is the handle's length. */
  lemma MagnitudeWithinReach(k: Kernel, m: JoystickModel, handle: Vec2)
    requires Valid(k) && m.maxDistance != 0.0 && SqrMagnitude2(handle) <= Sq(m.maxDistance)
    ensures UpdateInput(k, m, handle).magnitude * Abs(m.maxDistance) == Magnitude2(k, handle)
  {
    var d := m.maxDistance;
    var mi := Magnitude2(k, Div2(handle, d));
    assert UpdateInput(k, m, handle).magnitude == mi by {
      MagnitudeSquared2(k, Div2(handle, d));
      InputLength(handle, d, mi, SqrMagnitude2(Div2(handle, d)));
    }
    MagnitudeOfQuotient2(k, handle, d);
  }

  /** The length of `v / c` times `|c|` is the length of `v`. */
  lemma MagnitudeOfQuotient2(k: Kernel, v: Vec2, c: real)
    requires Valid(k) && c != 0.0
    ensures Magnitude2(k, Div2(v, c)) * Abs(c) == Magnitude2(k, v)
  {
    var mi := Magnitude2(k, Div2(v, c));
    MagnitudeSquared2(k, Div2(v, c));
    MagnitudeSquared2(k, v);
    SqrMagnitudeDiv2(v, c);
    SqProduct(mi, c);
    RootOfScaled(mi, c, Magnitude2(k, v), SqrMagnitude2(v));
  }

  /** Non-negative `mi` and `l` with `(mi * d)² == l²` satisfy `mi * |d| == l`. */
  lemma RootOfScaled(mi: real, d: real, l: real, h: real)
    requires 0.0 <= mi && 0.0 <= l && Sq(mi * d) == h && Sq(l) == h
    ensures mi * Abs(d) == l
  {
    SqProduct(mi, d);
    SqProduct(mi, Abs(d));
    assert Sq(Abs(d)) == Sq(d);
    ProductNonNegative(mi, Abs(d));
    SqInjective(mi * Abs(d), l);
  }

  /** At or beyond the reach the magnitude saturates at one. */
  lemma MagnitudeSaturates(k: Kernel, m: JoystickModel, handle: Vec2)
    requires Valid(k) && m.maxDistance != 0.0 && SqrMagnitude2(handle) >= Sq(m.maxDistance)
    ensures UpdateInput(k, m, handle).magnitude == 1.0
  {
    var input := Div2(handle, m.maxDistance);
    MagnitudeSquared2(k, input);
    InputLength(handle, m.maxDistance, Magnitude2(k, input), SqrMagnitude2(input));
  }

  /** ResetInput: drop the drag and the drag vector; the setup is untouched. */
  function ResetInput(m: JoystickModel): (r: JoystickModel)
    ensures Idle(r) && SameSetup(r, m)
  {
    m.(isDragging := false, direction := Zero2, magnitude := 0.0, isActive := false)
  }

  /** Every drag vector the model computes or resets to is bounded. */
  lemma DragVectorsBounded(k: Kernel, m: JoystickModel, handle: Vec2, isDragging: bool)
    requires Valid(k) && m.maxDistance != 0.0
    ensures DragBounded(UpdateInput(k, m, handle))
    ensures DragBounded(ResetInput(m))
    ensures DragBounded(m) ==> DragBounded(SetDragging(m, isDragging))
  {
  }

  /** A reset forgets every input the model has seen since its setup. */
  lemma ResetForgetsInput(k: Kernel, m: JoystickModel, handle: Vec2, isDragging: bool)
    requires Valid(k) && m.maxDistance != 0.0
    ensures ResetInput(UpdateInput(k, m, handle)) == ResetInput(m)
    ensures ResetInput(SetDragging(m, isDragging)) == ResetInput(m)
  {
  }

  /** The dragging flag and the drag vector are independent. */
  lemma SetDraggingCommutes(k: Kernel, m: JoystickModel, handle: Vec2, isDragging: bool)
    requires Valid(k) && m.maxDistance != 0.0
    ensures SetDragging(UpdateInput(k, m, handle), isDragging) == UpdateInput(k, SetDragging(m, isDragging), handle)
  {
  }

  /** Only the latest handle offset matters. */
  lemma UpdateInputOverwrites(k: Kernel, m: JoystickModel, h1: Vec2, h2: Vec2)
    requires Valid(k) && m.maxDistance != 0.0
    ensures UpdateInput(k, UpdateInput(k, m, h1), h2) == UpdateInput(k, m, h2)
  {
  }

  /** A handle resting at the centre gives no input, whatever the dead zone. */
  lemma CentredHandleInactive(k: Kernel, m: JoystickModel)
    requires Valid(k) && m.maxDistance != 0.0 && m.inputDeadZone >= 0.0
    ensures var r := UpdateInput(k, m, Zero2); r.direction == Zero2 && r.magnitude == 0.0 && !r.isActive
  {
  }
}
