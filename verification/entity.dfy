/** The movement state of a player or enemy entity: its tunables, planar
    velocity, the angular rate carried between smoothing calls, and the moving
    flag (Assets/Scripts/Entity/EntityModel.cs). */
module Entity {
  import opened UnityMath

  /** The serialized tunables an entity is built from. */
  datatype EntityData = EntityData(
    maxSpeed: real,
    minAngleForRotation: real,
    rotationSmoothTime: real,
    hitRadius: real,
    hitForce: real,
    kickForce: real)

  datatype EntityModel = EntityModel(
    data: EntityData,
    velocity: Vec3,
    rotationSpeed: real,
    isMoving: bool)

  /** The ground-plane vector for a stick input: x stays x, the stick's y
      becomes the world z, and the world y is zero. */
  function Planar(v: Vec2): Vec3 {
    Vec3(v.x, 0.0, v.y)
  }

  /** A freshly built entity stands still. */
  function NewEntityModel(data: EntityData): (m: EntityModel)
    ensures m.data == data
    ensures m.velocity == Zero3 && m.rotationSpeed == 0.0 && !m.isMoving
  {
    EntityModel(data, Zero3, 0.0, false)
  }

  /** SetVelocity: the stick direction times its magnitude, laid on the ground
      plane and scaled by the maximum speed. Nothing else changes. */
  function SetVelocity(m: EntityModel, direction: Vec2, magnitude: real): (r: EntityModel)
    ensures r.velocity.y == 0.0
    ensures r.velocity == Planar(Scale2(direction, magnitude * m.data.maxSpeed))
    ensures r.(velocity := m.velocity) == m
  {
    var input := Scale2(direction, magnitude);
    m.(velocity := Scale3(Vec3(input.x, 0.0, input.y), m.data.maxSpeed))
  }

  /** SetMoving: raising the flag keeps the motion; lowering it also stops
      the entity and its turning. */
  function SetMoving(m: EntityModel, isMoving: bool): (r: EntityModel)
    ensures r.isMoving == isMoving && r.data == m.data
    ensures isMoving ==> r.velocity == m.velocity && r.rotationSpeed == m.rotationSpeed
    ensures !isMoving ==> r.velocity == Zero3 && r.rotationSpeed == 0.0
  {
    if isMoving then m.(isMoving := true)
    else m.(isMoving := false, velocity := Zero3, rotationSpeed := 0.0)
  }

  /** A stopped entity is where a new one starts, whatever it did before. */
  lemma StopIsFreshState(m: EntityModel)
    ensures SetMoving(m, false) == NewEntityModel(m.data)
  {
  }

  /** Steering twice keeps only the latest input. */
  lemma SetVelocityOverwrites(m: EntityModel, d1: Vec2, m1: real, d2: Vec2, m2: real)
    ensures SetVelocity(SetVelocity(m, d1, m1), d2, m2) == SetVelocity(m, d2, m2)
  {
  }

  /** Setting the velocity and then raising the flag, in the enemy's order,
      keeps the velocity that was set. */
  lemma RaiseKeepsVelocity(m: EntityModel, direction: Vec2, magnitude: real)
    ensures SetMoving(SetVelocity(m, direction, magnitude), true).velocity
            == SetVelocity(m, direction, magnitude).velocity
  {
  }

  lemma SqTriple(a: real, b: real, c: real)
    ensures Sq(a * b * c) == Sq(a) * Sq(b * c)
  {
    SqProduct(a, b * c);
    assert a * b * c == a * (b * c);
  }

  /** The speed set from a stick input: its square is the square of
      `magnitude * maxSpeed` times the stick direction's squared length. */
  lemma SetVelocitySpeed(m: EntityModel, direction: Vec2, magnitude: real)
    ensures SqrMagnitude3(SetVelocity(m, direction, magnitude).velocity)
            == Sq(magnitude * m.data.maxSpeed) * SqrMagnitude2(direction)
  {
    var c := magnitude * m.data.maxSpeed;
    var v := SetVelocity(m, direction, magnitude).velocity;
    SqTriple(direction.x, magnitude, m.data.maxSpeed);
    SqTriple(direction.y, magnitude, m.data.maxSpeed);
    assert v.x == direction.x * magnitude * m.data.maxSpeed;
    assert v.z == direction.y * magnitude * m.data.maxSpeed;
    assert Sq(v.y) == 0.0;
    Distribute2(Sq(direction.x), Sq(direction.y), Sq(c));
  }

  /** A stick input of at most unit length and magnitude in [0, 1] never
      drives the entity faster than its maximum speed. */
  lemma SpeedWithinMax(m: EntityModel, direction: Vec2, magnitude: real)
    requires SqrMagnitude2(direction) <= 1.0 && 0.0 <= magnitude <= 1.0
    ensures SqrMagnitude3(SetVelocity(m, direction, magnitude).velocity) <= Sq(m.data.maxSpeed)
  {
    SetVelocitySpeed(m, direction, magnitude);
    BoundedSpeed(magnitude, m.data.maxSpeed, SqrMagnitude2(direction));
  }

  /** `(magnitude * maxSpeed)² * s` is at most `maxSpeed²` when the magnitude
      lies in [0, 1] and `s` is at most one. */
  lemma BoundedSpeed(magnitude: real, maxSpeed: real, s: real)
    requires 0.0 <= magnitude <= 1.0 && s <= 1.0
    ensures Sq(magnitude * maxSpeed) * s <= Sq(maxSpeed)
  {
    var c := magnitude * maxSpeed;
    var p := Sq(c);
    var sm, sx := Sq(magnitude), Sq(maxSpeed);
    SqProduct(magnitude, maxSpeed);
    assert p == sm * sx;
    SqNonNegative(maxSpeed);
    SqNonNegative(c);
    if magnitude < 1.0 {
      SqMonotonic(magnitude, 1.0);
    }
    assert sm <= 1.0;
    ScaleDownBound(sx, sm);
    assert p <= sx;
    ScaleDownBound(p, s);
    assert p * s <= p;
  }

  /** The outcome of CalculateRotationAngle: the model with the angular rate
      the smoothing wrote back, and the angle returned (0 for "do not turn"). */
  datatype Rotation = Rotation(model: EntityModel, angle: real)

  /** CalculateRotationAngle: when the heading is at most the minimum angle
      away from the target, return 0 and leave the model alone; otherwise
      return the angle smoothed over one step of length `deltaTime` and keep
      the angular rate it updated. */
  function CalculateRotationAngle(k: Kernel, m: EntityModel, currentAngle: real, targetAngle: real, deltaTime: real): (r: Rotation)
    ensures var gap := Abs(k.deltaAngle(currentAngle, targetAngle));
      && (gap <= m.data.minAngleForRotation ==> r == Rotation(m, 0.0))
      && (gap > m.data.minAngleForRotation ==>
            var d := k.smoothDampAngle(currentAngle, targetAngle, m.rotationSpeed, m.data.rotationSmoothTime, deltaTime);
            r.angle == d.angle && r.model.rotationSpeed == d.velocity)
    ensures r.model.(rotationSpeed := m.rotationSpeed) == m
  {
    var angleDifference := Abs(k.deltaAngle(currentAngle, targetAngle));
    if !(angleDifference > m.data.minAngleForRotation) then Rotation(m, 0.0)
    else
      var d := k.smoothDampAngle(currentAngle, targetAngle, m.rotationSpeed, m.data.rotationSmoothTime, deltaTime);
      Rotation(m.(rotationSpeed := d.velocity), d.angle)
  }

  /** A changed angular rate or a nonzero angle can only come from the
      smoothing branch, that is, from a gap above the minimum angle. */
  lemma RateChangesOnlyBySmoothing(k: Kernel, m: EntityModel, currentAngle: real, targetAngle: real, deltaTime: real)
    requires CalculateRotationAngle(k, m, currentAngle, targetAngle, deltaTime).model.rotationSpeed != m.rotationSpeed
             || CalculateRotationAngle(k, m, currentAngle, targetAngle, deltaTime).angle != 0.0
    ensures Abs(k.deltaAngle(currentAngle, targetAngle)) > m.data.minAngleForRotation
  {
  }

  /** DeltaAngle never exceeds half a turn, so a minimum angle of 180 degrees
      or more switches turning off altogether. */
  lemma HalfTurnThresholdNeverTurns(k: Kernel, m: EntityModel, currentAngle: real, targetAngle: real, deltaTime: real)
    requires Valid(k) && m.data.minAngleForRotation >= 180.0
    ensures CalculateRotationAngle(k, m, currentAngle, targetAngle, deltaTime) == Rotation(m, 0.0)
  {
    assert -180.0 <= k.deltaAngle(currentAngle, targetAngle) <= 180.0;
  }
}
