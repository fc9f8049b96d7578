/** The joystick's tunables and the editor-time validator that clamps them
    (Assets/Scripts/Joystick/JoystickData.cs). */
module JoystickConfig {
  import opened UnityMath

  datatype JoystickData = JoystickData(maxDistance: real, relocateThreshold: real, inputDeadZone: real)

  /** The serialized defaults. */
  const DefaultData: JoystickData := JoystickData(100.0, 120.0, 0.001)

  const MinMaxDistance: real := 50.0
  const MinInputDeadZone: real := 0.001

  /** The bounds the validator establishes. */
  predicate Validated(d: JoystickData) {
    && d.maxDistance >= MinMaxDistance
    && d.relocateThreshold >= d.maxDistance
    && d.inputDeadZone >= MinInputDeadZone
  }

  /** OnValidate: raise each tunable to its floor, the relocate threshold to
      the already-raised reach. */
  function OnValidate(d: JoystickData): (r: JoystickData)
    ensures Validated(r)
    ensures Validated(d) ==> r == d
    ensures d.maxDistance <= r.maxDistance && d.relocateThreshold <= r.relocateThreshold
            && d.inputDeadZone <= r.inputDeadZone
    ensures d.maxDistance >= MinMaxDistance ==> r.maxDistance == d.maxDistance
    ensures d.relocateThreshold >= r.maxDistance ==> r.relocateThreshold == d.relocateThreshold
    ensures d.inputDeadZone >= MinInputDeadZone ==> r.inputDeadZone == d.inputDeadZone
  {
    var maxDistance := Max(MinMaxDistance, d.maxDistance);
    var relocateThreshold := Max(maxDistance, d.relocateThreshold);
    var inputDeadZone := Max(MinInputDeadZone, d.inputDeadZone);
    JoystickData(maxDistance, relocateThreshold, inputDeadZone)
  }

  /** `e` is at least `d` in every tunable. */
  predicate Dominates(e: JoystickData, d: JoystickData) {
    && d.maxDistance <= e.maxDistance
    && d.relocateThreshold <= e.relocateThreshold
    && d.inputDeadZone <= e.inputDeadZone
  }

  /** Validating twice is validating once. */
  lemma OnValidateIdempotent(d: JoystickData)
    ensures OnValidate(OnValidate(d)) == OnValidate(d)
  {
  }

  /** The validator changes as little as it can: every validated configuration
      that dominates the input also dominates the validator's result. */
  lemma OnValidateLeast(d: JoystickData, e: JoystickData)
    requires Validated(e) && Dominates(e, d)
    ensures Dominates(e, OnValidate(d))
  {
  }

  /** The defaults already satisfy the bounds, so validation keeps them. */
  lemma DefaultsValidated()
    ensures Validated(DefaultData) && OnValidate(DefaultData) == DefaultData
  {
  }
}
