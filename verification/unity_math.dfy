/** Vector arithmetic and the few engine math primitives the game logic relies on
    (UnityEngine Vector2, Vector3 and Mathf), over unbounded reals.

    The engine's square root, atan2, DeltaAngle and SmoothDampAngle are not
    visible, so they are carried by a `Kernel` of function values that every
    operation using them receives as a parameter; `Valid` states the only facts
    the game logic relies on.

    Squares are written `Sq(a)` throughout: the real-arithmetic facts below are
    stated over that one function so that each step the solver takes stays linear
    in the squares. */
module UnityMath {

  datatype Vec2 = Vec2(x: real, y: real)
  datatype Vec3 = Vec3(x: real, y: real, z: real)

  /** An optional value (a conversion that may fail, a result that may be undefined). */
  datatype Option<+T> = None | Some(value: T)

  const Zero2: Vec2 := Vec2(0.0, 0.0)
  const Zero3: Vec3 := Vec3(0.0, 0.0, 0.0)
  const Right2: Vec2 := Vec2(1.0, 0.0)
  const Left2: Vec2 := Vec2(-1.0, 0.0)

  /** Mathf.PI: the single-precision number nearest to pi, written out
      exactly (13176795 / 2^22). */
  const Pi: real := 3.1415927410125732421875

  /** Mathf.Rad2Deg: the single-precision value of 360 / (2 PI), written out
      exactly (15019745 / 2^18). */
  const Rad2Deg: real := 57.295780181884765625

  /** Both constants are the binary fractions a float holds. */
  lemma ConstantsAreFloats()
    ensures Pi == 13176795.0 / 4194304.0
    ensures Rad2Deg == 15019745.0 / 262144.0
  {
  }

  function Sq(a: real): real { a * a }

  function Add2(a: Vec2, b: Vec2): Vec2 { Vec2(a.x + b.x, a.y + b.y) }
  function Sub2(a: Vec2, b: Vec2): Vec2 { Vec2(a.x - b.x, a.y - b.y) }
  function Scale2(v: Vec2, c: real): Vec2 { Vec2(v.x * c, v.y * c) }
  function Div2(v: Vec2, c: real): Vec2 requires c != 0.0 { Vec2(v.x / c, v.y / c) }
  function SqrMagnitude2(v: Vec2): real { Sq(v.x) + Sq(v.y) }

  function Add3(a: Vec3, b: Vec3): Vec3 { Vec3(a.x + b.x, a.y + b.y, a.z + b.z) }
  function Sub3(a: Vec3, b: Vec3): Vec3 { Vec3(a.x - b.x, a.y - b.y, a.z - b.z) }
  function Scale3(v: Vec3, c: real): Vec3 { Vec3(v.x * c, v.y * c, v.z * c) }
  function Div3(v: Vec3, c: real): Vec3 requires c != 0.0 { Vec3(v.x / c, v.y / c, v.z / c) }
  function SqrMagnitude3(v: Vec3): real { Sq(v.x) + Sq(v.y) + Sq(v.z) }

  /** Mathf.Abs */
  function Abs(a: real): (r: real)
    ensures 0.0 <= r && (r == a || r == -a)
  {
    if a < 0.0 then -a else a
  }

  /** Mathf.Max, which returns `a > b ? a : b`. */
  function Max(a: real, b: real): (r: real)
    ensures a <= r && b <= r
    ensures r == a || r == b
  {
    if a > b then a else b
  }

  /** Mathf.Clamp01 */
  function Clamp01(a: real): (r: real)
    ensures 0.0 <= r <= 1.0
    ensures 0.0 <= a <= 1.0 ==> r == a
    ensures a > 1.0 ==> r == 1.0
    ensures a < 0.0 ==> r == 0.0
  {
    if a < 0.0 then 0.0 else if a > 1.0 then 1.0 else a
  }

  /** The result of Mathf.SmoothDampAngle: the new angle and the updated
      angular rate it writes back through its `ref` parameter. */
  datatype Damped = Damped(angle: real, velocity: real)

  /** The engine primitives: sqrt, Mathf.Atan2 (radians), Mathf.DeltaAngle and
      Mathf.SmoothDampAngle(current, target, rate, smoothTime, deltaTime). The
      game calls the short overload of SmoothDampAngle, which adds no speed
      limit (maxSpeed is infinity) and reads the frame's deltaTime; the model
      passes that step length explicitly. */
  datatype Kernel = Kernel(
    sqrt: real -> real,
    atan2: (real, real) -> real,
    deltaAngle: (real, real) -> real,
    smoothDampAngle: (real, real, real, real, real) -> Damped)

  /** The facts the game logic relies on: `sqrt` is the non-negative square
      root, Atan2 is an angle of at most half a turn either way, and
      DeltaAngle is a signed angle of at most half a turn. */
  ghost predicate Valid(k: Kernel) {
    && (forall a {:trigger RootOf(k, a)} :: 0.0 <= a ==> 0.0 <= RootOf(k, a) && Sq(RootOf(k, a)) == a)
    && (forall y, x :: -Pi <= k.atan2(y, x) <= Pi)
    && (forall c, t :: -180.0 <= k.deltaAngle(c, t) <= 180.0)
  }

  /** The kernel's square root, named so that its defining fact is used
      only where a proof asks for it (through SqrtSquared). */
  ghost function RootOf(k: Kernel, a: real): real {
    k.sqrt(a)
  }

  function Sqrt(k: Kernel, a: real): (r: real)
    requires Valid(k) && 0.0 <= a
    ensures 0.0 <= r
  {
    assert 0.0 <= RootOf(k, a);
    k.sqrt(a)
  }

  /** Squaring the square root gives the number back. */
  lemma SqrtSquared(k: Kernel, a: real)
    requires Valid(k) && 0.0 <= a
    ensures Sq(Sqrt(k, a)) == a
  {
    assert Sq(RootOf(k, a)) == a;
  }

  // ---- facts about squares -------------------------------------------------

  lemma SqNonNegative(a: real)
    ensures 0.0 <= Sq(a)
  {
  }

  lemma SqOverSelf(a: real)
    requires a != 0.0
    ensures Sq(a) / a == a
  {
  }

  lemma SqPositive(a: real)
    requires a != 0.0
    ensures 0.0 < Sq(a)
  {
    SqNonNegative(a);
    SqOverSelf(a);
  }

  lemma ProductPositive(a: real, c: real)
    requires 0.0 < a && 0.0 < c
    ensures 0.0 < a * c
  {
    assert (a * c) / c == a;
  }

  /** Multiplying by a positive factor keeps the sign. */
  lemma ScaledSign(a: real, c: real, b: real)
    requires 0.0 < c && a * c == b
    ensures (0.0 < a <==> 0.0 < b) && (a < 0.0 <==> b < 0.0) && (a == 0.0 <==> b == 0.0)
  {
    if 0.0 < a {
      ProductPositive(a, c);
    } else if a < 0.0 {
      ProductPositive(-a, c);
      assert (-a) * c == -(a * c);
    }
  }

  /** A non-negative number times a factor of at most one does not grow. */
  lemma ScaleDownBound(p: real, s: real)
    requires 0.0 <= p && s <= 1.0
    ensures p * s <= p && s * p <= p
  {
    ProductNonNegative(p, 1.0 - s);
    assert p * (1.0 - s) == p - p * s;
  }

  lemma ProductNonNegative(a: real, c: real)
    requires 0.0 <= a && 0.0 <= c
    ensures 0.0 <= a * c
  {
  }

  lemma SqDifference(a: real, b: real)
    ensures Sq(b) - Sq(a) == (b - a) * (b + a)
  {
  }

  lemma SqDifferencePositive(a: real, b: real)
    requires 0.0 <= a < b
    ensures 0.0 < (b - a) * (b + a)
  {
    ProductPositive(b - a, b + a);
  }

  /** Squaring is strictly increasing on the non-negative reals. */
  lemma SqMonotonic(a: real, b: real)
    requires 0.0 <= a < b
    ensures Sq(a) < Sq(b)
  {
    SqDifference(a, b);
    SqDifferencePositive(a, b);
  }

  /** Two non-negative numbers with the same square are equal. */
  lemma SqInjective(a: real, b: real)
    requires 0.0 <= a && 0.0 <= b && Sq(a) == Sq(b)
    ensures a == b
  {
    if a < b {
      SqMonotonic(a, b);
    } else if b < a {
      SqMonotonic(b, a);
    }
  }

  lemma SqProduct(a: real, c: real)
    ensures Sq(a * c) == Sq(a) * Sq(c)
  {
  }

  lemma SqQuotient(a: real, m: real)
    requires m != 0.0
    ensures Sq(a / m) * Sq(m) == Sq(a)
  {
  }

  lemma DivMulCancel(a: real, m: real)
    requires m != 0.0
    ensures (a / m) * m == a
  {
  }

  /** `s * q == q` with `q` positive forces `s == 1`. */
  lemma CancelPositive(s: real, q: real)
    requires 0.0 < q && s * q == q
    ensures s == 1.0
  {
  }

  lemma Distribute2(a: real, b: real, q: real)
    ensures (a + b) * q == a * q + b * q
  {
  }

  lemma Distribute3(a: real, b: real, c: real, q: real)
    ensures (a + b + c) * q == a * q + b * q + c * q
  {
  }

  /** Linear glue: a total that splits into parts equal to a second split. */
  lemma SumOfParts2(t: real, p: real, q: real, a: real, b: real, s: real)
    requires t == p + q && p == a && q == b && s == a + b
    ensures t == s
  {
  }

  lemma SumOfParts3(t: real, p: real, q: real, r: real, a: real, b: real, c: real, s: real)
    requires t == p + q + r && p == a && q == b && r == c && s == a + b + c
    ensures t == s
  {
  }

  // ---- lengths of vectors --------------------------------------------------

  lemma SqrMagnitudeNonNegative2(v: Vec2)
    ensures 0.0 <= SqrMagnitude2(v)
  {
    SqNonNegative(v.x);
    SqNonNegative(v.y);
  }

  lemma SqrMagnitudeNonNegative3(v: Vec3)
    ensures 0.0 <= SqrMagnitude3(v)
  {
    SqNonNegative(v.x);
    SqNonNegative(v.y);
    SqNonNegative(v.z);
  }

  lemma SqrMagnitudeZero2()
    ensures SqrMagnitude2(Zero2) == 0.0
  {
  }

  /** The squared length is never negative, and zero only for the zero vector. */
  lemma SqrMagnitudeVanishes2(v: Vec2)
    ensures 0.0 <= SqrMagnitude2(v)
    ensures SqrMagnitude2(v) == 0.0 <==> v == Zero2
  {
    SqNonNegative(v.x);
    SqNonNegative(v.y);
    if v != Zero2 {
      SqrMagnitudePositive2(v);
    }
  }

  lemma SqrMagnitudeVanishes3(v: Vec3)
    ensures 0.0 <= SqrMagnitude3(v)
    ensures SqrMagnitude3(v) == 0.0 <==> v == Zero3
  {
    SqNonNegative(v.x);
    SqNonNegative(v.y);
    SqNonNegative(v.z);
    if v != Zero3 {
      SqrMagnitudePositive3(v);
    }
  }

  lemma SqrMagnitudePositive2(v: Vec2)
    requires v != Zero2
    ensures 0.0 < SqrMagnitude2(v)
  {
    SqNonNegative(v.x);
    SqNonNegative(v.y);
    if v.x != 0.0 {
      SqPositive(v.x);
    } else {
      SqPositive(v.y);
    }
  }

  lemma SqrMagnitudePositive3(v: Vec3)
    requires v != Zero3
    ensures 0.0 < SqrMagnitude3(v)
  {
    SqNonNegative(v.x);
    SqNonNegative(v.y);
    SqNonNegative(v.z);
    if v.x != 0.0 {
      SqPositive(v.x);
    } else if v.y != 0.0 {
      SqPositive(v.y);
    } else {
      SqPositive(v.z);
    }
  }

  /** Scaling a vector multiplies its squared length by the square of the factor. */
  lemma SqrMagnitudeScale2(v: Vec2, c: real)
    ensures SqrMagnitude2(Scale2(v, c)) == Sq(c) * SqrMagnitude2(v)
  {
    SqProduct(v.x, c);
    SqProduct(v.y, c);
    Distribute2(Sq(v.x), Sq(v.y), Sq(c));
  }

  /** Scaling by two factors in either order gives the same vector. */
  lemma ScaleCommutes3(v: Vec3, a: real, b: real)
    ensures Scale3(Scale3(v, a), b) == Scale3(Scale3(v, b), a)
  {
    assert (v.x * a) * b == (v.x * b) * a;
    assert (v.y * a) * b == (v.y * b) * a;
    assert (v.z * a) * b == (v.z * b) * a;
  }

  lemma SqrMagnitudeScale3(v: Vec3, c: real)
    ensures SqrMagnitude3(Scale3(v, c)) == Sq(c) * SqrMagnitude3(v)
  {
    SqProduct(v.x, c);
    SqProduct(v.y, c);
    SqProduct(v.z, c);
    Distribute3(Sq(v.x), Sq(v.y), Sq(v.z), Sq(c));
  }

  /** Only zero has the square root zero. */
  lemma SqrtZero(k: Kernel, a: real)
    requires Valid(k) && 0.0 <= a
    ensures Sqrt(k, a) == 0.0 <==> a == 0.0
  {
    SqrtSquared(k, a);
    assert Sq(0.0) == 0.0;
    if a == 0.0 {
      SqInjective(Sqrt(k, a), 0.0);
    }
  }

  /** Vector2.magnitude: the non-negative square root of the squared length. */
  function Magnitude2(k: Kernel, v: Vec2): (m: real)
    requires Valid(k)
    ensures 0.0 <= m
    ensures v == Zero2 <==> m == 0.0
  {
    SqrMagnitudeVanishes2(v);
    SqrtZero(k, SqrMagnitude2(v));
    Sqrt(k, SqrMagnitude2(v))
  }

  /** Vector3.magnitude: the non-negative square root of the squared length. */
  function Magnitude3(k: Kernel, v: Vec3): (m: real)
    requires Valid(k)
    ensures 0.0 <= m
    ensures v == Zero3 <==> m == 0.0
  {
    SqrMagnitudeVanishes3(v);
    SqrtZero(k, SqrMagnitude3(v));
    Sqrt(k, SqrMagnitude3(v))
  }

  /** The length squared is the squared length. */
  lemma MagnitudeSquared2(k: Kernel, v: Vec2)
    requires Valid(k)
    ensures Sq(Magnitude2(k, v)) == SqrMagnitude2(v)
  {
    SqrMagnitudeVanishes2(v);
    SqrtSquared(k, SqrMagnitude2(v));
  }

  lemma MagnitudeSquared3(k: Kernel, v: Vec3)
    requires Valid(k)
    ensures Sq(Magnitude3(k, v)) == SqrMagnitude3(v)
  {
    SqrMagnitudeVanishes3(v);
    SqrtSquared(k, SqrMagnitude3(v));
  }

  /** Dividing by the length gives a unit vector. */
  lemma UnitAfterDivision2(v: Vec2, m: real)
    requires 0.0 < m && Sq(m) == SqrMagnitude2(v)
    ensures SqrMagnitude2(Div2(v, m)) == 1.0
  {
    var n := Div2(v, m);
    SqQuotient(v.x, m);
    SqQuotient(v.y, m);
    Distribute2(Sq(n.x), Sq(n.y), Sq(m));
    SqPositive(m);
    SumOfParts2(SqrMagnitude2(n) * Sq(m), Sq(n.x) * Sq(m), Sq(n.y) * Sq(m), Sq(v.x), Sq(v.y), Sq(m));
    CancelPositive(SqrMagnitude2(n), Sq(m));
  }

  lemma UnitAfterDivision3(v: Vec3, m: real)
    requires 0.0 < m && Sq(m) == SqrMagnitude3(v)
    ensures SqrMagnitude3(Div3(v, m)) == 1.0
  {
    var n := Div3(v, m);
    SqQuotient(v.x, m);
    SqQuotient(v.y, m);
    SqQuotient(v.z, m);
    Distribute3(Sq(n.x), Sq(n.y), Sq(n.z), Sq(m));
    SqPositive(m);
    SumOfParts3(SqrMagnitude3(n) * Sq(m), Sq(n.x) * Sq(m), Sq(n.y) * Sq(m), Sq(n.z) * Sq(m),
                Sq(v.x), Sq(v.y), Sq(v.z), Sq(m));
    CancelPositive(SqrMagnitude3(n), Sq(m));
  }

  /** Vector2.normalized: the unit vector along `v`, and zero for the zero vector. */
  function Normalized2(k: Kernel, v: Vec2): (n: Vec2)
    requires Valid(k)
    ensures v == Zero2 ==> n == Zero2
    ensures v != Zero2 ==> SqrMagnitude2(n) == 1.0 && Scale2(n, Magnitude2(k, v)) == v
  {
    if v == Zero2 then Zero2
    else
      var m := Magnitude2(k, v);
      MagnitudeSquared2(k, v);
      UnitAfterDivision2(v, m);
      DivMulCancel(v.x, m);
      DivMulCancel(v.y, m);
      Div2(v, m)
  }

  /** Vector3.normalized: the unit vector along `v`, and zero for the zero vector. */
  function Normalized3(k: Kernel, v: Vec3): (n: Vec3)
    requires Valid(k)
    ensures v == Zero3 ==> n == Zero3
    ensures v != Zero3 ==> SqrMagnitude3(n) == 1.0 && Scale3(n, Magnitude3(k, v)) == v
  {
    if v == Zero3 then Zero3
    else
      var m := Magnitude3(k, v);
      MagnitudeSquared3(k, v);
      UnitAfterDivision3(v, m);
      DivMulCancel(v.x, m);
      DivMulCancel(v.y, m);
      DivMulCancel(v.z, m);
      Div3(v, m)
  }

  /** A vector of squared length `Sq(c)` with `c >= 0` has magnitude `c`. */
  lemma MagnitudeOfSquare2(k: Kernel, v: Vec2, c: real)
    requires Valid(k) && 0.0 <= c && SqrMagnitude2(v) == Sq(c)
    ensures Magnitude2(k, v) == c
  {
    MagnitudeSquared2(k, v);
    SqInjective(Magnitude2(k, v), c);
  }

  lemma MagnitudeOfSquare3(k: Kernel, v: Vec3, c: real)
    requires Valid(k) && 0.0 <= c && SqrMagnitude3(v) == Sq(c)
    ensures Magnitude3(k, v) == c
  {
    MagnitudeSquared3(k, v);
    SqInjective(Magnitude3(k, v), c);
  }

  /** Normalizing a unit vector leaves it unchanged. */
  lemma NormalizedUnit2(k: Kernel, v: Vec2)
    requires Valid(k) && SqrMagnitude2(v) == 1.0
    ensures Normalized2(k, v) == v
  {
    MagnitudeOfSquare2(k, v, 1.0);
  }

  lemma NormalizedUnit3(k: Kernel, v: Vec3)
    requires Valid(k) && SqrMagnitude3(v) == 1.0
    ensures Normalized3(k, v) == v
  {
    MagnitudeOfSquare3(k, v, 1.0);
  }

  /** Vector2.ClampMagnitude: `v` itself when its squared length is within
      `max * max`, otherwise the unit vector along `v` times `max`. */
  function ClampMagnitude2(k: Kernel, v: Vec2, max: real): (r: Vec2)
    requires Valid(k)
    ensures SqrMagnitude2(v) <= Sq(max) ==> r == v
    ensures SqrMagnitude2(r) <= Sq(max)
    ensures SqrMagnitude2(v) > Sq(max) ==>
      v != Zero2 && SqrMagnitude2(r) == Sq(max) && r == Scale2(Normalized2(k, v), max)
  {
    if SqrMagnitude2(v) > Sq(max) then
      SqNonNegative(max);
      var n := Normalized2(k, v);
      SqrMagnitudeScale2(n, max);
      Scale2(n, max)
    else v
  }

  /** Vector3.ClampMagnitude, the same rule in three dimensions. */
  function ClampMagnitude3(k: Kernel, v: Vec3, max: real): (r: Vec3)
    requires Valid(k)
    ensures SqrMagnitude3(v) <= Sq(max) ==> r == v
    ensures SqrMagnitude3(r) <= Sq(max)
    ensures SqrMagnitude3(v) > Sq(max) ==>
      v != Zero3 && SqrMagnitude3(r) == Sq(max) && r == Scale3(Normalized3(k, v), max)
  {
    if SqrMagnitude3(v) > Sq(max) then
      SqNonNegative(max);
      var n := Normalized3(k, v);
      SqrMagnitudeScale3(n, max);
      Scale3(n, max)
    else v
  }

  /** Clamping twice to the same length is clamping once. */
  lemma ClampMagnitudeIdempotent2(k: Kernel, v: Vec2, max: real)
    requires Valid(k)
    ensures ClampMagnitude2(k, ClampMagnitude2(k, v, max), max) == ClampMagnitude2(k, v, max)
  {
  }

  lemma ClampMagnitudeIdempotent3(k: Kernel, v: Vec3, max: real)
    requires Valid(k)
    ensures ClampMagnitude3(k, ClampMagnitude3(k, v, max), max) == ClampMagnitude3(k, v, max)
  {
  }

  /** Stretching a unit vector by a positive length and normalizing it again
      gives the unit vector back. */
  lemma NormalizedScaledUnit3(k: Kernel, n: Vec3, c: real)
    requires Valid(k) && SqrMagnitude3(n) == 1.0 && 0.0 < c
    ensures Normalized3(k, Scale3(n, c)) == n
  {
    var v := Scale3(n, c);
    SqrMagnitudeScale3(n, c);
    MagnitudeOfSquare3(k, v, c);
    SqPositive(c);
    assert v != Zero3;
    var r := Normalized3(k, v);
    assert Scale3(r, c) == v;
    ScaledSign(r.x - n.x, c, r.x * c - n.x * c);
    ScaledSign(r.y - n.y, c, r.y * c - n.y * c);
    ScaledSign(r.z - n.z, c, r.z * c - n.z * c);
  }
}
