/** The ball: its fixed tunables and the serve direction it remembers between
    serves (Assets/Scripts/Ball/BallModel.cs), and the rigid body's position
    and velocity that the view exposes (Assets/Scripts/Ball/BallView.cs). */
module Ball {
  import opened UnityMath

  /** The serialized tunables: the spawn position and the speed cap. */
  datatype BallData = BallData(position: Vec3, maxSpeed: real)

  datatype BallModel = BallModel(maxSpeed: real, position: Vec3, randomDirection: Vec3)

  /** The rigid body as the game logic sees it. */
  datatype BallBody = BallBody(position: Vec3, velocity: Vec3)

  /** The constructor copies the tunables; the remembered direction starts at
      the zero vector, a field's default. */
  function NewBallModel(data: BallData): (m: BallModel)
    ensures m.maxSpeed == data.maxSpeed && m.position == data.position
    ensures m.randomDirection == Zero3
  {
    BallModel(data.maxSpeed, data.position, Zero3)
  }

  /** A serve direction and the model that remembers it. */
  datatype Serve = Serve(model: BallModel, direction: Vec3)

  /** GetRandomDirection: the unit vector along `(x, 0, z)`, where `x` is the
      random draw and `z` is +1 when the remembered direction does not point
      forward and -1 otherwise. The result is remembered for the next serve. */
  function GetRandomDirection(k: Kernel, m: BallModel, x: real): (r: Serve)
    requires Valid(k)
    ensures r.model == m.(randomDirection := r.direction)
    ensures r.direction.y == 0.0 && SqrMagnitude3(r.direction) == 1.0
    ensures r.direction.z != 0.0
    ensures r.direction.z > 0.0 <==> m.randomDirection.z <= 0.0
    ensures (r.direction.x > 0.0 <==> x > 0.0) && (r.direction.x < 0.0 <==> x < 0.0)
  {
    var z := if m.randomDirection.z <= 0.0 then 1.0 else -1.0;
    var v := Vec3(x, 0.0, z);
    var n := Normalized3(k, v);
    var len := Magnitude3(k, v);
    ScaledSign(n.x, len, x);
    ScaledSign(n.y, len, 0.0);
    ScaledSign(n.z, len, z);
    Serve(m.(randomDirection := n), n)
  }

  /** The directions of successive serves, one random draw each: every one
      a unit vector on the ground plane, with x of the draw's sign. */
  function Serves(k: Kernel, m: BallModel, xs: seq<real>): (ds: seq<Vec3>)
    requires Valid(k)
    ensures |ds| == |xs|
    ensures forall i :: 0 <= i < |ds| ==> ds[i].y == 0.0 && SqrMagnitude3(ds[i]) == 1.0
    ensures forall i :: 0 <= i < |ds| ==> (ds[i].x > 0.0 <==> xs[i] > 0.0) && (ds[i].x < 0.0 <==> xs[i] < 0.0)
    decreases |xs|
  {
    if |xs| == 0 then []
    else
      var s := GetRandomDirection(k, m, xs[0]);
      [s.direction] + Serves(k, s.model, xs[1..])
  }

  /** Serves alternate ends: each one's z has the opposite sign of the one
      before, and the first points forward exactly when the remembered
      direction does not. */
  lemma {:induction false} ServesAlternate(k: Kernel, m: BallModel, xs: seq<real>)
    requires Valid(k)
    ensures var ds := Serves(k, m, xs);
      && (forall i :: 0 <= i < |ds| ==> ds[i].z != 0.0)
      && (|ds| > 0 ==> (ds[0].z > 0.0 <==> m.randomDirection.z <= 0.0))
      && (forall i :: 0 <= i < |ds| - 1 ==> (ds[i].z > 0.0 <==> ds[i + 1].z < 0.0))
    decreases |xs|
  {
    if |xs| > 0 {
      var s := GetRandomDirection(k, m, xs[0]);
      ServesAlternate(k, s.model, xs[1..]);
      var ds := Serves(k, m, xs);
      var rest := Serves(k, s.model, xs[1..]);
      assert ds == [s.direction] + rest;
      forall i | 0 <= i < |ds|
        ensures ds[i].z != 0.0
      {
        if i > 0 {
          assert ds[i] == rest[i - 1];
        }
      }
      forall i | 0 <= i < |ds| - 1
        ensures ds[i].z > 0.0 <==> ds[i + 1].z < 0.0
      {
        if i > 0 {
          assert ds[i] == rest[i - 1] && ds[i + 1] == rest[i];
        }
      }
    }
  }

  /** A new ball's first serve points forward. */
  lemma FirstServeForward(k: Kernel, data: BallData, x: real)
    requires Valid(k)
    ensures GetRandomDirection(k, NewBallModel(data), x).direction.z > 0.0
  {
  }
}
