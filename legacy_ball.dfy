/** The early ball: wall reflection without clamping, where a vertical hit
    excludes a horizontal one, then physics and movement. */
module LegacyBalls {
  import opened Geometry
  import opened RigidBodies

  /** The velocity after `checkBoundingBox(canvasWidth, canvasHeight)`. The
      top/bottom test (using the radius only) comes first; the left/right
      test runs only when it failed. */
  function Flip(p: Vec, v: Vec, radius: real, canvasWidth: real, canvasHeight: real): (r: Vec)
    ensures p.y >= canvasHeight - radius || p.y <= radius ==> r == Vec(v.x, -v.y)
    ensures (!(p.y >= canvasHeight - radius || p.y <= radius) &&
             (p.x >= canvasWidth - radius || p.x <= radius)) ==> r == Vec(-v.x, v.y)
    ensures r.x == v.x || r.y == v.y
    ensures Abs(r.x) == Abs(v.x) && Abs(r.y) == Abs(v.y)
    ensures radius < p.x < canvasWidth - radius && radius < p.y < canvasHeight - radius ==> r == v
    ensures r.x != v.x ==> radius < p.y < canvasHeight - radius &&
                           (p.x >= canvasWidth - radius || p.x <= radius)
  {
    if p.y >= canvasHeight - radius || p.y <= 0.0 + radius then Vec(v.x, -v.y)
    else if p.x >= canvasWidth - radius || p.x <= 0.0 + radius then Vec(-v.x, v.y)
    else v
  }

  /** In a corner only the vertical component flips. */
  lemma CornerFlipsOnlyY(p: Vec, v: Vec, radius: real, canvasWidth: real, canvasHeight: real)
    requires p.x >= canvasWidth - radius && p.y <= radius
    ensures Flip(p, v, radius, canvasWidth, canvasHeight) == Vec(v.x, -v.y)
  {
  }

  /** `update`: walls, then physics, then position advances by the new
      velocity. */
  function Tick(position: Vec, m: Motion, radius: real, mass: real, dt: real,
                canvasWidth: real, canvasHeight: real): (r: (Vec, Motion))
    requires mass != 0.0
    ensures r.1.force == Zero
    ensures Add(r.0, Scale(r.1.velocity, -1.0)) == position
    ensures m.force == Zero ==> r.1.velocity == Flip(position, m.velocity, radius, canvasWidth, canvasHeight)
    ensures var m' := m.(velocity := Flip(position, m.velocity, radius, canvasWidth, canvasHeight));
            r.1 == Step(m', mass, dt) && r.0 == Add(position, r.1.velocity)
  {
    var m' := m.(velocity := Flip(position, m.velocity, radius, canvasWidth, canvasHeight));
    var s := Step(m', mass, dt);
    if m.force == Zero then StepAtRest(m', mass, dt); (Add(position, s.velocity), s)
    else (Add(position, s.velocity), s)
  }

  class Ball {
    const body: RigidBody
    const position: Vector2
    const radius: real
    const lineWidth: real

    /** The ball's own vectors are distinct objects. */
    ghost predicate Valid()
    {
      body.Valid() &&
      position != body.velocity && position != body.accelaration && position != body.force
    }

    constructor (radius0: real, start: Vec, velocity: Vec, mass: real, lineWidth0: real)
      ensures Valid() && fresh(body) && fresh(position)
      ensures fresh(body.velocity) && fresh(body.accelaration) && fresh(body.force)
      ensures position.Value() == start && body.State() == Motion(velocity, Zero, Zero)
      ensures body.mass == mass && radius == radius0 && lineWidth == lineWidth0
    {
      var v := new Vector2(velocity.x, velocity.y);
      body := new RigidBody(mass, v);
      position := new Vector2(start.x, start.y);
      radius := radius0;
      lineWidth := lineWidth0;
    }

    method Update(dt: real, canvasWidth: real, canvasHeight: real)
      requires Valid() && body.mass != 0.0
      modifies position, body.velocity, body.accelaration, body.force
      ensures (position.Value(), body.State()) ==
                Tick(old(position.Value()), old(body.State()), radius, body.mass, dt, canvasWidth, canvasHeight)
    {
      CheckBoundingBox(canvasWidth, canvasHeight);
      body.UpdatePhysics(dt);
      Move();
    }

    method Move()
      requires Valid()
      modifies position
      ensures position.Value() == Add(old(position.Value()), body.velocity.Value())
    {
      position.x := position.x + body.velocity.x;
      position.y := position.y + body.velocity.y;
    }

    /** Only the velocity can change; the position is never clamped. */
    method CheckBoundingBox(canvasWidth: real, canvasHeight: real)
      requires Valid()
      modifies body.velocity
      ensures body.velocity.Value() ==
                Flip(position.Value(), old(body.velocity.Value()), radius, canvasWidth, canvasHeight)
    {
      if position.y >= canvasHeight - radius || position.y <= 0.0 + radius {
        body.velocity.y := body.velocity.y * -1.0;
      } else if position.x >= canvasWidth - radius || position.x <= 0.0 + radius {
        body.velocity.x := body.velocity.x * -1.0;
      }
    }
  }
}
