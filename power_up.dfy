/** A falling power-up: a rigid body that moves itself, checked against the
    paddle by a predicate that changes nothing. Its position is the object
    the caller passed as `startPosition` (shifted to the block's middle in
    place), and its velocity is the configuration's velocity object. */
module PowerUps {
  import opened Geometry
  import opened RigidBodies
  import Paddles

  /** Position and the rigid body's vectors, taken as values. */
  datatype PowerUpState = PowerUpState(position: Vec, motion: Motion)

  /** The capture test of `checkPaddleBox`, in the source's nesting: the
      bottom of the power-up has reached the paddle's top; its centre is
      within the paddle's span, edges included; and it is falling and not
      lower than one paddle height below the paddle's bottom. Every other
      path returns `undefined`, which is false here. */
  predicate Captured(p: Vec, vy: real, s: real, paddle: Box)
  {
    if p.y + s >= paddle.y then
      if paddle.x <= p.x && p.x <= paddle.x + paddle.width then
        var edgeOffset := paddle.height;
        vy > 0.0 && p.y + s <= paddle.y + paddle.height + edgeOffset
      else false
    else false
  }

  /** The nested tests amount to one band: capture holds exactly when the
      four conditions hold together. */
  lemma CapturedBand(p: Vec, vy: real, s: real, paddle: Box)
    ensures Captured(p, vy, s, paddle) <==>
              paddle.y <= p.y + s <= paddle.y + 2.0 * paddle.height &&
              paddle.x <= p.x <= paddle.x + paddle.width &&
              vy > 0.0
  {
  }

  /** A power-up that is not falling is never captured, wherever it is. */
  lemma RisingNeverCaptured(p: Vec, vy: real, s: real, paddle: Box)
    requires vy <= 0.0
    ensures !Captured(p, vy, s, paddle)
  {
  }

  /** Both horizontal bounds are inclusive. */
  lemma CaptureEdgesInclusive(y: real, vy: real, s: real, paddle: Box)
    requires vy > 0.0 && paddle.width >= 0.0
    requires paddle.y <= y + s <= paddle.y + 2.0 * paddle.height
    ensures Captured(Vec(paddle.x, y), vy, s, paddle)
    ensures Captured(Vec(paddle.x + paddle.width, y), vy, s, paddle)
  {
  }

  /** `update`: physics, then position advances by the new velocity. */
  function Tick(u: PowerUpState, mass: real, dt: real): (r: PowerUpState)
    requires mass != 0.0
    ensures r.motion == Step(u.motion, mass, dt)
    ensures Add(r.position, Scale(r.motion.velocity, -1.0)) == u.position
  {
    var m := Step(u.motion, mass, dt);
    PowerUpState(Add(u.position, m.velocity), m)
  }

  /** With no force pending, a power-up falls in a straight line at its
      initial velocity. */
  lemma TickAtRest(u: PowerUpState, mass: real, dt: real)
    requires mass != 0.0 && u.motion.force == Zero
    ensures Tick(u, mass, dt).position == Add(u.position, u.motion.velocity)
    ensures Tick(u, mass, dt).motion.velocity == u.motion.velocity
  {
  }

  class PowerUp {
    const body: RigidBody
    const position: Vector2
    const radius: real
    const lineWidth: real
    const power: string

    /** The power-up's position is none of its rigid body's vectors. */
    ghost predicate Valid()
    {
      body.Valid() &&
      position != body.velocity && position != body.accelaration && position != body.force
    }

    function State(): PowerUpState
      reads position, body.velocity, body.accelaration, body.force
    {
      PowerUpState(position.Value(), body.State())
    }

    /** Shifts the caller's `startPosition` right by half the block width, in
        place, and keeps that object as the position; keeps the
        configuration's velocity object as the velocity. */
    constructor (radius0: real, lineWidth0: real, mass: real, velocity: Vector2,
                 startPosition: Vector2, blockWidth: real, power0: string)
      requires startPosition != velocity
      modifies startPosition
      ensures Valid() && position == startPosition && body.velocity == velocity
      ensures fresh(body) && fresh(body.accelaration) && fresh(body.force)
      ensures position.Value() == Vec(old(startPosition.x) + blockWidth / 2.0, old(startPosition.y))
      ensures body.State() == Motion(old(velocity.Value()), Zero, Zero) && body.mass == mass
      ensures radius == radius0 && lineWidth == lineWidth0 && power == power0
    {
      body := new RigidBody(mass, velocity);
      radius := radius0;
      lineWidth := lineWidth0;
      startPosition.x := startPosition.x + blockWidth / 2.0;
      position := startPosition;
      power := power0;
    }

    /** `checkPaddleBox`: a function, so it cannot change the power-up or
        the paddle. */
    predicate CheckPaddleBox(paddle: Paddles.Paddle)
      reads position, body.velocity, paddle, paddle.position
    {
      Captured(position.Value(), body.velocity.y, radius + lineWidth / 2.0, paddle.Bounds())
    }

    method Update(dt: real)
      requires Valid() && body.mass != 0.0
      modifies position, body.velocity, body.accelaration, body.force
      ensures State() == Tick(old(State()), body.mass, dt)
    {
      body.UpdatePhysics(dt);
      Move();
    }

    method Move()
      requires Valid()
      modifies position
      ensures position.Value() == Add(old(position.Value()), body.velocity.Value())
    {
      position.x := position.x + body.velocity.x;
      position.y := position.y + body.velocity.y;
    }
  }
}
