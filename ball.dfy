/** The current ball: wall reflection with position clamping on all four
    walls, the paddle bounce that sets the horizontal velocity from where the
    ball hit, and the per-frame update order. The ball owns a rigid body for
    its velocity, acceleration and force. */
module Balls {
  import opened Geometry
  import opened RigidBodies
  import Paddles

  /** Position and velocity of the ball, taken as values. */
  datatype Kinematics = Kinematics(position: Vec, velocity: Vec)

  /** One coordinate of the centre with the matching velocity component. */
  datatype Track = Track(pos: real, vel: real)

  /** Everything `update` changes: position plus the rigid body's vectors. */
  datatype BallState = BallState(position: Vec, motion: Motion)

  /** The collision radius: radius plus half the stroke. */
  function EffectiveSize(radius: real, lineWidth: real): real
  {
    radius + lineWidth / 2.0
  }

  /** One axis of `checkBoundingBox`. The far wall (`limit`) is checked
      first; the near wall (0) only when the far one did not fire, so at most
      one reflection happens per axis. A reflection clamps the centre to the
      wall it touched and negates the velocity component. */
  function Reflect(t: Track, s: real, limit: real): (r: Track)
    ensures r.vel == t.vel || r.vel == -t.vel
    ensures limit >= 2.0 * s ==> s <= r.pos <= limit - s
    ensures s < t.pos < limit - s ==> r == t
    ensures t.pos + s >= limit ==> r == Track(limit - s, -t.vel)
    ensures t.pos + s < limit && t.pos - s <= 0.0 ==> r == Track(s, -t.vel)
  {
    if t.pos + s >= limit then Track(limit - s, -t.vel)
    else if t.pos - s <= 0.0 then Track(s, -t.vel)
    else t
  }

  /** `checkBoundingBox` on values: the vertical walls (bottom, then top),
      then the horizontal ones (right, then left). */
  function Walls(k: Kinematics, s: real, canvas: Canvas): (r: Kinematics)
    ensures canvas.width >= 2.0 * s && canvas.height >= 2.0 * s ==>
              s <= r.position.x <= canvas.width - s && s <= r.position.y <= canvas.height - s
    ensures s < k.position.x < canvas.width - s && s < k.position.y < canvas.height - s ==> r == k
    ensures Abs(r.velocity.x) == Abs(k.velocity.x) && Abs(r.velocity.y) == Abs(k.velocity.y)
  {
    var ty := Reflect(Track(k.position.y, k.velocity.y), s, canvas.height);
    var tx := Reflect(Track(k.position.x, k.velocity.x), s, canvas.width);
    Kinematics(Vec(tx.pos, ty.pos), Vec(tx.vel, ty.vel))
  }

  /** The bottom wall is reflected too: a ball reaching it is clamped just
      above it and sent back up. */
  lemma BottomWallReflects(k: Kinematics, s: real, canvas: Canvas)
    requires k.position.y + s >= canvas.height
    ensures Walls(k, s, canvas).position.y == canvas.height - s
    ensures Walls(k, s, canvas).velocity.y == -k.velocity.y
  {
  }

  /** The top wall is handled only when the bottom wall did not fire. */
  lemma TopWallReflects(k: Kinematics, s: real, canvas: Canvas)
    requires k.position.y + s < canvas.height && k.position.y - s <= 0.0
    ensures Walls(k, s, canvas).position.y == s
    ensures Walls(k, s, canvas).velocity.y == -k.velocity.y
  {
  }

  /** The right wall takes precedence over the left one. */
  lemma RightWallWins(k: Kinematics, s: real, canvas: Canvas)
    requires k.position.x + s >= canvas.width
    ensures Walls(k, s, canvas).position.x == canvas.width - s
    ensures Walls(k, s, canvas).velocity.x == -k.velocity.x
  {
  }

  /** The two axes do not interact: the vertical outcome depends only on the
      vertical inputs and the horizontal outcome only on the horizontal
      ones. In particular the horizontal walls never touch y or velocity.y. */
  lemma AxesIndependent(k1: Kinematics, k2: Kinematics, s: real, canvas: Canvas)
    ensures k1.position.y == k2.position.y && k1.velocity.y == k2.velocity.y ==>
              Walls(k1, s, canvas).position.y == Walls(k2, s, canvas).position.y &&
              Walls(k1, s, canvas).velocity.y == Walls(k2, s, canvas).velocity.y
    ensures k1.position.x == k2.position.x && k1.velocity.x == k2.velocity.x ==>
              Walls(k1, s, canvas).position.x == Walls(k2, s, canvas).position.x &&
              Walls(k1, s, canvas).velocity.x == Walls(k2, s, canvas).velocity.x
  {
  }

  /** The new velocity after a paddle hit: the horizontal component is SET
      to the hit offset from the paddle's centre, scaled so that the edges
      give -multiplier and +multiplier; the vertical one is negated. */
  function BounceVelocity(v: Vec, x: real, paddleX: real, width: real, multiplier: real): (r: Vec)
    requires width != 0.0
    ensures r.y == -v.y
    ensures x == paddleX + width / 2.0 ==> r.x == 0.0
    ensures x == paddleX ==> r.x == -multiplier
    ensures x == paddleX + width ==> r.x == multiplier
    ensures width > 0.0 && paddleX <= x <= paddleX + width ==> Abs(r.x) <= Abs(multiplier)
  {
    var center := paddleX + width / 2.0;
    var normalized := (x - center) / (width / 2.0);
    var r := Vec(normalized * multiplier, -v.y);
    UnitRatios(width / 2.0);
    if width > 0.0 && paddleX <= x <= paddleX + width then
      OffsetBounded(x - center, width / 2.0, multiplier); r
    else r
  }

  /** Between any two hit points the new horizontal velocity changes in
      proportion to the distance between them: with the zero at the
      centre, this fixes it as the offset over half the width, times the
      multiplier. */
  lemma BounceLinear(v: Vec, x1: real, x2: real, paddleX: real, width: real, multiplier: real)
    requires width != 0.0
    ensures BounceVelocity(v, x2, paddleX, width, multiplier).x -
            BounceVelocity(v, x1, paddleX, width, multiplier).x == (x2 - x1) / (width / 2.0) * multiplier
  {
    var h := width / 2.0;
    var c := paddleX + h;
    calc {
      BounceVelocity(v, x2, paddleX, width, multiplier).x - BounceVelocity(v, x1, paddleX, width, multiplier).x;
    ==
      (x2 - c) / h * multiplier - (x1 - c) / h * multiplier;
    ==
      ((x2 - c) / h - (x1 - c) / h) * multiplier;
    ==  { assert (x2 - c) / h - (x1 - c) / h == (x2 - x1) / h; }
      (x2 - x1) / h * multiplier;
    }
  }

  /** The normalised offsets of the paddle's left edge, right edge and
      centre. */
  lemma UnitRatios(h: real)
    requires h != 0.0
    ensures (-h) / h == -1.0 && h / h == 1.0 && 0.0 / h == 0.0
  {
  }

  /** An offset of at most half a width, normalised by half the width and
      scaled, stays within the scale. */
  lemma OffsetBounded(d: real, half: real, k: real)
    requires half > 0.0 && -half <= d <= half
    ensures Abs(d / half * k) <= Abs(k)
  {
    var q := d / half;
    assert q * half == d;
    if q > 1.0 {
      ProductPositive(q - 1.0, half);
      assert false;
    }
    if q < -1.0 {
      ProductPositive(-1.0 - q, half);
      assert false;
    }
    var m := Abs(k);
    ProductNonNegative(1.0 - q, m);
    ProductNonNegative(q + 1.0, m);
    assert (1.0 - q) * m == m - q * m && (q + 1.0) * m == q * m + m;
    assert q * k == q * m || q * k == -(q * m);
  }

  lemma ProductPositive(a: real, b: real)
    requires a > 0.0 && b > 0.0
    ensures a * b > 0.0
  {
  }

  lemma ProductNonNegative(a: real, b: real)
    requires a >= 0.0 && b >= 0.0
    ensures a * b >= 0.0
  {
  }

  /** The paddle test of `checkPaddleBox`: the ball's vertical extent meets
      the paddle's and its centre is within the paddle's span, edges
      included. There is no test of the direction of travel. */
  predicate OnPaddle(p: Vec, s: real, paddle: Box)
  {
    p.y + s >= paddle.y && p.y - s <= paddle.y + paddle.height &&
    paddle.x <= p.x <= paddle.x + paddle.width
  }

  /** `checkPaddleBox` on values: bounce when on the paddle, else nothing. */
  function PaddleResolve(k: Kinematics, s: real, multiplier: real, paddle: Box): (r: Kinematics)
    requires paddle.width != 0.0
    ensures r.position == k.position
    ensures !OnPaddle(k.position, s, paddle) ==> r == k
    ensures OnPaddle(k.position, s, paddle) ==> r.velocity.y == -k.velocity.y
    ensures OnPaddle(k.position, s, paddle) && paddle.width > 0.0 ==>
              Abs(r.velocity.x) <= Abs(multiplier)
    ensures OnPaddle(k.position, s, paddle) ==>
              r.velocity == BounceVelocity(k.velocity, k.position.x, paddle.x, paddle.width, multiplier)
  {
    if OnPaddle(k.position, s, paddle) then
      k.(velocity := BounceVelocity(k.velocity, k.position.x, paddle.x, paddle.width, multiplier))
    else k
  }

  /** With no descending-direction guard, a ball that touches the paddle
      while rising is turned back down. */
  lemma RisingBallTurnedDown(k: Kinematics, s: real, multiplier: real, paddle: Box)
    requires paddle.width != 0.0
    requires OnPaddle(k.position, s, paddle) && k.velocity.y < 0.0
    ensures PaddleResolve(k, s, multiplier, paddle).velocity.y > 0.0
  {
  }

  /** `move`: position advances by the velocity, which is kept. */
  function Moved(k: Kinematics): (r: Kinematics)
    ensures r.velocity == k.velocity
    ensures Add(r.position, Scale(k.velocity, -1.0)) == k.position
  {
    Kinematics(Add(k.position, k.velocity), k.velocity)
  }

  /** The two collision steps of `update`, walls first, then the paddle.
      Both keep a ball on a large enough canvas inside it. */
  function Collide(k: Kinematics, s: real, multiplier: real, canvas: Canvas, paddle: Box): (r: Kinematics)
    requires paddle.width != 0.0
    ensures canvas.width >= 2.0 * s && canvas.height >= 2.0 * s ==>
              s <= r.position.x <= canvas.width - s && s <= r.position.y <= canvas.height - s
  {
    PaddleResolve(Walls(k, s, canvas), s, multiplier, paddle)
  }

  /** `update` on values: walls, paddle, physics, move, in that order. */
  function Tick(b: BallState, s: real, multiplier: real, mass: real, dt: real,
                canvas: Canvas, paddle: Box): (r: BallState)
    requires mass != 0.0 && paddle.width != 0.0
    ensures r.motion.force == Zero
    ensures var c := Collide(Kinematics(b.position, b.motion.velocity), s, multiplier, canvas, paddle);
            r.motion == Step(b.motion.(velocity := c.velocity), mass, dt) &&
            r.position == Add(c.position, r.motion.velocity)
    ensures b.motion.force == Zero ==>
              var c := Collide(Kinematics(b.position, b.motion.velocity), s, multiplier, canvas, paddle);
              r.motion.velocity == c.velocity && r.position == Add(c.position, c.velocity)
  {
    var c := Collide(Kinematics(b.position, b.motion.velocity), s, multiplier, canvas, paddle);
    var m := Step(b.motion.(velocity := c.velocity), mass, dt);
    var r := BallState(Moved(Kinematics(c.position, m.velocity)).position, m);
    if b.motion.force == Zero then StepAtRest(b.motion.(velocity := c.velocity), mass, dt); r
    else r
  }

  /** The scenario of a ball pushed 5 units past the bottom of a 600-high
      canvas with radius 10 and stroke 2: it is put back at 589 moving up. */
  lemma BottomScenario(x: real, vx: real, width: real)
    ensures Walls(Kinematics(Vec(x, 605.0), Vec(vx, 3.0)), EffectiveSize(10.0, 2.0), Canvas(width, 600.0)).position.y == 589.0
    ensures Walls(Kinematics(Vec(x, 605.0), Vec(vx, 3.0)), EffectiveSize(10.0, 2.0), Canvas(width, 600.0)).velocity.y == -3.0
  {
  }

  class Ball {
    const body: RigidBody
    const position: Vector2
    const radius: real
    const lineWidth: real
    const bounceMultiplier: real

    /** The ball's own vectors are distinct objects. */
    ghost predicate Valid()
    {
      body.Valid() &&
      position != body.velocity && position != body.accelaration && position != body.force
    }

    function Kin(): Kinematics
      reads position, body.velocity
    {
      Kinematics(position.Value(), body.velocity.Value())
    }

    function State(): BallState
      reads position, body.velocity, body.accelaration, body.force
    {
      BallState(position.Value(), body.State())
    }

    /** Position and velocity are copied from the configuration into fresh
        objects; acceleration and force start at zero. */
    constructor (radius0: real, start: Vec, velocity: Vec, mass: real, lineWidth0: real, multiplier: real)
      ensures Valid() && fresh(body) && fresh(position)
      ensures fresh(body.velocity) && fresh(body.accelaration) && fresh(body.force)
      ensures State() == BallState(start, Motion(velocity, Zero, Zero)) && body.mass == mass
      ensures radius == radius0 && lineWidth == lineWidth0 && bounceMultiplier == multiplier
    {
      var v := new Vector2(velocity.x, velocity.y);
      body := new RigidBody(mass, v);
      position := new Vector2(start.x, start.y);
      radius := radius0;
      lineWidth := lineWidth0;
      bounceMultiplier := multiplier;
    }

    method Update(dt: real, canvas: Canvas, paddle: Paddles.Paddle)
      requires Valid() && body.mass != 0.0 && paddle.width != 0.0
      requires paddle.position !in {position, body.velocity, body.accelaration, body.force}
      modifies position, body.velocity, body.accelaration, body.force
      ensures State() == Tick(old(State()), EffectiveSize(radius, lineWidth), bounceMultiplier,
                              body.mass, dt, canvas, old(paddle.Bounds()))
    {
      CheckBoundingBox(canvas);
      CheckPaddleBox(paddle);
      body.UpdatePhysics(dt);
      Move();
    }

    method Move()
      requires Valid()
      modifies position
      ensures Kin() == Moved(old(Kin()))
    {
      position.x := position.x + body.velocity.x;
      position.y := position.y + body.velocity.y;
    }

    method Bounce(posX: real, width: real)
      requires Valid() && width != 0.0
      modifies body.velocity
      ensures body.velocity.Value() ==
                BounceVelocity(old(body.velocity.Value()), position.x, posX, width, bounceMultiplier)
    {
      var center := posX + width / 2.0;
      var distanceFromCenter := position.x - center;
      var normalizedDistance := distanceFromCenter / (width / 2.0);
      body.velocity.x := normalizedDistance * bounceMultiplier;
      body.velocity.y := body.velocity.y * -1.0;
    }

    method CheckBoundingBox(canvas: Canvas)
      requires Valid()
      modifies position, body.velocity
      ensures Kin() == Walls(old(Kin()), EffectiveSize(radius, lineWidth), canvas)
    {
      var ballSize := radius + lineWidth / 2.0;
      if position.y + ballSize >= canvas.height {
        position.y := canvas.height - ballSize;
        body.velocity.y := body.velocity.y * -1.0;
      } else if position.y - ballSize <= 0.0 {
        position.y := ballSize;
        body.velocity.y := body.velocity.y * -1.0;
      }
      if position.x + ballSize >= canvas.width {
        position.x := canvas.width - ballSize;
        body.velocity.x := body.velocity.x * -1.0;
      } else if position.x - ballSize <= 0.0 {
        position.x := ballSize;
        body.velocity.x := body.velocity.x * -1.0;
      }
    }

    method CheckPaddleBox(paddle: Paddles.Paddle)
      requires Valid() && paddle.width != 0.0
      modifies body.velocity
      ensures Kin() == PaddleResolve(old(Kin()), EffectiveSize(radius, lineWidth), bounceMultiplier,
                                     old(paddle.Bounds()))
    {
      var ballSize := radius + lineWidth / 2.0;
      if position.y + ballSize >= paddle.position.y &&
         position.y - ballSize <= paddle.position.y + paddle.height
      {
        if position.x >= paddle.position.x && position.x <= paddle.position.x + paddle.width {
          Bounce(paddle.position.x, paddle.width);
        }
      }
    }
  }
}
