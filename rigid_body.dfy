/** The force -> acceleration -> velocity integrator that balls and
    power-ups use. The source spells the field `accelaration`; the model
    keeps that spelling. Position is not part of a rigid body: the owning
    entity moves itself. */
module RigidBodies {
  import opened Geometry

  /** Velocity, acceleration and accumulated force, taken as values. */
  datatype Motion = Motion(velocity: Vec, accelaration: Vec, force: Vec)

  /** One `updatePhysics` step on values. The acceleration it leaves behind
      satisfies F = m * a for the force that was pending, the velocity moved
      by exactly a * dt, and no force is left pending. */
  function Step(m: Motion, mass: real, dt: real): (r: Motion)
    requires mass != 0.0
    ensures r.force == Zero
    ensures Scale(r.accelaration, mass) == m.force
    ensures Add(r.velocity, Scale(r.accelaration, -dt)) == m.velocity
  {
    var a := Vec(m.force.x / mass, m.force.y / mass);
    Motion(Add(m.velocity, Scale(a, dt)), a, Zero)
  }

  /** `applyForce` on values: the pending force grows by `f`. */
  function Pushed(m: Motion, f: Vec): (r: Motion)
    ensures r.velocity == m.velocity && r.accelaration == m.accelaration
    ensures Add(r.force, Scale(f, -1.0)) == m.force
  {
    m.(force := Add(m.force, f))
  }

  /** Two forces applied one after the other act as their sum. */
  lemma ForcesAccumulate(m: Motion, f: Vec, g: Vec)
    ensures Pushed(Pushed(m, f), g) == Pushed(m, Add(f, g))
  {
  }

  /** With no pending force (gravity is disabled and nothing in the game
      applies a force), a step clears the acceleration and keeps the
      velocity. */
  lemma StepAtRest(m: Motion, mass: real, dt: real)
    requires mass != 0.0 && m.force == Zero
    ensures Step(m, mass, dt).accelaration == Zero
    ensures Step(m, mass, dt).velocity == m.velocity
  {
  }

  /** Because the force is cleared at the end of every step, a second step
      with no force applied in between no longer changes the velocity. */
  lemma StepSettles(m: Motion, mass: real, dt: real, dt': real)
    requires mass != 0.0
    ensures Step(Step(m, mass, dt), mass, dt').velocity == Step(m, mass, dt).velocity
    ensures Step(Step(m, mass, dt), mass, dt').accelaration == Zero
  {
  }

  class RigidBody {
    const mass: real
    const velocity: Vector2
    const accelaration: Vector2
    const force: Vector2

    /** The three vectors are distinct objects. */
    ghost predicate Valid()
    {
      velocity != accelaration && velocity != force && accelaration != force
    }

    function State(): Motion
      reads velocity, accelaration, force
    {
      Motion(velocity.Value(), accelaration.Value(), force.Value())
    }

    /** `super(mass, velocity)`: the velocity object is kept by reference;
        acceleration and force take their default, fresh zero vectors. */
    constructor (m: real, v: Vector2)
      ensures Valid() && mass == m && velocity == v
      ensures fresh(accelaration) && fresh(force)
      ensures accelaration.Value() == Zero && force.Value() == Zero
    {
      mass, velocity := m, v;
      accelaration := new Vector2(0.0, 0.0);
      force := new Vector2(0.0, 0.0);
    }

    /** The constructor with every vector left at its default. */
    constructor AtRest(m: real)
      ensures Valid() && mass == m
      ensures fresh(velocity) && fresh(accelaration) && fresh(force)
      ensures State() == Motion(Zero, Zero, Zero)
    {
      mass := m;
      velocity := new Vector2(0.0, 0.0);
      accelaration := new Vector2(0.0, 0.0);
      force := new Vector2(0.0, 0.0);
    }

    method UpdatePhysics(dt: real)
      requires Valid() && mass != 0.0
      modifies velocity, accelaration, force
      ensures State() == Step(old(State()), mass, dt)
    {
      UpdateAccelaration();
      UpdateVelocity(dt);
      ResetForce();
    }

    method UpdateAccelaration()
      requires Valid() && mass != 0.0
      modifies accelaration
      ensures accelaration.Value() == Vec(force.x / mass, force.y / mass)
    {
      accelaration.x := force.x / mass;
      accelaration.y := force.y / mass;
    }

    method UpdateVelocity(dt: real)
      requires Valid()
      modifies velocity
      ensures velocity.Value() == Add(old(velocity.Value()), Scale(accelaration.Value(), dt))
    {
      velocity.x := velocity.x + accelaration.x * dt;
      velocity.y := velocity.y + accelaration.y * dt;
    }

    /** Accumulates `f` into the pending force; correct even when `f` is
        the force object itself. */
    method ApplyForce(f: Vector2)
      requires Valid()
      modifies force
      ensures State() == Pushed(old(State()), old(f.Value()))
    {
      force.x := force.x + f.x;
      force.y := force.y + f.y;
    }

    method ResetForce()
      modifies force
      ensures force.Value() == Zero
    {
      force.x := 0.0;
      force.y := 0.0;
    }
  }
}
