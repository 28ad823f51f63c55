/** The player: a body that falls, moves forward and flaps. */
module Players {

  /** The player's state as a value: position and vertical velocity (positive is down). */
  datatype Body = Body(x: real, y: real, velocity: real)

  const TerminalVelocity: real := 2.0
  const GravityIncrement: real := 0.2
  const FlapVelocity: real := -2.0

  /** One physics step (`gravity_and_move`): accelerate unless at the cap, fall, move one
      column forward, and never go above row 0. */
  function GravityStep(b: Body): (r: Body)
    ensures r.x == b.x + 1.0
    ensures b.velocity < TerminalVelocity ==> r.velocity == b.velocity + GravityIncrement
    ensures b.velocity >= TerminalVelocity ==> r.velocity == b.velocity
    ensures r.y >= 0.0
    ensures b.y + r.velocity >= 0.0 ==> r.y == b.y + r.velocity
    ensures b.y + r.velocity < 0.0 ==> r.y == 0.0
  {
    var velocity := if b.velocity < TerminalVelocity then b.velocity + GravityIncrement else b.velocity;
    var y := b.y + velocity;
    Body(b.x + 1.0, if y < 0.0 then 0.0 else y, velocity)
  }

  /** `flap`: the velocity becomes the upward flap speed whatever it was; position is kept. */
  function Impulse(b: Body): (r: Body)
    ensures r.velocity == FlapVelocity
    ensures r.x == b.x && r.y == b.y
  {
    b.(velocity := FlapVelocity)
  }

  lemma ImpulseIdempotent(b: Body)
    ensures Impulse(Impulse(b)) == Impulse(b)
  {
  }

  /** The velocities the game can reach: from the flap speed up to just past the cap
      (a step taken just below the cap may overshoot it by less than one increment). */
  predicate VelocityInRange(v: real)
  {
    FlapVelocity <= v < TerminalVelocity + GravityIncrement
  }

  lemma GravityKeepsVelocityInRange(b: Body)
    requires VelocityInRange(b.velocity)
    ensures VelocityInRange(GravityStep(b).velocity)
  {
  }

  lemma ImpulseKeepsVelocityInRange(b: Body)
    ensures VelocityInRange(Impulse(b).velocity)
  {
  }

  /** `Player`, whose methods update its fields in place. */
  class Player {
    var x: real
    var y: real
    var velocity: real

    function Value(): Body
      reads this
    {
      Body(x, y, velocity)
    }

    /** `Player::new(x, y)`: at rest at the given position. */
    constructor (x0: real, y0: real)
      ensures Value() == Body(x0, y0, 0.0)
    {
      x, y, velocity := x0, y0, 0.0;
    }

    method GravityAndMove()
      modifies this
      ensures Value() == GravityStep(old(Value()))
    {
      if velocity < TerminalVelocity {
        velocity := velocity + GravityIncrement;
      }
      y := y + velocity;
      x := x + 1.0;
      if y < 0.0 {
        y := 0.0;
      }
    }

    method Flap()
      modifies this
      ensures Value() == Impulse(old(Value()))
    {
      velocity := FlapVelocity;
    }
  }
}
