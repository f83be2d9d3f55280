/** Shots: short-lived projectiles fired by the player's weapons. */
module Shots {
  import opened Vectors
  import opened Constants
  import opened Sprites
  import opened CircleShapes

  /** The defaults of the constructor's `color` and `damage` arguments. */
  const DefaultShotColor := Color(255, 255, 100)
  const DefaultShotDamage: real := 1.0

  /** Seconds a shot lives before it despawns. */
  const ShotLifetime: real := 3.0

  class Shot {
    var position: Vec2
    var velocity: Vec2
    const radius: real
    const color: Color
    const damage: real
    var lifetime: real

    /** `Shot(x, y, radius, color, damage)`, registered in the shot group. */
    constructor (shots: Group<Shot>, x: real, y: real, radius: real, color: Color, damage: real)
      modifies shots
      ensures position == Vec2(x, y) && velocity == Zero && this.radius == radius
      ensures this.color == color && this.damage == damage && lifetime == ShotLifetime
      ensures shots.members == old(shots.members) + {this}
    {
      position := Vec2(x, y);
      velocity := Zero;
      this.radius := radius;
      this.color := color;
      this.damage := damage;
      lifetime := ShotLifetime;
      new;
      shots.Add(this);
    }

    /**
     * `update`: drift and wrap, then lose dt of lifetime; the shot leaves its
     * group in the update that takes the lifetime to 0 or below.
     */
    method Update(shots: Group<Shot>, dt: real)
      modifies this`position, this`lifetime, shots
      ensures position == Wrapped(old(position).Add(velocity.Scale(dt)), radius)
      ensures lifetime == old(lifetime) - dt
      ensures shots.members == if Expired(lifetime) then old(shots.members) - {this} else old(shots.members)
    {
      position := position.Add(velocity.Scale(dt));
      position := Wrapped(position, radius);
      lifetime := lifetime - dt;
      if lifetime <= 0.0 {
        shots.Kill(this);
      }
    }
  }

  predicate Expired(lifetime: real)
  {
    lifetime <= 0.0
  }
}
