/**
 * Asteroids: drifting circles that split into two smaller ones when hit.
 * A new asteroid registers itself in the asteroid group, as the sprite
 * `containers` mechanism does when the game constructs one.
 */
module Asteroids {
  import opened Vectors
  import opened Constants
  import opened Sprites
  import opened Randomness
  import opened CircleShapes
  import opened Options

  /**
   * An asteroid. The fields it inherits from `CircleShape` are its own here:
   * `position`, `velocity` and the fixed `radius`.
   */
  class Asteroid {
    var position: Vec2
    var velocity: Vec2
    const radius: real

    constructor (asteroids: Group<Asteroid>, x: real, y: real, radius: real)
      modifies asteroids
      ensures position == Vec2(x, y) && velocity == Zero && this.radius == radius
      ensures asteroids.members == old(asteroids.members) + {this}
    {
      position := Vec2(x, y);
      velocity := Zero;
      this.radius := radius;
      new;
      asteroids.Add(this);
    }

    /** `update`: drift by velocity * dt, then `wrap_screen`; the velocity stays. */
    method Update(dt: real)
      modifies this`position
      ensures position == Wrapped(old(position).Add(velocity.Scale(dt)), radius)
    {
      position := position.Add(velocity.Scale(dt));
      position := Wrapped(position, radius);
    }

    /**
     * `split`: the asteroid leaves its group; above the minimum radius two
     * children of radius `radius - 20` appear at its position, their
     * velocities rotated by +a and -a for one draw a in [20, 50].
     * The source returns nothing; `first` and `second` only name the
     * children for the contract.
     */
    method Split(asteroids: Group<Asteroid>, rng: Random, rotate: Rotation)
      returns (ghost first: Asteroid?, ghost second: Asteroid?)
      requires rng.Valid()
      modifies asteroids, rng
      ensures this !in asteroids.members
      ensures radius <= AsteroidMinRadius ==>
        first == null && second == null &&
        asteroids.members == old(asteroids.members) - {this} &&
        rng.index == old(rng.index)
      ensures radius > AsteroidMinRadius ==>
        rng.index == old(rng.index) + 1 &&
        first != null && second != null && first != second && fresh(first) && fresh(second) &&
        asteroids.members == old(asteroids.members) - {this} + {first, second} &&
        IsChild(first, rotate(velocity, Angle(rng.draws(old(rng.index))))) &&
        IsChild(second, rotate(velocity, -Angle(rng.draws(old(rng.index)))))
    {
      asteroids.Kill(this);
      if radius <= AsteroidMinRadius {
        return null, null;
      }
      ghost var u := rng.draws(rng.index);
      var angle := rng.Uniform(20.0, 50.0);
      assert angle == Angle(u);
      var asteroid1 := CreateSplitAsteroid(asteroids, rotate, angle);
      var asteroid2 := CreateSplitAsteroid(asteroids, rotate, -angle);
      first, second := asteroid1, asteroid2;
    }

    /** What a child of this asteroid looks like right after the split. */
    ghost predicate IsChild(child: Asteroid, velocity: Vec2)
      reads this, child
    {
      child.position == position &&
      child.radius == radius - AsteroidMinRadius &&
      child.velocity == velocity
    }

    /** The nested `create_split_asteroid(angle_offset)`. */
    method CreateSplitAsteroid(asteroids: Group<Asteroid>, rotate: Rotation, angleOffset: real)
      returns (asteroid: Asteroid)
      modifies asteroids
      ensures fresh(asteroid)
      ensures asteroids.members == old(asteroids.members) + {asteroid}
      ensures IsChild(asteroid, rotate(velocity, angleOffset))
    {
      var velocity := rotate(this.velocity, angleOffset);
      var newRadius := radius - AsteroidMinRadius;
      asteroid := new Asteroid(asteroids, position.x, position.y, newRadius);
      asteroid.velocity := velocity;
    }
  }

  /** The split angle `random.uniform(20, 50)` for a draw u. */
  function Angle(u: real): (a: real)
    requires 0.0 <= u < 1.0
    ensures 20.0 <= a <= 50.0
  {
    ScaledUnitInterval(30.0, u);
    20.0 + (50.0 - 20.0) * u
  }

  /** The radius of the children of a parent of radius r, if it has any. */
  function ChildRadius(r: real): (c: Option<real>)
    ensures r <= AsteroidMinRadius <==> c == None
    ensures c.Some? ==> 0.0 < c.value == r - AsteroidMinRadius < r
  {
    if r <= AsteroidMinRadius then None else Some(r - AsteroidMinRadius)
  }

  /**
   * The number of successive generations of splits an asteroid of radius r
   * goes through before its descendants are too small to split.
   */
  function Generations(r: real): nat
    decreases if r <= AsteroidMinRadius then 0 else r.Floor + 1
  {
    match ChildRadius(r)
    case None => 0
    case Some(c) => 1 + Generations(c)
  }

  /** Splitting lowers the radius by 20 each time, so every chain stops. */
  lemma {:induction false} GenerationsBound(r: real)
    ensures r - AsteroidMinRadius * (Generations(r) as real) <= AsteroidMinRadius
    ensures r > AsteroidMinRadius ==>
      Generations(r) >= 1 && r - AsteroidMinRadius * ((Generations(r) - 1) as real) > AsteroidMinRadius
    decreases if r <= AsteroidMinRadius then 0 else r.Floor + 1
  {
    if r > AsteroidMinRadius {
      GenerationsBound(r - AsteroidMinRadius);
    }
  }

  /** An asteroid of the largest radius, `ASTEROID_MAX_RADIUS` = 60, splits twice over. */
  lemma LargestAsteroidGenerations()
    ensures Generations(AsteroidMaxRadius) == 2
  {
    assert Generations(20.0) == 0;
    assert Generations(40.0) == 1;
  }
}
