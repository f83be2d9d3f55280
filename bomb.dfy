/** Bombs: dropped explosives with a fuse, and the player's bomb inventory. */
module Bombs {
  import opened Vectors
  import opened Constants
  import opened Sprites
  import opened CircleShapes
  import opened Timers

  /** Seconds of fuse left at which a bomb counts as about to detonate. */
  const DetonatingThreshold: real := 0.2

  /** Seconds between two drops. */
  const DropCooldown: real := 0.5

  /** How far behind the ship a dropped bomb is thrown (`Vector2(0, -1)`), and how fast. */
  const Backward := Vec2(0.0, -1.0)
  const BackwardSpeed: real := 50.0

  class Bomb {
    var position: Vec2
    var velocity: Vec2
    const radius: real
    var fuseTimer: real
    var exploded: bool

    /** `Bomb(x, y, velocity)`, registered in the bomb group. */
    constructor (bombs: Group<Bomb>, x: real, y: real, velocity: Vec2)
      modifies bombs
      ensures position == Vec2(x, y) && this.velocity == velocity && radius == BombRadius
      ensures fuseTimer == BombFuseTime && !exploded
      ensures bombs.members == old(bombs.members) + {this}
    {
      position := Vec2(x, y);
      this.velocity := velocity;
      radius := BombRadius;
      fuseTimer := BombFuseTime;
      exploded := false;
      new;
      bombs.Add(this);
    }

    /** `is_detonating`. */
    predicate IsDetonating()
      reads this
    {
      Detonating(fuseTimer)
    }

    /**
     * `update`: damp the velocity by (1 - 0.5 dt), drift, wrap, burn dt of
     * fuse; the bomb is marked exploded once the fuse is spent, and the
     * mark is never cleared.
     */
    method Update(dt: real)
      modifies this`position, this`velocity, this`fuseTimer, this`exploded
      ensures velocity == Damped(old(velocity), dt)
      ensures position == Wrapped(old(position).Add(velocity.Scale(dt)), radius)
      ensures fuseTimer == old(fuseTimer) - dt
      ensures exploded == (old(exploded) || FuseSpent(fuseTimer))
    {
      velocity := velocity.Scale(1.0 - 0.5 * dt);
      position := position.Add(velocity.Scale(dt));
      position := Wrapped(position, radius);
      fuseTimer := fuseTimer - dt;
      if fuseTimer <= 0.0 {
        exploded := true;
      }
    }

    /** `check_asteroid_in_blast(asteroid_pos, asteroid_radius)`. */
    predicate InBlast(asteroidPos: Vec2, asteroidRadius: real)
      reads this
    {
      BlastReaches(position, asteroidPos, asteroidRadius)
    }
  }

  predicate Detonating(fuseTimer: real)
  {
    fuseTimer <= DetonatingThreshold
  }

  predicate FuseSpent(fuseTimer: real)
  {
    fuseTimer <= 0.0
  }

  /** A bomb's velocity after one update's drag. */
  function Damped(v: Vec2, dt: real): Vec2
  {
    v.Scale(1.0 - 0.5 * dt)
  }

  /** The blast test: centre distance at most 150 plus the asteroid's radius. */
  predicate BlastReaches(bombPos: Vec2, asteroidPos: Vec2, asteroidRadius: real)
  {
    WithinDistance(bombPos, asteroidPos, BombExplosionRadius + asteroidRadius)
  }

  /** The blast test compares the true distance with 150 + radius, boundary included. */
  lemma BlastReachesIffDistance(bombPos: Vec2, asteroidPos: Vec2, asteroidRadius: real, d: real)
    requires 0.0 <= d && d * d == DistanceSquared(bombPos, asteroidPos)
    ensures BlastReaches(bombPos, asteroidPos, asteroidRadius) <==> d <= BombExplosionRadius + asteroidRadius
  {
    WithinDistanceIffDistance(bombPos, asteroidPos, BombExplosionRadius + asteroidRadius, d);
  }

  /** A spent fuse is also a detonating one, so the flag is raised only after the warning. */
  lemma SpentFuseIsDetonating(fuseTimer: real)
    ensures FuseSpent(fuseTimer) ==> Detonating(fuseTimer)
    ensures Detonating(fuseTimer) <==> fuseTimer <= 0.2
  {
  }

  /**
   * The fuse of a fresh bomb burns for `BOMB_FUSE_TIME` = 2 seconds: it has
   * exploded after a run of updates exactly when the steps so far have
   * added up to 2 at some point.
   */
  lemma FuseBurnsDown(dts: seq<real>)
    ensures Lapses(BombFuseTime, dts) <==> exists k :: 0 < k <= |dts| && Sum(dts[..k]) >= 2.0
  {
    LapsesIffElapsed(BombFuseTime, dts);
  }

  /** `BombInventory`: bombs in hand and the delay between drops. */
  class BombInventory {
    const maxBombs: nat
    var bombs: int
    var dropCooldown: real

    ghost predicate Valid()
      reads this
    {
      0 <= bombs <= maxBombs
    }

    /** `BombInventory(max_bombs)`: the inventory starts full. */
    constructor (maxBombs: nat)
      ensures Valid() && this.maxBombs == maxBombs && bombs == maxBombs && dropCooldown == 0.0
    {
      this.maxBombs := maxBombs;
      bombs := maxBombs;
      dropCooldown := 0.0;
    }

    /** `update`: the cooldown runs down only while it is positive. */
    method Update(dt: real)
      modifies this`dropCooldown
      ensures dropCooldown == CooledDown(old(dropCooldown), dt)
    {
      if dropCooldown > 0.0 {
        dropCooldown := dropCooldown - dt;
      }
    }

    /** `can_drop`. */
    predicate CanDrop()
      reads this
    {
      bombs > 0 && dropCooldown <= 0.0
    }

    /**
     * `drop(position, player_velocity, player_rotation)`: refused (None, no
     * change) unless `can_drop`; otherwise one bomb fewer, a half-second
     * cooldown, and a new bomb at the ship's position thrown backwards.
     */
    method Drop(bombGroup: Group<Bomb>, position: Vec2, playerVelocity: Vec2, playerRotation: real, rotate: Rotation)
      returns (bomb: Bomb?)
      requires Valid()
      modifies this`bombs, this`dropCooldown, bombGroup
      ensures Valid()
      ensures bomb == null <==> !old(CanDrop())
      ensures bomb == null ==> bombs == old(bombs) && dropCooldown == old(dropCooldown) && bombGroup.members == old(bombGroup.members)
      ensures bomb != null ==>
        bombs == old(bombs) - 1 && dropCooldown == DropCooldown &&
        fresh(bomb) && bombGroup.members == old(bombGroup.members) + {bomb} &&
        bomb.position == position && bomb.fuseTimer == BombFuseTime && !bomb.exploded &&
        bomb.velocity == DropVelocity(playerVelocity, rotate(Backward, playerRotation))
    {
      if !CanDrop() {
        return null;
      }
      bombs := bombs - 1;
      dropCooldown := DropCooldown;
      var backward := rotate(Backward, playerRotation);
      var bombVelocity := playerVelocity.Scale(0.5).Add(backward.Scale(BackwardSpeed));
      bomb := new Bomb(bombGroup, position.x, position.y, bombVelocity);
    }

    /** `add_bomb`: one more, capped at the maximum. */
    method AddBomb()
      requires Valid()
      modifies this`bombs
      ensures Valid()
      ensures bombs == if old(bombs) + 1 < maxBombs then old(bombs) + 1 else maxBombs
    {
      bombs := if bombs + 1 < maxBombs then bombs + 1 else maxBombs;
    }

    /** `reset`: refill for a new life. */
    method Reset()
      modifies this`bombs
      ensures Valid() && bombs == maxBombs
    {
      bombs := maxBombs;
    }
  }

  /** Half the ship's velocity plus the backward throw. */
  function DropVelocity(playerVelocity: Vec2, backward: Vec2): Vec2
  {
    playerVelocity.Scale(0.5).Add(backward.Scale(BackwardSpeed))
  }
}
