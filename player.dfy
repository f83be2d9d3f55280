/** The player's ship: its triangular hull, movement, and the systems it carries. */
module Players {
  import opened Vectors
  import opened Constants
  import opened Sprites
  import opened Randomness
  import opened Timers
  import opened CircleShapes
  import opened Shots
  import opened Bombs
  import opened PowerUps
  import opened Weapons
  import opened Options

  /** The keys `update` polls: A or LEFT, D or RIGHT, W or UP, S or DOWN. */
  datatype Keys = Keys(left: bool, right: bool, up: bool, down: bool)

  /** Seconds of invulnerability after a reset. */
  const RespawnInvulnerability: real := 3.0

  /** The weakened reverse thrust. */
  const ReverseThrust: real := -0.5

  /** The weapons `switch_weapon` maps the keys 1 to 4 to. */
  const WeaponKeys: seq<WeaponType> := [Standard, Spread, Rapid, Laser]

  /** The weapons a weapon power-up picks from. */
  const BoostWeapons: seq<WeaponType> := [Spread, Rapid, Laser]

  /**
   * The hull for facing `forward` (the unit vector `Vector2(0, 1)` rotated by
   * the ship's rotation) and `side` (the same rotated by a further 90 degrees):
   * the tip ahead of the centre and the two base corners behind it.
   */
  function Hull(position: Vec2, radius: real, forward: Vec2, side: Vec2): (tri: seq<Vec2>)
    ensures |tri| == 3
  {
    var right := side.Scale(radius / 1.5);
    [position.Add(forward.Scale(radius)),
     position.Sub(forward.Scale(radius)).Sub(right),
     position.Sub(forward.Scale(radius)).Add(right)]
  }

  /** The base corners lie symmetric about the axis through the centre and the tip. */
  lemma HullSymmetric(position: Vec2, radius: real, forward: Vec2, side: Vec2)
    ensures Hull(position, radius, forward, side)[1].Add(Hull(position, radius, forward, side)[2]) ==
      position.Sub(forward.Scale(radius)).Scale(2.0)
  {
  }

  /** A rotation that adds `PLAYER_TURN_SPEED * dt` per key held, left negative. */
  function Steered(rotation: real, keys: Keys, dt: real): real
  {
    var r := if keys.left then rotation - PlayerTurnSpeed * dt else rotation;
    if keys.right then r + PlayerTurnSpeed * dt else r
  }

  /** `forward * accel * dt * direction` added to the velocity. */
  function Thrusted(velocity: Vec2, forward: Vec2, accel: real, dt: real, direction: real): Vec2
  {
    velocity.Add(forward.Scale(accel).Scale(dt).Scale(direction))
  }

  /** The acceleration `move` uses: boosted while the speed effect is active. */
  function Acceleration(boosted: bool): (a: real)
    ensures a == if boosted then 900.0 else 500.0
  {
    if boosted then PlayerAccelerationBoost else PlayerAcceleration
  }

  /**
   * The velocity after the thrust keys of one update, for facing `forward`
   * and with or without the speed boost.
   */
  function ThrustedBy(velocity: Vec2, keys: Keys, dt: real, forward: Vec2, boosted: bool): Vec2
  {
    var accel := Acceleration(boosted);
    var v := if keys.up then Thrusted(velocity, forward, accel, dt, 1.0) else velocity;
    if keys.down then Thrusted(v, forward, accel, dt, ReverseThrust) else v
  }

  /** The velocity after one update's friction, `velocity * (1 - 0.5 dt)`. */
  function WithFriction(velocity: Vec2, dt: real): Vec2
  {
    velocity.Scale(1.0 - PlayerFriction * dt)
  }

  class Player {
    var position: Vec2
    var velocity: Vec2
    const radius: real
    var rotation: real
    var invulnerableTimer: real
    var isThrusting: bool
    const weaponManager: WeaponManager
    const bombInventory: BombInventory
    const powerUpManager: PowerUpManager

    /** The objects this ship owns and updates. */
    function Repr(): set<object>
    {
      {this, weaponManager, bombInventory, powerUpManager} +
      {weaponManager.standard, weaponManager.spread, weaponManager.rapid, weaponManager.laser}
    }

    ghost predicate Valid()
      reads this, weaponManager, bombInventory
    {
      weaponManager.Valid() && bombInventory.Valid() && bombInventory.maxBombs == BombMaxCount
    }

    /** `Player(x, y)`: at rest, facing up, with fresh systems. */
    constructor (x: real, y: real)
      ensures Valid() && fresh(Repr())
      ensures position == Vec2(x, y) && velocity == Zero && radius == PlayerRadius
      ensures rotation == 0.0 && invulnerableTimer == 0.0 && !isThrusting
      ensures weaponManager.availableWeapons == [Standard] && weaponManager.tempWeapon.None?
      ensures bombInventory.bombs == BombMaxCount && powerUpManager.activeEffects == map[]
    {
      position := Vec2(x, y);
      velocity := Zero;
      radius := PlayerRadius;
      rotation := 0.0;
      invulnerableTimer := 0.0;
      isThrusting := false;
      weaponManager := new WeaponManager();
      bombInventory := new BombInventory(BombMaxCount);
      powerUpManager := new PowerUpManager();
    }

    /** `triangle()`, with `Vector2.rotate` supplied as `rotate`. */
    function Triangle(rotate: Rotation): (tri: seq<Vec2>)
      reads this
      ensures |tri| == 3
    {
      Hull(position, radius, rotate(Up, rotation), rotate(Up, rotation + 90.0))
    }

    /** `collides_with(other)`: the hull against the other sprite's circle. */
    ghost predicate Touches(otherPosition: Vec2, otherRadius: real, rotate: Rotation)
      reads this
    {
      PolygonHitsCircle(Triangle(rotate), otherPosition, otherRadius)
    }

    method CollidesWith(otherPosition: Vec2, otherRadius: real, rotate: Rotation) returns (hit: bool)
      ensures hit == Touches(otherPosition, otherRadius, rotate)
    {
      hit := PolygonCollidesCircle(Triangle(rotate), otherPosition, otherRadius);
    }

    /** `move(dt, direction)`: thrust along the facing direction. */
    method Move(dt: real, direction: real, rotate: Rotation)
      modifies this`velocity
      ensures velocity == Thrusted(old(velocity), rotate(Up, rotation),
        Acceleration(powerUpManager.HasSpeedBoost()), dt, direction)
    {
      var forward := rotate(Up, rotation);
      var accel := PlayerAcceleration;
      if powerUpManager.HasSpeedBoost() {
        accel := PlayerAccelerationBoost;
      }
      velocity := velocity.Add(forward.Scale(accel).Scale(dt).Scale(direction));
    }

    /**
     * `update(dt)`: turn and thrust for the keys held, run down every
     * system's timers, then friction, drift and wrap.
     */
    method Update(dt: real, keys: Keys, rotate: Rotation)
      requires Valid()
      modifies Repr()
      ensures Valid()
      ensures rotation == Steered(old(rotation), keys, dt)
      ensures isThrusting == keys.up
      ensures invulnerableTimer == CooledDown(old(invulnerableTimer), dt)
      ensures velocity == WithFriction(ThrustedBy(old(velocity), keys, dt, rotate(Up, rotation),
        old(powerUpManager.HasSpeedBoost())), dt)
      ensures position == Wrapped(old(position).Add(velocity.Scale(dt)), radius)
      ensures bombInventory.bombs == old(bombInventory.bombs)
      ensures bombInventory.dropCooldown == CooledDown(old(bombInventory.dropCooldown), dt)
      ensures powerUpManager.activeEffects == Ticked(old(powerUpManager.activeEffects), dt)
      ensures weaponManager.availableWeapons == old(weaponManager.availableWeapons)
      ensures weaponManager.currentIndex == old(weaponManager.currentIndex)
      ensures weaponManager.tempWeaponTimer == CooledDown(old(weaponManager.tempWeaponTimer), dt)
      ensures weaponManager.tempWeapon ==
        if old(weaponManager.tempWeaponTimer) > 0.0 && weaponManager.tempWeaponTimer <= 0.0 then None
        else old(weaponManager.tempWeapon)
      ensures forall i :: 0 <= i < 4 ==>
        weaponManager.Arsenal()[i].cooldownTimer == CooledDown(old(weaponManager.Arsenal()[i].cooldownTimer), dt)
    {
      Steer(dt, keys, rotate);
      UpdateSystems(dt);
      Drift(dt);
    }

    /** The last part of `update`: the grace timer runs down, friction slows the ship and it moves, wrapping. */
    method Drift(dt: real)
      modifies this`invulnerableTimer, this`velocity, this`position
      ensures invulnerableTimer == CooledDown(old(invulnerableTimer), dt)
      ensures velocity == WithFriction(old(velocity), dt)
      ensures position == Wrapped(old(position).Add(velocity.Scale(dt)), radius)
    {
      if invulnerableTimer > 0.0 {
        invulnerableTimer := invulnerableTimer - dt;
      }
      velocity := velocity.Scale(1.0 - PlayerFriction * dt);
      position := position.Add(velocity.Scale(dt));
      position := Wrapped(position, radius);
    }

    /** The turning and thrust part of `update`. */
    method Steer(dt: real, keys: Keys, rotate: Rotation)
      modifies this`rotation, this`velocity, this`isThrusting
      ensures rotation == Steered(old(rotation), keys, dt)
      ensures isThrusting == keys.up
      ensures velocity == ThrustedBy(old(velocity), keys, dt, rotate(Up, rotation), powerUpManager.HasSpeedBoost())
    {
      if keys.left {
        rotation := rotation - PlayerTurnSpeed * dt;
      }
      if keys.right {
        rotation := rotation + PlayerTurnSpeed * dt;
      }
      isThrusting := false;
      if keys.up {
        Move(dt, 1.0, rotate);
        isThrusting := true;
      }
      if keys.down {
        Move(dt, ReverseThrust, rotate);
      }
    }

    /** The part of `update` that runs down the weapon, bomb and power-up timers. */
    method UpdateSystems(dt: real)
      requires Valid()
      modifies weaponManager, weaponManager.standard, weaponManager.spread, weaponManager.rapid, weaponManager.laser
      modifies bombInventory, powerUpManager
      ensures Valid()
      ensures bombInventory.bombs == old(bombInventory.bombs)
      ensures bombInventory.dropCooldown == CooledDown(old(bombInventory.dropCooldown), dt)
      ensures powerUpManager.activeEffects == Ticked(old(powerUpManager.activeEffects), dt)
      ensures weaponManager.availableWeapons == old(weaponManager.availableWeapons)
      ensures weaponManager.currentIndex == old(weaponManager.currentIndex)
      ensures weaponManager.tempWeaponTimer == CooledDown(old(weaponManager.tempWeaponTimer), dt)
      ensures weaponManager.tempWeapon ==
        if old(weaponManager.tempWeaponTimer) > 0.0 && weaponManager.tempWeaponTimer <= 0.0 then None
        else old(weaponManager.tempWeapon)
      ensures forall i :: 0 <= i < 4 ==>
        weaponManager.Arsenal()[i].cooldownTimer == CooledDown(old(weaponManager.Arsenal()[i].cooldownTimer), dt)
    {
      weaponManager.Update(dt);
      bombInventory.Update(dt);
      powerUpManager.Update(dt);
    }

    /**
     * `shoot()`: fire the current weapon from the ship's position along its
     * rotation; the new shots start at the ship and join the shot group.
     */
    method Shoot(shots: Group<Shot>, rotate: Rotation) returns (fired: seq<Shot>)
      requires Valid()
      modifies weaponManager.CurrentWeapon(), shots
      ensures Valid()
      ensures !old(weaponManager.CanFire()) ==>
        fired == [] && weaponManager.CurrentWeapon().cooldownTimer == old(weaponManager.CurrentWeapon().cooldownTimer) &&
        shots.members == old(shots.members)
      ensures old(weaponManager.CanFire()) ==>
        |fired| == Config(weaponManager.CurrentType()).shotCount &&
        weaponManager.CurrentWeapon().cooldownTimer == Config(weaponManager.CurrentType()).cooldown &&
        shots.members == old(shots.members) + (set s | s in fired)
      ensures forall i :: 0 <= i < |fired| ==>
        fresh(fired[i]) &&
        weaponManager.CurrentWeapon().IsShot(fired[i], position,
          weaponManager.CurrentWeapon().ShotDirection(rotate(Up, rotation), i, rotate))
      ensures forall i, j :: 0 <= i < j < |fired| ==> fired[i] != fired[j]
    {
      fired := weaponManager.Fire(shots, position, rotation, rotate);
    }

    /** `drop_bomb()`: drop from the ship's position, velocity and rotation. */
    method DropBomb(bombs: Group<Bomb>, rotate: Rotation) returns (bomb: Bomb?)
      requires Valid()
      modifies bombInventory, bombs
      ensures Valid()
      ensures bomb == null <==> !old(bombInventory.CanDrop())
      ensures bomb == null ==>
        bombInventory.bombs == old(bombInventory.bombs) && bombInventory.dropCooldown == old(bombInventory.dropCooldown) &&
        bombs.members == old(bombs.members)
      ensures bomb != null ==>
        bombInventory.bombs == old(bombInventory.bombs) - 1 && bombInventory.dropCooldown == DropCooldown &&
        fresh(bomb) && bombs.members == old(bombs.members) + {bomb} &&
        bomb.position == position && bomb.fuseTimer == BombFuseTime && !bomb.exploded &&
        bomb.velocity == DropVelocity(velocity, rotate(Backward, rotation))
    {
      bomb := bombInventory.Drop(bombs, position, velocity, rotation, rotate);
    }

    /**
     * `switch_weapon(index)`: for 0 <= index < 4 unlock that weapon and
     * select it; any other index changes nothing.
     */
    method SwitchWeapon(index: int)
      requires Valid()
      modifies weaponManager`availableWeapons, weaponManager`currentIndex
      ensures Valid()
      ensures !(0 <= index < 4) ==>
        weaponManager.availableWeapons == old(weaponManager.availableWeapons) &&
        weaponManager.currentIndex == old(weaponManager.currentIndex)
      ensures 0 <= index < 4 ==>
        weaponManager.availableWeapons == Unlocked(old(weaponManager.availableWeapons), WeaponKeys[index]) &&
        weaponManager.availableWeapons[weaponManager.currentIndex] == WeaponKeys[index]
    {
      if 0 <= index < |WeaponKeys| {
        var weaponType := WeaponKeys[index];
        weaponManager.UnlockWeapon(weaponType);
        if weaponType in weaponManager.availableWeapons {
          var idx := IndexOf(weaponManager.availableWeapons, weaponType);
          var switched := weaponManager.SwitchWeapon(idx);
        }
      }
    }

    /**
     * `apply_powerup(powerup)`: start the effect for the power-up's duration;
     * a weapon power-up also lends one of the better weapons, drawn at
     * random, for the same time.
     */
    method ApplyPowerUp(kind: PowerUpKind, rng: Random)
      requires Valid() && rng.Valid()
      modifies powerUpManager, weaponManager`tempWeapon, weaponManager`tempWeaponTimer, rng
      ensures Valid()
      ensures powerUpManager.activeEffects == old(powerUpManager.activeEffects)[kind := Duration(kind)]
      ensures kind != WeaponBoost ==>
        rng.index == old(rng.index) && weaponManager.tempWeapon == old(weaponManager.tempWeapon) &&
        weaponManager.tempWeaponTimer == old(weaponManager.tempWeaponTimer)
      ensures kind == WeaponBoost ==>
        rng.index == old(rng.index) + 1 && weaponManager.tempWeaponTimer == Duration(WeaponBoost) &&
        weaponManager.tempWeapon == Some(BoostWeapons[ChoiceIndex(rng.draws(old(rng.index)), 3)])
    {
      powerUpManager.Apply(kind, Duration(kind));
      if kind == WeaponBoost {
        var weaponType := rng.Choice(BoostWeapons);
        weaponManager.SetTemporaryWeapon(weaponType, Duration(kind));
      }
    }

    /** `is_shielded()`. */
    predicate IsShielded()
      reads this, powerUpManager
    {
      powerUpManager.HasShield()
    }

    /** `reset(x, y)`: back to the start, briefly invulnerable, bombs refilled. */
    method Reset(x: real, y: real)
      requires Valid()
      modifies this`position, this`velocity, this`rotation, this`invulnerableTimer, bombInventory`bombs
      ensures Valid()
      ensures position == Vec2(x, y) && velocity == Zero && rotation == 0.0
      ensures invulnerableTimer == RespawnInvulnerability && bombInventory.bombs == BombMaxCount
    {
      position := Vec2(x, y);
      velocity := Zero;
      rotation := 0.0;
      invulnerableTimer := RespawnInvulnerability;
      bombInventory.Reset();
    }
  }

  /** The weapon list after `unlock_weapon(kind)`. */
  function Unlocked(available: seq<WeaponType>, kind: WeaponType): (r: seq<WeaponType>)
    ensures kind in r
    ensures forall k :: k in r <==> k in available || k == kind
  {
    if kind in available then available else available + [kind]
  }

  /** `list.index(x)`: the first position holding x. */
  method IndexOf<T(==)>(s: seq<T>, x: T) returns (i: int)
    requires x in s
    ensures 0 <= i < |s| && s[i] == x
    ensures forall j :: 0 <= j < i ==> s[j] != x
  {
    i := 0;
    while s[i] != x
      invariant 0 <= i < |s| && x in s[i..]
      invariant forall j :: 0 <= j < i ==> s[j] != x
      decreases |s| - i
    {
      i := i + 1;
    }
  }
}
