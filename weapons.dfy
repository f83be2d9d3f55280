/** Weapons: fire rate, shot patterns, and the player's weapon inventory. */
module Weapons {
  import opened Vectors
  import opened Constants
  import opened Sprites
  import opened Options
  import opened Shots
  import opened Timers

  /** `WEAPON_STANDARD`, `WEAPON_SPREAD`, `WEAPON_RAPID` and `WEAPON_LASER`. */
  datatype WeaponType = Standard | Spread | Rapid | Laser

  /** One entry of `WEAPON_CONFIGS`; `size` is present for the laser only. */
  datatype WeaponConfig = WeaponConfig(
    name: string,
    cooldown: real,
    shotSpeed: real,
    shotCount: nat,
    spreadAngle: real,
    color: Color,
    damage: real,
    size: Option<real>)

  function Config(kind: WeaponType): (c: WeaponConfig)
    ensures c.shotCount >= 1 && c.cooldown > 0.0 && c.shotSpeed > 0.0
    ensures c.shotCount > 1 <==> kind == Spread
  {
    match kind
    case Standard => WeaponConfig("Standard", 0.3, 500.0, 1, 0.0, Color(255, 255, 100), 1.0, None)
    case Spread => WeaponConfig("Spread", 0.5, 450.0, 3, 15.0, Color(100, 255, 100), 1.0, None)
    case Rapid => WeaponConfig("Rapid", 0.1, 600.0, 1, 0.0, Color(255, 100, 100), 0.5, None)
    case Laser => WeaponConfig("Laser", 0.05, 800.0, 1, 0.0, Color(100, 200, 255), 0.3, Some(2.0))
  }

  /** `config.get("size", SHOT_RADIUS)`. */
  function ShotSize(c: WeaponConfig): real
  {
    match c.size
    case Some(s) => s
    case None => ShotRadius
  }

  /** The angle offset of the i-th of n shots fanned out s degrees apart. */
  function SpreadOffset(n: nat, s: real, i: nat): real
  {
    -(s * ((n - 1) as real)) / 2.0 + s * (i as real)
  }

  /** Neighbouring shots of a fan are exactly the spread angle apart. */
  lemma SpreadEvenlySpaced(n: nat, s: real, i: nat)
    requires n > 1 && i + 1 < n
    ensures SpreadOffset(n, s, i + 1) - SpreadOffset(n, s, i) == s
  {
    assert s * ((i + 1) as real) == s * (i as real) + s;
  }

  /** The fan is symmetric about the facing direction. */
  lemma SpreadSymmetric(n: nat, s: real, i: nat)
    requires n > 1 && i < n
    ensures SpreadOffset(n, s, i) + SpreadOffset(n, s, n - 1 - i) == 0.0
  {
    var m := (n - 1) as real;
    assert ((n - 1 - i) as real) == m - (i as real);
    assert s * (m - (i as real)) == s * m - s * (i as real);
  }

  /** The three-shot spread weapon fires at -15, 0 and +15 degrees. */
  lemma SpreadFan()
    ensures SpreadOffset(Config(Spread).shotCount, Config(Spread).spreadAngle, 0) == -15.0
    ensures SpreadOffset(Config(Spread).shotCount, Config(Spread).spreadAngle, 1) == 0.0
    ensures SpreadOffset(Config(Spread).shotCount, Config(Spread).spreadAngle, 2) == 15.0
  {
  }

  class Weapon {
    const kind: WeaponType
    var cooldownTimer: real

    constructor (kind: WeaponType)
      ensures this.kind == kind && cooldownTimer == 0.0
    {
      this.kind := kind;
      cooldownTimer := 0.0;
    }

    /** `update`: the cooldown runs down only while it is positive. */
    method Update(dt: real)
      modifies this
      ensures cooldownTimer == CooledDown(old(cooldownTimer), dt)
    {
      if cooldownTimer > 0.0 {
        cooldownTimer := cooldownTimer - dt;
      }
    }

    /** `can_fire`. */
    predicate CanFire()
      reads this
    {
      cooldownTimer <= 0.0
    }

    /** The direction of the i-th shot of one trigger pull, for facing `forward`. */
    function ShotDirection(forward: Vec2, i: nat, rotate: Rotation): Vec2
    {
      var c := Config(kind);
      if c.shotCount == 1 then forward else rotate(forward, SpreadOffset(c.shotCount, c.spreadAngle, i))
    }

    /** What `_create_shot(position, direction)` makes. */
    ghost predicate IsShot(shot: Shot, position: Vec2, direction: Vec2)
      reads shot
    {
      var c := Config(kind);
      shot.position == position && shot.radius == ShotSize(c) && shot.color == c.color &&
      shot.damage == c.damage && shot.lifetime == ShotLifetime &&
      shot.velocity == direction.Scale(c.shotSpeed)
    }

    /**
     * `fire(position, rotation)`: nothing while cooling down; otherwise the
     * cooldown restarts and exactly `shot_count` new shots leave the ship,
     * the i-th along `ShotDirection(forward, i)`.
     */
    method Fire(shots: Group<Shot>, position: Vec2, rotation: real, rotate: Rotation)
      returns (fired: seq<Shot>)
      modifies this, shots
      ensures !old(CanFire()) ==>
        fired == [] && cooldownTimer == old(cooldownTimer) && shots.members == old(shots.members)
      ensures old(CanFire()) ==>
        cooldownTimer == Config(kind).cooldown && |fired| == Config(kind).shotCount &&
        shots.members == old(shots.members) + (set s | s in fired)
      ensures forall i :: 0 <= i < |fired| ==>
        fresh(fired[i]) && IsShot(fired[i], position, ShotDirection(rotate(Up, rotation), i, rotate))
      ensures forall i, j :: 0 <= i < j < |fired| ==> fired[i] != fired[j]
    {
      if !CanFire() {
        return [];
      }
      var c := Config(kind);
      cooldownTimer := c.cooldown;
      var forward := rotate(Up, rotation);
      if c.shotCount == 1 {
        var shot := CreateShot(shots, position, forward);
        fired := [shot];
      } else {
        fired := FireSpread(shots, position, forward, rotate);
      }
    }

    /** The spread branch of `fire`: shotCount shots fanned out evenly around `forward`. */
    method FireSpread(shots: Group<Shot>, position: Vec2, forward: Vec2, rotate: Rotation)
      returns (fired: seq<Shot>)
      requires Config(kind).shotCount > 1
      modifies shots
      ensures |fired| == Config(kind).shotCount
      ensures shots.members == old(shots.members) + (set s | s in fired)
      ensures forall i :: 0 <= i < |fired| ==>
        fresh(fired[i]) && IsShot(fired[i], position, ShotDirection(forward, i, rotate))
      ensures forall i, j :: 0 <= i < j < |fired| ==> fired[i] != fired[j]
    {
      var c := Config(kind);
      var totalSpread := c.spreadAngle * ((c.shotCount - 1) as real);
      var startAngle := -totalSpread / 2.0;
      fired := [];
      for i := 0 to c.shotCount
        invariant |fired| == i
        invariant shots.members == old(shots.members) + (set s | s in fired)
        invariant forall j :: 0 <= j < i ==>
          fresh(fired[j]) && IsShot(fired[j], position, ShotDirection(forward, j, rotate))
        invariant forall j, k :: 0 <= j < k < i ==> fired[j] != fired[k]
      {
        var angleOffset := startAngle + c.spreadAngle * (i as real);
        var direction := rotate(forward, angleOffset);
        var shot := CreateShot(shots, position, direction);
        ElementsSnoc(fired, shot);
        fired := fired + [shot];
      }
    }

    /** `_create_shot(position, direction)`. */
    method CreateShot(shots: Group<Shot>, position: Vec2, direction: Vec2) returns (shot: Shot)
      modifies shots
      ensures fresh(shot) && IsShot(shot, position, direction)
      ensures shots.members == old(shots.members) + {shot}
    {
      var c := Config(kind);
      var size := ShotSize(c);
      shot := new Shot(shots, position.x, position.y, size, c.color, c.damage);
      shot.velocity := direction.Scale(c.shotSpeed);
    }
  }

  lemma ElementsSnoc<T>(s: seq<T>, x: T)
    ensures (set y | y in s + [x]) == (set y | y in s) + {x}
  {
  }

  predicate NoDuplicates<T(==)>(s: seq<T>)
  {
    forall i, j :: 0 <= i < j < |s| ==> s[i] != s[j]
  }

  /** `(index + direction) % n` with Python's modulo, which for n > 0 is never negative. */
  function Cycled(index: int, direction: int, n: nat): (r: int)
    requires n > 0
    ensures 0 <= r < n
  {
    (index + direction) % n
  }

  /** `WeaponManager`: unlocked weapons, the selection, and a timed temporary weapon. */
  class WeaponManager {
    var availableWeapons: seq<WeaponType>
    var currentIndex: int
    const standard: Weapon
    const spread: Weapon
    const rapid: Weapon
    const laser: Weapon
    var tempWeapon: Option<WeaponType>
    var tempWeaponTimer: real

    /** The `weapons` dictionary, one weapon object per type. */
    function WeaponOf(kind: WeaponType): Weapon
    {
      match kind
      case Standard => standard
      case Spread => spread
      case Rapid => rapid
      case Laser => laser
    }

    /** The objects of `weapons.values()`, in insertion order. */
    function Arsenal(): seq<Weapon>
    {
      [standard, spread, rapid, laser]
    }

    ghost predicate Valid()
      reads this
    {
      standard.kind == Standard && spread.kind == Spread && rapid.kind == Rapid && laser.kind == Laser &&
      |availableWeapons| > 0 && availableWeapons[0] == Standard && NoDuplicates(availableWeapons) &&
      0 <= currentIndex < |availableWeapons|
    }

    constructor ()
      ensures Valid() && fresh(Arsenal()[0]) && fresh(Arsenal()[1]) && fresh(Arsenal()[2]) && fresh(Arsenal()[3])
      ensures availableWeapons == [Standard] && currentIndex == 0
      ensures tempWeapon == None && tempWeaponTimer == 0.0
      ensures forall i :: 0 <= i < 4 ==> Arsenal()[i].cooldownTimer == 0.0
    {
      availableWeapons := [Standard];
      currentIndex := 0;
      standard := new Weapon(Standard);
      spread := new Weapon(Spread);
      rapid := new Weapon(Rapid);
      laser := new Weapon(Laser);
      tempWeapon := None;
      tempWeaponTimer := 0.0;
    }

    /** `current_weapon`: the temporary weapon while there is one, else the selection. */
    function CurrentWeapon(): (w: Weapon)
      requires Valid()
      reads this
      ensures w.kind == CurrentType()
    {
      WeaponOf(CurrentType())
    }

    /** The type of `current_weapon`: a lent weapon wins over the selection, which is always unlocked. */
    function CurrentType(): (t: WeaponType)
      requires Valid()
      reads this
      ensures tempWeapon.Some? ==> t == tempWeapon.value
      ensures tempWeapon.None? ==> t in availableWeapons
    {
      match tempWeapon
      case Some(t) => t
      case None => availableWeapons[currentIndex]
    }

    /**
     * `update(dt)`: every weapon's cooldown runs down; a running temporary
     * weapon timer loses dt and the weapon goes once the timer is spent.
     */
    method Update(dt: real)
      requires Valid()
      modifies this, Arsenal()[0], Arsenal()[1], Arsenal()[2], Arsenal()[3]
      ensures Valid()
      ensures availableWeapons == old(availableWeapons) && currentIndex == old(currentIndex)
      ensures forall i :: 0 <= i < 4 ==>
        Arsenal()[i].cooldownTimer == CooledDown(old(Arsenal()[i].cooldownTimer), dt)
      ensures tempWeaponTimer == CooledDown(old(tempWeaponTimer), dt)
      ensures tempWeapon == if old(tempWeaponTimer) > 0.0 && tempWeaponTimer <= 0.0 then None else old(tempWeapon)
    {
      var weapons := Arsenal();
      for i := 0 to 4
        modifies weapons[0], weapons[1], weapons[2], weapons[3]
        invariant forall j :: 0 <= j < 4 ==>
          weapons[j].cooldownTimer == if j < i then CooledDown(old(weapons[j].cooldownTimer), dt) else old(weapons[j].cooldownTimer)
      {
        weapons[i].Update(dt);
      }
      if tempWeaponTimer > 0.0 {
        tempWeaponTimer := tempWeaponTimer - dt;
        if tempWeaponTimer <= 0.0 {
          tempWeapon := None;
        }
      }
    }

    /** `switch_weapon(index)`: select an unlocked weapon by position. */
    method SwitchWeapon(index: int) returns (switched: bool)
      requires Valid()
      modifies this`currentIndex
      ensures Valid()
      ensures switched <==> 0 <= index < |availableWeapons|
      ensures currentIndex == if switched then index else old(currentIndex)
    {
      if 0 <= index < |availableWeapons| {
        currentIndex := index;
        return true;
      }
      return false;
    }

    /** `cycle_weapon(direction)`: step through the unlocked weapons, wrapping round. */
    method CycleWeapon(direction: int)
      requires Valid()
      modifies this`currentIndex
      ensures Valid()
      ensures currentIndex ==
        if |availableWeapons| > 1 then Cycled(old(currentIndex), direction, |availableWeapons|) else old(currentIndex)
    {
      if |availableWeapons| > 1 {
        currentIndex := (currentIndex + direction) % |availableWeapons|;
      }
    }

    /** `unlock_weapon(type)`: append a weapon that is not yet available. */
    method UnlockWeapon(kind: WeaponType)
      requires Valid()
      modifies this`availableWeapons
      ensures Valid()
      ensures availableWeapons == if kind in old(availableWeapons) then old(availableWeapons) else old(availableWeapons) + [kind]
    {
      if kind !in availableWeapons {
        availableWeapons := availableWeapons + [kind];
      }
    }

    /** `set_temporary_weapon(type, duration)`. */
    method SetTemporaryWeapon(kind: WeaponType, duration: real)
      requires Valid()
      modifies this`tempWeapon, this`tempWeaponTimer
      ensures Valid()
      ensures tempWeapon == Some(kind) && tempWeaponTimer == duration
    {
      tempWeapon := Some(kind);
      tempWeaponTimer := duration;
    }

    /**
     * `fire(position, rotation)`: fire whichever weapon is current, with
     * everything `Weapon.Fire` promises about the refusal, the cooldown and
     * the new shots.
     */
    method Fire(shots: Group<Shot>, position: Vec2, rotation: real, rotate: Rotation)
      returns (fired: seq<Shot>)
      requires Valid()
      modifies CurrentWeapon(), shots
      ensures Valid() && unchanged(this)
      ensures !old(CurrentWeapon().CanFire()) ==>
        fired == [] && CurrentWeapon().cooldownTimer == old(CurrentWeapon().cooldownTimer) &&
        shots.members == old(shots.members)
      ensures old(CurrentWeapon().CanFire()) ==>
        |fired| == Config(CurrentType()).shotCount && CurrentWeapon().cooldownTimer == Config(CurrentType()).cooldown &&
        shots.members == old(shots.members) + (set s | s in fired)
      ensures forall i :: 0 <= i < |fired| ==>
        fresh(fired[i]) &&
        CurrentWeapon().IsShot(fired[i], position, CurrentWeapon().ShotDirection(rotate(Up, rotation), i, rotate))
      ensures forall i, j :: 0 <= i < j < |fired| ==> fired[i] != fired[j]
    {
      var weapon := CurrentWeapon();
      fired := weapon.Fire(shots, position, rotation, rotate);
    }

    /** `can_fire`. */
    predicate CanFire()
      requires Valid()
      reads this, CurrentWeapon()
    {
      CurrentWeapon().CanFire()
    }
  }
}
