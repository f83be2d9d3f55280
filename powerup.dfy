/** Power-ups: collectible items, their timed effects, and the drop after a kill. */
module PowerUps {
  import opened Vectors
  import opened Constants
  import opened Sprites
  import opened Randomness
  import opened CircleShapes
  import opened Options

  /** `POWERUP_SHIELD`, `POWERUP_SPEED` and `POWERUP_WEAPON`. */
  datatype PowerUpKind = Shield | Speed | WeaponBoost

  /** The "duration" entry of `POWERUP_CONFIGS`. */
  function Duration(kind: PowerUpKind): (d: real)
    ensures d > 0.0
  {
    match kind
    case Shield => 5.0
    case Speed => 8.0
    case WeaponBoost => 10.0
  }

  /** Seconds an uncollected power-up stays on screen. */
  const PowerUpLifetime: real := 15.0

  /** The spawn weights of shield, speed and weapon. */
  const ShieldWeight: real := 0.4
  const SpeedWeight: real := 0.4

  /** The largest drift speed on each axis, as in `uniform(-20, 20)`. */
  const MaxDrift: real := 20.0

  /** The upper end of the bobbing phase `uniform(0, 6.28)`. */
  const PhaseRange: real := 6.28

  /** `POWERUP_FLOAT_SPEED`: radians of bobbing phase per second. */
  const FloatSpeed: real := 1.5

  /** `POWERUP_FLOAT_AMPLITUDE`: the height of the bob in pixels. */
  const FloatAmplitude: real := 5.0

  /**
   * Where one update leaves a power-up: the height is set from the drifting
   * bob line `baseY` at the new phase `time`, the drift is added, and the
   * result wraps. The old height does not enter.
   */
  function Floated(position: Vec2, baseY: real, time: real, velocity: Vec2, dt: real, sine: Sine, radius: real): Vec2
  {
    Wrapped(Vec2(position.x, baseY + sine(time) * FloatAmplitude).Add(velocity.Scale(dt)), radius)
  }

  /**
   * The height after an update depends only on the bob line, never on the
   * height before it: a vertical wrap from the previous update is undone.
   */
  lemma FloatedForgetsHeight(p: Vec2, q: Vec2, baseY: real, time: real, velocity: Vec2, dt: real, sine: Sine, radius: real)
    requires p.x == q.x
    ensures Floated(p, baseY, time, velocity, dt, sine, radius) == Floated(q, baseY, time, velocity, dt, sine, radius)
  {
  }

  /**
   * Once the bob line has drifted so far below the screen that the bobbed
   * height passes `SCREEN_HEIGHT + radius`, every update puts the power-up
   * back at `-radius`; above the screen it is held at `SCREEN_HEIGHT + radius`.
   */
  lemma FloatedParksOffScreen(position: Vec2, baseY: real, time: real, velocity: Vec2, dt: real, sine: Sine, radius: real)
    requires 0.0 <= radius
    ensures baseY + sine(time) * FloatAmplitude + velocity.y * dt > ScreenHeight + radius ==>
      Floated(position, baseY, time, velocity, dt, sine, radius).y == -radius
    ensures baseY + sine(time) * FloatAmplitude + velocity.y * dt < -radius ==>
      Floated(position, baseY, time, velocity, dt, sine, radius).y == ScreenHeight + radius
  {
  }

  class PowerUp {
    var position: Vec2
    var velocity: Vec2
    const radius: real
    const kind: PowerUpKind
    var lifetime: real
    /** The bobbing phase. */
    var time: real
    /** The height the bob is centred on; it drifts with the vertical velocity and never wraps. */
    var baseY: real

    /**
     * `PowerUp(x, y, powerup_type)`, registered in the power-up group, with
     * a random bobbing phase in [0, 6.28] centred on y.
     */
    constructor (powerups: Group<PowerUp>, rng: Random, x: real, y: real, kind: PowerUpKind)
      requires rng.Valid()
      modifies powerups, rng
      ensures position == Vec2(x, y) && velocity == Zero && radius == PowerUpRadius
      ensures this.kind == kind && lifetime == PowerUpLifetime
      ensures time == PhaseRange * rng.draws(old(rng.index)) && 0.0 <= time <= PhaseRange && baseY == y
      ensures powerups.members == old(powerups.members) + {this}
      ensures rng.index == old(rng.index) + 1
    {
      position := Vec2(x, y);
      velocity := Zero;
      radius := PowerUpRadius;
      this.kind := kind;
      var phase := rng.Uniform(0.0, PhaseRange);
      time := phase;
      baseY := y;
      lifetime := PowerUpLifetime;
      new;
      powerups.Add(this);
    }

    /** The `duration` property. */
    function GetDuration(): (d: real)
    {
      Duration(kind)
    }

    /**
     * `update(dt)`, with `math.sin` supplied as `sine`: the phase advances,
     * the height is reset from the bob line, both drift, the position wraps,
     * and the power-up leaves its group in the update that takes its
     * lifetime to 0 or below.
     */
    method Update(powerups: Group<PowerUp>, dt: real, sine: Sine)
      modifies this`position, this`lifetime, this`time, this`baseY, powerups
      ensures time == old(time) + dt * FloatSpeed
      ensures baseY == old(baseY) + velocity.y * dt
      ensures position == Floated(old(position), old(baseY), time, velocity, dt, sine, radius)
      ensures lifetime == old(lifetime) - dt
      ensures powerups.members == if lifetime <= 0.0 then old(powerups.members) - {this} else old(powerups.members)
    {
      time := time + dt * FloatSpeed;
      position := position.(y := baseY + sine(time) * FloatAmplitude);
      position := position.Add(velocity.Scale(dt));
      baseY := baseY + velocity.y * dt;
      position := Wrapped(position, radius);
      lifetime := lifetime - dt;
      if lifetime <= 0.0 {
        powerups.Kill(this);
      }
    }
  }

  /** `PowerUpManager`: the remaining seconds of every active effect. */
  class PowerUpManager {
    var activeEffects: map<PowerUpKind, real>

    constructor ()
      ensures activeEffects == map[]
    {
      activeEffects := map[];
    }

    /** `apply(type, duration)`: start or refresh one effect, replacing its time. */
    method Apply(kind: PowerUpKind, duration: real)
      modifies this
      ensures activeEffects == old(activeEffects)[kind := duration]
    {
      activeEffects := activeEffects[kind := duration];
    }

    /**
     * `update(dt)`: every effect loses dt; those reaching 0 or less are
     * collected in `expired` and then deleted.
     */
    method Update(dt: real)
      modifies this
      ensures activeEffects == Ticked(old(activeEffects), dt)
    {
      var expired: seq<PowerUpKind> := [];
      var pending := activeEffects.Keys;
      ghost var start := activeEffects;
      while pending != {}
        invariant pending <= start.Keys && activeEffects.Keys == start.Keys
        invariant forall k :: k in start && k !in pending ==> activeEffects[k] == start[k] - dt
        invariant forall k :: k in pending ==> activeEffects[k] == start[k]
        invariant forall k :: k in expired <==> k in start && k !in pending && start[k] - dt <= 0.0
        decreases pending
      {
        var kind :| kind in pending;
        activeEffects := activeEffects[kind := activeEffects[kind] - dt];
        if activeEffects[kind] <= 0.0 {
          expired := expired + [kind];
        }
        pending := pending - {kind};
      }
      for i := 0 to |expired|
        invariant activeEffects.Keys == start.Keys - set j | 0 <= j < i :: expired[j]
        invariant forall k :: k in activeEffects ==> activeEffects[k] == start[k] - dt
      {
        activeEffects := activeEffects - {expired[i]};
      }
    }

    /** `is_active(type)`. */
    predicate IsActive(kind: PowerUpKind)
      reads this
    {
      kind in activeEffects
    }

    /** `get_remaining(type)`: the remaining time, 0 for an inactive effect. */
    function GetRemaining(kind: PowerUpKind): real
      reads this
    {
      Remaining(activeEffects, kind)
    }

    /** `has_shield`. */
    predicate HasShield()
      reads this
    {
      IsActive(Shield)
    }

    /** `has_speed_boost`. */
    predicate HasSpeedBoost()
      reads this
    {
      IsActive(Speed)
    }
  }

  /** `active_effects.get(type, 0)`. */
  function Remaining(effects: map<PowerUpKind, real>, kind: PowerUpKind): real
  {
    if kind in effects then effects[kind] else 0.0
  }

  /** The effect timers after one update of dt. */
  function Ticked(effects: map<PowerUpKind, real>, dt: real): (r: map<PowerUpKind, real>)
    ensures forall k :: k in r <==> k in effects && effects[k] - dt > 0.0
    ensures forall k :: k in r ==> r[k] == effects[k] - dt && r[k] > 0.0
  {
    map k | k in effects && effects[k] - dt > 0.0 :: effects[k] - dt
  }

  /** After an update every remaining effect has time left. */
  lemma TickedLeavesPositive(effects: map<PowerUpKind, real>, dt: real, kind: PowerUpKind)
    ensures kind in Ticked(effects, dt) ==> Remaining(Ticked(effects, dt), kind) > 0.0
    ensures kind !in Ticked(effects, dt) ==> Remaining(Ticked(effects, dt), kind) == 0.0
  {
  }

  /** Applying an effect sets its time to exactly the duration and leaves the rest. */
  lemma ApplyReplaces(effects: map<PowerUpKind, real>, kind: PowerUpKind, duration: real, other: PowerUpKind)
    ensures Remaining(effects[kind := duration], kind) == duration
    ensures other != kind ==> Remaining(effects[kind := duration], other) == Remaining(effects, other)
    ensures other != kind ==> (other in effects[kind := duration] <==> other in effects)
  {
  }

  /**
   * The kind `maybe_spawn_powerup` picks: none when the first draw p is
   * above the spawn chance, otherwise by the second draw r against the
   * cumulative weights 0.4 and 0.8.
   */
  function SpawnKind(p: real, r: real): (k: Option<PowerUpKind>)
    ensures k == None <==> p > PowerUpSpawnChance
    ensures k == Some(Shield) <==> p <= PowerUpSpawnChance && r < 0.4
    ensures k == Some(Speed) <==> p <= PowerUpSpawnChance && 0.4 <= r < 0.8
    ensures k == Some(WeaponBoost) <==> p <= PowerUpSpawnChance && 0.8 <= r
  {
    if p > PowerUpSpawnChance then None
    else if r < ShieldWeight then Some(Shield)
    else if r < ShieldWeight + SpeedWeight then Some(Speed)
    else Some(WeaponBoost)
  }

  /**
   * `maybe_spawn_powerup(x, y)`: one draw decides whether anything spawns;
   * a spawn draws its kind, the bobbing phase and two drift components.
   */
  method MaybeSpawnPowerUp(powerups: Group<PowerUp>, rng: Random, x: real, y: real)
    returns (powerup: PowerUp?)
    requires rng.Valid()
    modifies powerups, rng
    ensures rng.Valid()
    ensures powerup == null <==> rng.draws(old(rng.index)) > PowerUpSpawnChance
    ensures powerup == null ==> rng.index == old(rng.index) + 1 && powerups.members == old(powerups.members)
    ensures powerup != null ==>
      rng.index == old(rng.index) + 5 && fresh(powerup) &&
      powerups.members == old(powerups.members) + {powerup} &&
      Some(powerup.kind) == SpawnKind(rng.draws(old(rng.index)), rng.draws(old(rng.index) + 1)) &&
      powerup.position == Vec2(x, y) && powerup.baseY == y && powerup.lifetime == PowerUpLifetime &&
      powerup.time == PhaseRange * rng.draws(old(rng.index) + 2) &&
      powerup.velocity == Vec2(-MaxDrift + 2.0 * MaxDrift * rng.draws(old(rng.index) + 3),
                               -MaxDrift + 2.0 * MaxDrift * rng.draws(old(rng.index) + 4)) &&
      -MaxDrift <= powerup.velocity.x <= MaxDrift && -MaxDrift <= powerup.velocity.y <= MaxDrift
  {
    var p := rng.Next();
    if p > PowerUpSpawnChance {
      return null;
    }
    var r := rng.Next();
    var kind: PowerUpKind;
    if r < ShieldWeight {
      kind := Shield;
    } else if r < ShieldWeight + SpeedWeight {
      kind := Speed;
    } else {
      kind := WeaponBoost;
    }
    powerup := new PowerUp(powerups, rng, x, y, kind);
    var vx := rng.Uniform(-MaxDrift, MaxDrift);
    var vy := rng.Uniform(-MaxDrift, MaxDrift);
    powerup.velocity := Vec2(vx, vy);
  }
}
