/**
 * The frame loop of main.py: the menu / playing / game-over state machine
 * driven by input events, and the playing frame's update and collision
 * passes over the sprite groups.
 */
module Game {
  import opened Vectors
  import opened Constants
  import opened Sprites
  import opened Randomness
  import opened Options
  import opened CircleShapes
  import opened Asteroids
  import opened Shots
  import opened Bombs
  import opened PowerUps
  import opened Weapons
  import opened Players
  import opened Backgrounds

  datatype GameState = Menu | Playing | GameOver

  /** The keys the event loop reacts to; `WeaponKey(i)` is the key i + 1. */
  datatype Key = ReturnKey | SpaceKey | WeaponKey(index: int) | BombKey | RestartKey | OtherKey

  datatype Event = Quit | KeyDown(key: Key) | OtherEvent

  const StartingLives: int := 3

  /** Where the ship starts and respawns. */
  const ScreenCentre := Vec2(ScreenWidth / 2.0, ScreenHeight / 2.0)

  /**
   * The state after one event: ENTER starts a game from the menu, R returns
   * from the game-over screen to the menu, and nothing else moves it.
   */
  function NextState(state: GameState, event: Event): (next: GameState)
    ensures next != state <==>
      (state == Menu && event == KeyDown(ReturnKey)) || (state == GameOver && event == KeyDown(RestartKey))
    ensures state == Playing ==> next == Playing
    ensures state == Menu && event == KeyDown(ReturnKey) ==> next == Playing
    ensures state == GameOver && event == KeyDown(RestartKey) ==> next == Menu
  {
    match state
    case Menu => if event == KeyDown(ReturnKey) then Playing else Menu
    case Playing => Playing
    case GameOver => if event == KeyDown(RestartKey) then Menu else GameOver
  }

  class GameLoop {
    var state: GameState
    var score: int
    var lives: int
    var player: Player?
    const asteroids: Group<Asteroid>
    const shots: Group<Shot>
    const powerups: Group<PowerUp>
    const bombs: Group<Bomb>
    const background: Background
    const rng: Random
    const rotate: Rotation
    const sine: Sine

    function PlayerParts(): set<object>
      reads this
    {
      if player == null then {} else {player, player.weaponManager, player.bombInventory}
    }

    ghost predicate Valid()
      reads this, PlayerParts(), background, background.stars
    {
      rng.Valid() && background.Valid() &&
      (state != Menu ==> player != null) &&
      (player != null ==> player.Valid()) &&
      (state == Playing ==> lives > 0) &&
      (state == GameOver ==> lives <= 0)
    }

    /** The state `main()` sets up before its loop; `stars` stand for the random starfield. */
    constructor (rng: Random, rotate: Rotation, sine: Sine, stars: seq<Star>)
      requires rng.Valid()
      requires forall i, j :: 0 <= i < j < |stars| ==> stars[i] != stars[j]
      requires forall i :: 0 <= i < |stars| ==> stars[i].layer < StarLayers
      ensures Valid() && state == Menu && score == 0 && lives == StartingLives && player == null
      ensures asteroids.members == {} && shots.members == {} && powerups.members == {} && bombs.members == {}
      ensures background.stars == stars && this.rng == rng
    {
      state := Menu;
      score := 0;
      lives := StartingLives;
      player := null;
      asteroids := new Group();
      shots := new Group();
      powerups := new Group();
      bombs := new Group();
      background := new Background(stars);
      this.rng := rng;
      this.rotate := rotate;
      this.sine := sine;
    }

    /** The part of `Valid` the collision passes rely on: a game under way with a well-formed ship. */
    ghost predicate InPlay()
      reads this, PlayerParts()
    {
      state != Menu && player != null && player.Valid() && rng.Valid() &&
      (state == Playing ==> lives > 0) &&
      (state == GameOver ==> lives <= 0)
    }

    /**
     * One event of the event loop. QUIT ends the game; ENTER on the menu
     * starts a new one; in play SPACE fires, 1 to 4 pick a weapon and B drops
     * a bomb; R on the game-over screen returns to the menu.
     */
    method HandleEvent(event: Event) returns (quit: bool)
      requires Valid()
      modifies this`state, this`score, this`lives, this`player, asteroids, shots, powerups, bombs
      modifies if player == null then {} else player.Repr()
      ensures Valid()
      ensures quit <==> event == Quit
      ensures state == if quit then old(state) else NextState(old(state), event)
      ensures old(state) == Menu && event == KeyDown(ReturnKey) ==>
        score == 0 && lives == StartingLives && player != null && fresh(player) &&
        player.position == ScreenCentre && player.velocity == Zero &&
        asteroids.members == {} && shots.members == {} && powerups.members == {} && bombs.members == {}
      ensures !(old(state) == Menu && event == KeyDown(ReturnKey)) ==>
        score == old(score) && lives == old(lives) && player == old(player) &&
        asteroids.members == old(asteroids.members) && powerups.members == old(powerups.members)
    {
      if event == Quit {
        return true;
      }
      quit := false;
      if state == Menu {
        if event == KeyDown(ReturnKey) {
          StartGame();
        }
      } else if state == Playing {
        if event.KeyDown? {
          PlayKey(event.key);
        }
      } else {
        if event == KeyDown(RestartKey) {
          state := Menu;
        }
      }
    }

    /** ENTER on the menu: a fresh game with empty groups and a new ship at the centre. */
    method StartGame()
      requires Valid()
      modifies this`state, this`score, this`lives, this`player, asteroids, shots, powerups, bombs
      ensures Valid() && state == Playing
      ensures score == 0 && lives == StartingLives && player != null && fresh(player) &&
        player.position == ScreenCentre && player.velocity == Zero
      ensures asteroids.members == {} && shots.members == {} && powerups.members == {} && bombs.members == {}
    {
      state := Playing;
      score := 0;
      lives := StartingLives;
      asteroids.Empty();
      shots.Empty();
      powerups.Empty();
      bombs.Empty();
      player := new Player(ScreenCentre.x, ScreenCentre.y);
    }

    /** A key pressed in play: SPACE fires, 1 to 4 pick a weapon, B drops a bomb. */
    method PlayKey(key: Key)
      requires Valid() && state == Playing
      modifies player.Repr(), shots, bombs
      ensures Valid()
      ensures key != SpaceKey ==> shots.members == old(shots.members)
      ensures key != BombKey ==> bombs.members == old(bombs.members)
    {
      if key == SpaceKey {
        var newShots := player.Shoot(shots, rotate);
      }
      if key.WeaponKey? && 0 <= key.index < 4 {
        player.SwitchWeapon(key.index);
      }
      if key == BombKey {
        var bomb := player.DropBomb(bombs, rotate);
      }
    }

    /** `asteroid.update(dt)` for every asteroid of the group. */
    method UpdateAsteroids(dt: real)
      modifies asteroids.members
      ensures forall a :: a in asteroids.members ==>
        a.position == Wrapped(old(a.position).Add(a.velocity.Scale(dt)), a.radius)
    {
      var pending := asteroids.members;
      while pending != {}
        invariant pending <= asteroids.members
        invariant forall a :: a in asteroids.members ==>
          a.position == if a in pending then old(a.position) else Wrapped(old(a.position).Add(a.velocity.Scale(dt)), a.radius)
        decreases pending
      {
        var a :| a in pending;
        a.Update(dt);
        pending := pending - {a};
      }
    }

    /** `shot.update(dt)` for every shot: each moves and ages, and the expired ones leave. */
    method UpdateShots(dt: real)
      modifies shots, shots.members
      ensures shots.members <= old(shots.members)
      ensures forall s :: s in old(shots.members) ==>
        s.position == Wrapped(old(s.position).Add(s.velocity.Scale(dt)), s.radius) &&
        s.lifetime == old(s.lifetime) - dt &&
        (s in shots.members <==> !Expired(s.lifetime))
    {
      var pending := shots.members;
      while pending != {}
        invariant pending <= old(shots.members) && shots.members <= old(shots.members)
        invariant forall s :: s in old(shots.members) ==>
          if s in pending then s.position == old(s.position) && s.lifetime == old(s.lifetime) && s in shots.members
          else s.position == Wrapped(old(s.position).Add(s.velocity.Scale(dt)), s.radius) &&
               s.lifetime == old(s.lifetime) - dt &&
               (s in shots.members <==> !Expired(s.lifetime))
        decreases pending
      {
        var s :| s in pending;
        s.Update(shots, dt);
        pending := pending - {s};
      }
    }

    /** `powerup.update(dt)` for every power-up: each bobs, drifts and ages, and the expired ones leave. */
    method UpdatePowerUps(dt: real)
      modifies powerups, powerups.members
      ensures powerups.members <= old(powerups.members)
      ensures forall p :: p in old(powerups.members) ==>
        p.time == old(p.time) + dt * FloatSpeed && p.baseY == old(p.baseY) + p.velocity.y * dt &&
        p.position == Floated(old(p.position), old(p.baseY), p.time, p.velocity, dt, sine, p.radius) &&
        p.lifetime == old(p.lifetime) - dt &&
        (p in powerups.members <==> p.lifetime > 0.0)
    {
      var pending := powerups.members;
      while pending != {}
        invariant pending <= old(powerups.members) && powerups.members <= old(powerups.members)
        invariant forall p :: p in old(powerups.members) ==>
          if p in pending then
            p.position == old(p.position) && p.lifetime == old(p.lifetime) &&
            p.time == old(p.time) && p.baseY == old(p.baseY) && p in powerups.members
          else
            p.time == old(p.time) + dt * FloatSpeed && p.baseY == old(p.baseY) + p.velocity.y * dt &&
            p.position == Floated(old(p.position), old(p.baseY), p.time, p.velocity, dt, sine, p.radius) &&
            p.lifetime == old(p.lifetime) - dt &&
               (p in powerups.members <==> p.lifetime > 0.0)
        decreases pending
      {
        var p :| p in pending;
        p.Update(powerups, dt, sine);
        pending := pending - {p};
      }
    }

    /** `bomb.update(dt)` for every bomb: each slows, moves and burns its fuse. */
    method UpdateBombs(dt: real)
      modifies bombs.members
      ensures forall b :: b in bombs.members ==>
        b.velocity == Damped(old(b.velocity), dt) &&
        b.position == Wrapped(old(b.position).Add(b.velocity.Scale(dt)), b.radius) &&
        b.fuseTimer == old(b.fuseTimer) - dt &&
        b.exploded == (old(b.exploded) || FuseSpent(b.fuseTimer))
    {
      var pending := bombs.members;
      while pending != {}
        invariant pending <= bombs.members
        invariant forall b :: b in bombs.members && b !in pending ==>
          b.velocity == Damped(old(b.velocity), dt) &&
          b.position == Wrapped(old(b.position).Add(b.velocity.Scale(dt)), b.radius) &&
          b.fuseTimer == old(b.fuseTimer) - dt &&
          b.exploded == (old(b.exploded) || FuseSpent(b.fuseTimer))
        invariant forall b :: b in pending ==> unchanged(b)
        decreases pending
      {
        var b :| b in pending;
        b.Update(dt);
        pending := pending - {b};
      }
    }

    /**
     * `asteroid.split()` on the game's group: the asteroid leaves, and above
     * the minimum radius its two new children (`first` and `second`) join,
     * as `Asteroid.Split` states. No other asteroid of `keep` joins or leaves.
     */
    method Shatter(a: Asteroid, ghost keep: set<Asteroid>) returns (ghost first: Asteroid?, ghost second: Asteroid?)
      requires rng.Valid()
      modifies asteroids, rng
      ensures rng.Valid() && a !in asteroids.members
      ensures asteroids.members * keep == old(asteroids.members) * keep - {a}
      ensures fresh(asteroids.members - old(asteroids.members))
      ensures a.radius <= AsteroidMinRadius ==>
        first == null && second == null &&
        asteroids.members == old(asteroids.members) - {a} && rng.index == old(rng.index)
      ensures a.radius > AsteroidMinRadius ==>
        rng.index == old(rng.index) + 1 &&
        first != null && second != null && first != second && fresh(first) && fresh(second) &&
        first !in keep && second !in keep &&
        asteroids.members == old(asteroids.members) - {a} + {first, second} &&
        a.IsChild(first, rotate(a.velocity, Angle(rng.draws(old(rng.index))))) &&
        a.IsChild(second, rotate(a.velocity, -Angle(rng.draws(old(rng.index)))))
    {
      first, second := a.Split(asteroids, rng, rotate);
    }

    /**
     * One exploded bomb: every asteroid of the snapshot inside its blast is
     * split for 15 points, and the bomb leaves its group. Of any set `keep`
     * of asteroids, those not caught stay and the caught ones are gone; only
     * new asteroids appear.
     */
    method Detonate(bomb: Bomb, ghost keep: set<Asteroid>) returns (ghost caught: set<Asteroid>, ghost born: set<Asteroid>)
      requires rng.Valid()
      modifies this`score, asteroids, bombs, rng
      ensures rng.Valid() && bombs.members == old(bombs.members) - {bomb}
      ensures caught == old(Caught(bomb, asteroids.members))
      ensures score == old(score) + 15 * |caught|
      ensures asteroids.members * keep == old(asteroids.members) * keep - caught
      ensures asteroids.members == old(asteroids.members) - caught + born
      ensures born !! old(asteroids.members) && |born| == 2 * |Splitters(caught)|
    {
      caught, born := Blast(bomb, keep);
      bombs.Kill(bomb);
    }

    /** The blast of `Detonate`: every asteroid of the snapshot inside it is split for 15 points. */
    method Blast(bomb: Bomb, ghost keep: set<Asteroid>) returns (ghost caught: set<Asteroid>, ghost born: set<Asteroid>)
      requires rng.Valid()
      modifies this`score, asteroids, rng
      ensures rng.Valid()
      ensures caught == old(Caught(bomb, asteroids.members))
      ensures score == old(score) + 15 * |caught|
      ensures asteroids.members * keep == old(asteroids.members) * keep - caught
      ensures asteroids.members == old(asteroids.members) - caught + born
      ensures born !! old(asteroids.members) && |born| == 2 * |Splitters(caught)|
    {
      var pending := asteroids.members;
      ghost var start := asteroids.members;
      ghost var inBlast, big := Caught(bomb, start), Splitters(start);
      caught, born := {}, {};
      while pending != {}
        invariant pending <= start && rng.Valid()
        invariant caught == inBlast * (start - pending)
        invariant score == old(score) + 15 * |caught|
        invariant born !! keep && Debris(start, big, caught, born, asteroids.members)
        decreases pending
      {
        var a :| a in pending;
        assert a in inBlast <==> bomb.InBlast(a.position, a.radius);
        caught, born := BlastOne(bomb, a, keep, start, big, pending, inBlast, caught, born, old(score));
        pending := pending - {a};
      }
      assert caught == inBlast;
      SplittersWithin(caught, start);
      KeptPart(start, caught, born, keep);
    }

    /** One asteroid of `Blast`'s snapshot, keeping what the blast has broken so far. */
    method BlastOne(bomb: Bomb, a: Asteroid, ghost keep: set<Asteroid>, ghost start: set<Asteroid>, ghost big: set<Asteroid>,
                    ghost pending: set<Asteroid>,
                    ghost inBlast: set<Asteroid>, ghost caught: set<Asteroid>, ghost born: set<Asteroid>, ghost score0: int)
      returns (ghost caughtAfter: set<Asteroid>, ghost bornAfter: set<Asteroid>)
      requires rng.Valid() && a in pending && pending <= start
      requires caught == inBlast * (start - pending) && (a in inBlast <==> bomb.InBlast(a.position, a.radius))
      requires score == score0 + 15 * |caught|
      requires born !! keep && Debris(start, big, caught, born, asteroids.members)
      requires a in big <==> a.radius > AsteroidMinRadius
      modifies this`score, asteroids, rng
      ensures rng.Valid()
      ensures caughtAfter == inBlast * (start - (pending - {a}))
      ensures score == score0 + 15 * |caughtAfter|
      ensures bornAfter !! keep && Debris(start, big, caughtAfter, bornAfter, asteroids.members)
    {
      MeetStep(inBlast, start, pending, a);
      ghost var before := asteroids.members;
      ghost var kids: set<Asteroid> := {};
      var hit := bomb.InBlast(a.position, a.radius);
      if hit {
        ghost var first, second := Shatter(a, keep + start + born);
        KidsFacts(keep + start + born, a, first, second, before, asteroids.members);
        kids := Kids(a, first, second);
        score := score + 15;
      }
      caughtAfter, bornAfter := SplitStep(start, big, caught, born, a, hit, kids, before, asteroids.members);
    }

    /**
     * The bomb pass: every exploded bomb of the snapshot detonates and leaves
     * its group. An asteroid of the snapshot is gone afterwards exactly when
     * it was inside the blast of an exploded bomb. `kills` counts every split,
     * children of an earlier blast included, so each asteroid of the snapshot
     * destroyed is worth at least 15 points.
     */
    method BombSweep() returns (ghost kills: nat)
      requires rng.Valid()
      modifies this`score, asteroids, bombs, rng
      ensures rng.Valid()
      ensures bombs.members == old(Unexploded(bombs.members))
      ensures score == old(score) + 15 * kills
      ensures |old(asteroids.members) - asteroids.members| <= kills
      ensures asteroids.members * old(asteroids.members) ==
        old(asteroids.members) - old(Blasted(bombs.members, asteroids.members))
    {
      var pending := bombs.members;
      ghost var bombs0 := bombs.members;
      ghost var rocks := RockDiscs(asteroids.members);
      ghost var sites := BlastSites(bombs.members);
      ghost var done: set<Bomb> := {};
      kills := 0;
      RecordsAt(asteroids.members, bombs0);
      assert Wrecked(sites, done, rocks) == {};
      while pending != {}
        invariant done !! pending && done + pending == bombs0 && rng.Valid()
        invariant RocksAt(rocks) && SitesAt(sites, bombs0)
        invariant bombs.members == bombs0 - done * sites.Keys
        invariant score == old(score) + 15 * kills
        invariant |rocks.Keys - asteroids.members| <= kills
        invariant asteroids.members * rocks.Keys == rocks.Keys - Wrecked(sites, done, rocks)
        decreases pending
      {
        var bomb :| bomb in pending;
        ghost var before := bombs.members;
        ghost var caught := SweepBomb(bomb, rocks, bombs0, sites, done);
        RetireStep(bombs0, done, sites.Keys, bomb, before, bombs.members);
        Advance(done, pending, bomb, bombs0);
        kills := kills + caught;
        done := done + {bomb};
        pending := pending - {bomb};
      }
    }

    /** One bomb of the bomb pass, with the pass's running facts as pre- and postconditions. */
    method SweepBomb(bomb: Bomb, ghost rocks: map<Asteroid, Disc>, ghost bombs0: set<Bomb>,
                     ghost sites: map<Bomb, Vec2>, ghost done: set<Bomb>) returns (ghost caught: nat)
      requires rng.Valid() && bomb in bombs0
      requires RocksAt(rocks) && SitesAt(sites, bombs0)
      requires asteroids.members * rocks.Keys == rocks.Keys - Wrecked(sites, done, rocks)
      modifies this`score, asteroids, bombs, rng
      ensures rng.Valid() && RocksAt(rocks) && SitesAt(sites, bombs0)
      ensures bombs.members == if bomb in sites then old(bombs.members) - {bomb} else old(bombs.members)
      ensures score == old(score) + 15 * caught
      ensures |rocks.Keys - asteroids.members| <= |rocks.Keys - old(asteroids.members)| + caught
      ensures asteroids.members * rocks.Keys == rocks.Keys - Wrecked(sites, done + {bomb}, rocks)
    {
      caught := 0;
      WreckedStep(sites, done, bomb, rocks);
      if bomb.exploded {
        ghost var before := asteroids.members;
        CaughtMatches(bomb, before, rocks);
        ghost var hit := BlastBomb(bomb, rocks, bombs0, sites);
        BlastStep(rocks.Keys, before, asteroids.members, Wrecked(sites, done, rocks), Reached(sites[bomb], rocks), hit);
        RemovedBound(rocks.Keys, before, asteroids.members, hit);
        caught := |hit|;
      }
    }

    /** `Detonate`, keeping the bomb pass's records of the asteroids and the bombs. */
    method BlastBomb(bomb: Bomb, ghost rocks: map<Asteroid, Disc>, ghost bombs0: set<Bomb>,
                     ghost sites: map<Bomb, Vec2>) returns (ghost hit: set<Asteroid>)
      requires rng.Valid() && RocksAt(rocks) && SitesAt(sites, bombs0)
      modifies this`score, asteroids, bombs, rng
      ensures rng.Valid() && RocksAt(rocks) && SitesAt(sites, bombs0)
      ensures hit == old(Caught(bomb, asteroids.members))
      ensures bombs.members == old(bombs.members) - {bomb}
      ensures score == old(score) + 15 * |hit|
      ensures asteroids.members * rocks.Keys == old(asteroids.members) * rocks.Keys - hit
    {
      ghost var born;
      hit, born := Detonate(bomb, rocks.Keys);
    }

    /**
     * The shielded ship against one asteroid: a touching asteroid is split
     * for 5 points, and its children (`first` and `second`) join as
     * `Shatter` states. Of any set `keep` of asteroids, only that one may leave.
     */
    method ShieldMeet(a: Asteroid, ghost keep: set<Asteroid>, ghost hull: seq<Vec2>, ghost rocks: map<Asteroid, Disc>)
      returns (hit: bool, ghost first: Asteroid?, ghost second: Asteroid?)
      requires InPlay() && hull == player.Triangle(rotate) && a in rocks && RocksAt(rocks)
      modifies this`score, asteroids, rng
      ensures InPlay() && RocksAt(rocks)
      ensures hit == PolygonHitsCircle(hull, rocks[a].centre, rocks[a].radius)
      ensures score == old(score) + if hit then 5 else 0
      ensures asteroids.members * keep == old(asteroids.members) * keep - if hit then {a} else {}
      ensures !hit ==> first == null && second == null && asteroids.members == old(asteroids.members)
      ensures hit && a.radius <= AsteroidMinRadius ==>
        first == null && second == null && asteroids.members == old(asteroids.members) - {a}
      ensures hit && a.radius > AsteroidMinRadius ==>
        first != null && second != null && first != second && fresh(first) && fresh(second) &&
        first !in keep && second !in keep &&
        asteroids.members == old(asteroids.members) - {a} + {first, second} &&
        a.IsChild(first, rotate(a.velocity, Angle(rng.draws(old(rng.index))))) &&
        a.IsChild(second, rotate(a.velocity, -Angle(rng.draws(old(rng.index)))))
    {
      hit := player.CollidesWith(a.position, a.radius, rotate);
      first, second := null, null;
      if hit {
        first, second := Shatter(a, keep);
        score := score + 5;
      }
    }

    /**
     * The unshielded ship against one asteroid: once the respawn grace is
     * over, a touch costs a life and either ends the game or respawns the
     * ship at the centre.
     */
    method HullMeet(a: Asteroid)
      requires InPlay()
      modifies this`lives, this`state
      modifies player`position, player`velocity, player`rotation, player`invulnerableTimer, player.bombInventory`bombs
      ensures InPlay()
      ensures old(player.invulnerableTimer) <= 0.0 && old(player.Touches(a.position, a.radius, rotate)) ==>
        lives == old(lives) - 1 &&
        (lives <= 0 ==> state == GameOver && unchanged(player, player.bombInventory)) &&
        (lives > 0 ==> state == old(state) && Respawned(player))
      ensures !(old(player.invulnerableTimer) <= 0.0 && old(player.Touches(a.position, a.radius, rotate))) ==>
        lives == old(lives) && state == old(state) && unchanged(player, player.bombInventory)
    {
      if player.invulnerableTimer <= 0.0 {
        var hit := player.CollidesWith(a.position, a.radius, rotate);
        if hit {
          lives := lives - 1;
          if lives <= 0 {
            state := GameOver;
          } else {
            player.Reset(ScreenCentre.x, ScreenCentre.y);
          }
        }
      }
    }

    /**
     * The ship against every asteroid of the snapshot (`rammed` are those its
     * hull touches at the start of the pass). Shielded, it splits each of them
     * for 5 points. Unshielded and past the respawn grace, the first touch
     * costs a life: with lives left the ship respawns, and the new grace
     * spares it the rest of the pass; on the last life the game ends, and
     * every further touch in the pass costs another life.
     */
    method PlayerSweep() returns (ghost rammed: set<Asteroid>)
      requires InPlay()
      modifies this`score, this`lives, this`state, asteroids, rng
      modifies player`position, player`velocity, player`rotation, player`invulnerableTimer, player.bombInventory`bombs
      ensures InPlay() && score >= old(score) && lives <= old(lives)
      ensures rammed == old(Rammed(player, asteroids.members, rotate))
      ensures old(player.IsShielded()) ==>
        score == old(score) + 5 * |rammed| &&
        lives == old(lives) && state == old(state) && unchanged(player, player.bombInventory) &&
        asteroids.members * old(asteroids.members) == old(asteroids.members) - rammed
      ensures !old(player.IsShielded()) ==> score == old(score) && asteroids.members == old(asteroids.members)
      ensures (!old(player.IsShielded()) && (old(player.invulnerableTimer) > 0.0 || rammed == {})) ==>
        lives == old(lives) && state == old(state) && unchanged(player, player.bombInventory)
      ensures (!old(player.IsShielded()) && old(player.invulnerableTimer) <= 0.0 && rammed != {}) ==>
        if old(lives) <= 1 then
          lives == old(lives) - |rammed| && state == GameOver && unchanged(player, player.bombInventory)
        else
          lives == old(lives) - 1 && state == old(state) && Respawned(player)
    {
      // Nothing in the pass touches the power-up manager, so the shield test
      // the source makes for each asteroid gives the same answer for all.
      if player.IsShielded() {
        ghost var born;
        rammed, born := ShieldSweep();
      } else {
        rammed := HullSweep();
      }
    }

    /** The ship pass with the shield up: every asteroid the hull touches splits for 5 points. */
    method ShieldSweep() returns (ghost rammed: set<Asteroid>, ghost born: set<Asteroid>)
      requires InPlay() && player.IsShielded()
      modifies this`score, asteroids, rng
      ensures InPlay()
      ensures rammed == old(Rammed(player, asteroids.members, rotate))
      ensures score == old(score) + 5 * |rammed|
      ensures asteroids.members * old(asteroids.members) == old(asteroids.members) - rammed
      ensures asteroids.members == old(asteroids.members) - rammed + born
      ensures born !! old(asteroids.members) && |born| == 2 * |Splitters(rammed)|
    {
      ghost var start := asteroids.members;
      ghost var hull, rocks, big := player.Triangle(rotate), RockDiscs(start), Splitters(start);
      TouchedIsRammed(hull, rocks, start, player, rotate);
      rammed, born := ShieldPass(start, big, player, hull, rocks);
      SplittersWithin(rammed, start);
      KeptPart(start, rammed, born, start);
    }

    /**
     * The loop of `ShieldSweep` over the snapshot `start` of the group, whose
     * circles `rocks` records and whose members able to split are `big`.
     */
    method ShieldPass(ghost start: set<Asteroid>, ghost big: set<Asteroid>, ghost p: Player, ghost hull: seq<Vec2>,
                      ghost rocks: map<Asteroid, Disc>)
      returns (ghost rammed: set<Asteroid>, ghost born: set<Asteroid>)
      requires InPlay() && player == p && hull == p.Triangle(rotate) && start == asteroids.members
      requires RocksAt(rocks) && rocks.Keys == start && big == Splitters(start)
      modifies this`score, asteroids, rng
      ensures InPlay()
      ensures rammed == Touched(hull, rocks, start)
      ensures score == old(score) + 5 * |rammed|
      ensures Debris(start, big, rammed, born, asteroids.members)
    {
      var pending := asteroids.members;
      rammed, born := {}, {};
      while pending != {}
        invariant pending <= start && InPlay() && player == p && hull == p.Triangle(rotate)
        invariant RocksAt(rocks) && rocks.Keys == start
        invariant rammed == Touched(hull, rocks, start - pending)
        invariant score == old(score) + 5 * |rammed|
        invariant Debris(start, big, rammed, born, asteroids.members)
        decreases pending
      {
        var a :| a in pending;
        assert a in big <==> a.radius > AsteroidMinRadius;
        rammed, born := ShieldOne(a, start, big, pending, rammed, born, p, hull, rocks, old(score));
        pending := pending - {a};
      }
      NoneLeft(start, pending);
    }

    /** One step of the shielded pass, keeping what the pass has broken so far. */
    method ShieldOne(a: Asteroid, ghost start: set<Asteroid>, ghost big: set<Asteroid>, ghost pending: set<Asteroid>, ghost rammed: set<Asteroid>,
                     ghost born: set<Asteroid>, ghost p: Player, ghost hull: seq<Vec2>, ghost rocks: map<Asteroid, Disc>, ghost score0: int)
      returns (ghost after: set<Asteroid>, ghost bornAfter: set<Asteroid>)
      requires a in pending && pending <= start && InPlay() && player == p && hull == p.Triangle(rotate)
      requires RocksAt(rocks) && rocks.Keys == start
      requires rammed == Touched(hull, rocks, start - pending)
      requires score == score0 + 5 * |rammed|
      requires Debris(start, big, rammed, born, asteroids.members)
      requires a in big <==> a.radius > AsteroidMinRadius
      modifies this`score, asteroids, rng
      ensures InPlay() && RocksAt(rocks) && player == p
      ensures after == Touched(hull, rocks, start - (pending - {a}))
      ensures score == score0 + 5 * |after|
      ensures Debris(start, big, after, bornAfter, asteroids.members)
    {
      assert a !in rammed;
      ghost var before := asteroids.members;
      var hit, first, second := ShieldMeet(a, start + born, hull, rocks);
      TouchStep(hull, rocks, start, pending, a);
      ghost var kids: set<Asteroid> := {};
      if hit {
        KidsFacts(start + born, a, first, second, before, asteroids.members);
        kids := Kids(a, first, second);
      }
      after, bornAfter := SplitStep(start, big, rammed, born, a, hit, kids, before, asteroids.members);
    }

    /**
     * The ship pass without the shield: past the respawn grace, the first
     * touch costs a life; with lives left the ship respawns and the new
     * grace spares it the rest of the pass, and on the last life the game
     * ends and every further touch costs another life.
     */
    method HullSweep() returns (ghost rammed: set<Asteroid>)
      requires InPlay()
      modifies this`lives, this`state
      modifies player`position, player`velocity, player`rotation, player`invulnerableTimer, player.bombInventory`bombs
      ensures InPlay()
      ensures rammed == old(Rammed(player, asteroids.members, rotate))
      ensures old(player.invulnerableTimer) > 0.0 || rammed == {} ==>
        lives == old(lives) && state == old(state) && unchanged(player, player.bombInventory)
      ensures old(player.invulnerableTimer) <= 0.0 && rammed != {} && old(lives) <= 1 ==>
        lives == old(lives) - |rammed| && state == GameOver && unchanged(player, player.bombInventory)
      ensures old(player.invulnerableTimer) <= 0.0 && rammed != {} && old(lives) > 1 ==>
        lives == old(lives) - 1 && state == old(state) && Respawned(player)
    {
      var pending := asteroids.members;
      ghost var start := asteroids.members;
      rammed := {};
      while pending != {}
        invariant pending <= start && InPlay() && player == old(player)
        invariant rammed == old(Rammed(player, start - pending, rotate))
        invariant old(player.invulnerableTimer) > 0.0 || rammed == {} ==>
          lives == old(lives) && state == old(state) && unchanged(player, player.bombInventory)
        invariant old(player.invulnerableTimer) <= 0.0 && rammed != {} && old(lives) <= 1 ==>
          lives == old(lives) - |rammed| && state == GameOver && unchanged(player, player.bombInventory)
        invariant old(player.invulnerableTimer) <= 0.0 && rammed != {} && old(lives) > 1 ==>
          lives == old(lives) - 1 && state == old(state) && Respawned(player)
        decreases pending
      {
        var a :| a in pending;
        ghost var touched := old(player.Touches(a.position, a.radius, rotate));
        HullMeet(a);
        if touched {
          rammed := rammed + {a};
        }
        pending := pending - {a};
      }
    }

    /**
     * A shot meets an asteroid: the asteroid splits, the shot is spent, and a
     * power-up may drop where the asteroid was. Of any set `keep` of
     * asteroids, only the one hit may leave.
     */
    method ShotHit(shot: Shot, a: Asteroid, ghost keep: set<Asteroid>) returns (ghost first: Asteroid?, ghost second: Asteroid?)
      requires rng.Valid()
      modifies this`score, asteroids, shots, powerups, rng
      ensures rng.Valid()
      ensures score == old(score) + 10
      ensures shots.members == old(shots.members) - {shot}
      ensures a !in asteroids.members && asteroids.members * keep == old(asteroids.members) * keep - {a}
      ensures a.radius <= AsteroidMinRadius ==>
        first == null && second == null && asteroids.members == old(asteroids.members) - {a}
      ensures a.radius > AsteroidMinRadius ==>
        first != null && second != null && first != second && fresh(first) && fresh(second) &&
        first !in keep && second !in keep &&
        asteroids.members == old(asteroids.members) - {a} + {first, second} &&
        a.IsChild(first, rotate(a.velocity, Angle(rng.draws(old(rng.index))))) &&
        a.IsChild(second, rotate(a.velocity, -Angle(rng.draws(old(rng.index)))))
      ensures old(powerups.members) <= powerups.members
    {
      first, second := Shatter(a, keep);
      score := score + 10;
      shots.Kill(shot);
      var powerup := MaybeSpawnPowerUp(powerups, rng, a.position.x, a.position.y);
      if powerup != null {
        powerups.Add(powerup);
      }
    }

    /**
     * One asteroid of the snapshot against every shot of the snapshot: each
     * shot touching it is removed for 10 points, and each such hit splits
     * the asteroid again and may drop a power-up. Of any set `keep` of
     * asteroids, only this one may leave.
     */
    method ShotsHit(a: Asteroid, ghost keep: set<Asteroid>) returns (ghost hits: set<Shot>, ghost born: set<Asteroid>)
      requires rng.Valid()
      modifies this`score, asteroids, shots, powerups, rng
      ensures rng.Valid()
      ensures hits == old(HitBy(a, shots.members))
      ensures shots.members == old(shots.members) - hits
      ensures score == old(score) + 10 * |hits|
      ensures asteroids.members * keep == old(asteroids.members) * keep - if hits == {} then {} else {a}
      ensures asteroids.members == old(asteroids.members) - (if hits == {} then {} else {a}) + born
      ensures born !! old(asteroids.members)
      ensures |born| == if a.radius > AsteroidMinRadius then 2 * |hits| else 0
      ensures old(powerups.members) <= powerups.members
    {
      ghost var rocks0 := asteroids.members;
      hits, born := Volley(a, keep + rocks0 + {a}, HitBy(a, shots.members));
      KeptPart(rocks0, if hits == {} then {} else {a}, born, keep);
    }

    /**
     * The loop of `ShotsHit` over its snapshot of the shots, `hitting` being
     * those that touch `a`; the children of its splits are none of `outside`.
     */
    method Volley(a: Asteroid, ghost outside: set<Asteroid>, ghost hitting: set<Shot>)
      returns (ghost hits: set<Shot>, ghost born: set<Asteroid>)
      requires rng.Valid() && asteroids.members + {a} <= outside
      requires forall s {:trigger CirclesCollide(s.position, s.radius, a.position, a.radius)} :: s in shots.members ==>
        (s in hitting <==> CirclesCollide(s.position, s.radius, a.position, a.radius))
      requires hitting <= shots.members
      modifies this`score, asteroids, shots, powerups, rng
      ensures rng.Valid() && hits == hitting
      ensures shots.members == old(shots.members) - hits
      ensures score == old(score) + 10 * |hits|
      ensures asteroids.members == old(asteroids.members) - (if hits == {} then {} else {a}) + born
      ensures born !! outside
      ensures |born| == if a.radius > AsteroidMinRadius then 2 * |hits| else 0
      ensures old(powerups.members) <= powerups.members
    {
      var pending := shots.members;
      ghost var start := shots.members;
      ghost var rocks0 := asteroids.members;
      hits, born := {}, {};
      while pending != {}
        invariant pending <= start && rng.Valid()
        invariant hits == hitting * (start - pending)
        invariant shots.members == start - hits
        invariant score == old(score) + 10 * |hits|
        invariant asteroids.members == rocks0 - (if hits == {} then {} else {a}) + born
        invariant born !! outside
        invariant |born| == if a.radius > AsteroidMinRadius then 2 * |hits| else 0
        invariant old(powerups.members) <= powerups.members
        decreases pending
      {
        var shot :| shot in pending;
        hits, born := StrikeOne(shot, a, outside, start, pending, hitting, hits, rocks0, born, old(score), old(powerups.members));
        pending := pending - {shot};
      }
      assert start - pending == start;
    }

    /** One shot of `ShotsHit`'s snapshot, keeping what the asteroid's pass has counted so far. */
    method StrikeOne(shot: Shot, a: Asteroid, ghost outside: set<Asteroid>, ghost start: set<Shot>, ghost pending: set<Shot>,
                     ghost hitting: set<Shot>, ghost hits: set<Shot>, ghost rocks0: set<Asteroid>, ghost born: set<Asteroid>,
                     ghost score0: int, ghost drops: set<PowerUp>)
      returns (ghost after: set<Shot>, ghost bornAfter: set<Asteroid>)
      requires rng.Valid() && shot in pending && pending <= start
      requires hits == hitting * (start - pending)
      requires shot in hitting <==> CirclesCollide(shot.position, shot.radius, a.position, a.radius)
      requires shots.members == start - hits
      requires score == score0 + 10 * |hits|
      requires asteroids.members == rocks0 - (if hits == {} then {} else {a}) + born
      requires rocks0 + {a} <= outside && born !! outside
      requires |born| == if a.radius > AsteroidMinRadius then 2 * |hits| else 0
      requires drops <= powerups.members
      modifies this`score, asteroids, shots, powerups, rng
      ensures rng.Valid() && after == hitting * (start - (pending - {shot}))
      ensures shots.members == start - after
      ensures score == score0 + 10 * |after|
      ensures asteroids.members == rocks0 - (if after == {} then {} else {a}) + bornAfter
      ensures bornAfter !! outside && |bornAfter| == if a.radius > AsteroidMinRadius then 2 * |after| else 0
      ensures drops <= powerups.members
    {
      MeetStep(hitting, start, pending, shot);
      after, bornAfter := hits, born;
      if CirclesCollide(shot.position, shot.radius, a.position, a.radius) {
        AddOneCard(hits, shot);
        RemoveOneMore(start, hits, shot);
        ghost var before := asteroids.members;
        var first, second := ShotHit(shot, a, outside + born);
        KidsFacts(outside + born, a, first, second, before, asteroids.members);
        Resplit(rocks0, if hits == {} then {} else {a}, born, a, Kids(a, first, second), outside, before, asteroids.members);
        after, bornAfter := hits + {shot}, born + Kids(a, first, second);
      }
    }

    /** `ShotsHit`, keeping the shot pass's records of the asteroids and the shots. */
    method SweepAsteroid(a: Asteroid, ghost rocks: map<Asteroid, Disc>, ghost darts: map<Shot, Disc>)
      returns (ghost hits: set<Shot>)
      requires rng.Valid() && a in rocks && RocksAt(rocks) && ShotsAt(darts) && shots.members <= darts.Keys
      modifies this`score, asteroids, shots, powerups, rng
      ensures rng.Valid() && RocksAt(rocks) && ShotsAt(darts)
      ensures hits == Hitting(rocks[a], darts, old(shots.members))
      ensures shots.members == old(shots.members) - hits
      ensures score == old(score) + 10 * |hits|
      ensures asteroids.members * rocks.Keys == old(asteroids.members) * rocks.Keys - if hits == {} then {} else {a}
      ensures old(powerups.members) <= powerups.members
    {
      HitByMatches(a, shots.members, rocks, darts);
      ghost var born;
      hits, born := ShotsHit(a, rocks.Keys);
    }

    /**
     * The shot pass. The shots used up (`used`) are exactly those of the
     * snapshot touching some asteroid of the snapshot, each is removed and
     * scores 10 once, and every asteroid of the snapshot that is gone was
     * touched by a used shot.
     */
    method ShotSweep() returns (ghost used: set<Shot>)
      requires rng.Valid()
      modifies this`score, asteroids, shots, powerups, rng
      ensures rng.Valid()
      ensures used == old(UsedShots(asteroids.members, shots.members))
      ensures shots.members == old(shots.members) - used
      ensures score == old(score) + 10 * |used|
      ensures old(asteroids.members) - asteroids.members <= old(ShotDown(asteroids.members, shots.members, used))
      ensures old(powerups.members) <= powerups.members
    {
      var pending := asteroids.members;
      ghost var rocks := RockDiscs(asteroids.members);
      ghost var darts := ShotDiscs(shots.members);
      ghost var done: set<Asteroid> := {};
      ShotRecordsAt(asteroids.members, shots.members);
      assert Spent(rocks, done, darts) == {};
      while pending != {}
        invariant done !! pending && done + pending == rocks.Keys && rng.Valid()
        invariant RocksAt(rocks) && ShotsAt(darts)
        invariant shots.members == darts.Keys - Spent(rocks, done, darts)
        invariant score == old(score) + 10 * |Spent(rocks, done, darts)|
        invariant rocks.Keys - asteroids.members <= Shelled(rocks, darts, darts.Keys - shots.members)
        invariant old(powerups.members) <= powerups.members
        decreases pending
      {
        var a :| a in pending;
        ghost var before, left := asteroids.members, shots.members;
        ghost var hits := SweepAsteroid(a, rocks, darts);
        SpentStep(rocks, done, a, darts);
        ShotLoss(rocks, darts, a, left, hits, shots.members, before, asteroids.members);
        Advance(done, pending, a, rocks.Keys);
        done := done + {a};
        pending := pending - {a};
      }
      used := Spent(rocks, done, darts);
      SpentWithin(rocks, done, darts);
    }

    /**
     * The ship against one power-up: a touching power-up is collected for 25
     * points, its effect starts afresh, and it leaves its group.
     */
    method Collect(p: PowerUp, ghost hull: seq<Vec2>, ghost items: map<PowerUp, Disc>) returns (hit: bool)
      requires player != null && player.Valid() && rng.Valid()
      requires hull == player.Triangle(rotate) && p in items && ItemsAt(items)
      modifies this`score, powerups, player.powerUpManager, rng
      modifies player.weaponManager`tempWeapon, player.weaponManager`tempWeaponTimer
      ensures player.Valid() && rng.Valid() && hull == player.Triangle(rotate) && ItemsAt(items)
      ensures hit == PolygonHitsCircle(hull, items[p].centre, items[p].radius)
      ensures !hit ==>
        score == old(score) && powerups.members == old(powerups.members) &&
        unchanged(player.powerUpManager, player.weaponManager)
      ensures hit ==>
        score == old(score) + 25 && powerups.members == old(powerups.members) - {p} &&
        player.powerUpManager.activeEffects == old(player.powerUpManager.activeEffects)[p.kind := Duration(p.kind)]
      ensures hit && p.kind == WeaponBoost ==>
        player.weaponManager.tempWeaponTimer == Duration(WeaponBoost) &&
        player.weaponManager.tempWeapon.Some? && player.weaponManager.tempWeapon.value in BoostWeapons
      ensures !(hit && p.kind == WeaponBoost) ==>
        player.weaponManager.tempWeapon == old(player.weaponManager.tempWeapon) &&
        player.weaponManager.tempWeaponTimer == old(player.weaponManager.tempWeaponTimer)
    {
      hit := player.CollidesWith(p.position, p.radius, rotate);
      if hit {
        player.ApplyPowerUp(p.kind, rng);
        powerups.Kill(p);
        score := score + 25;
      }
    }

    /**
     * The power-up pass: every power-up of the snapshot the hull touches is
     * collected, removed and worth 25 points, and its effect starts with its
     * full duration; collecting a weapon power-up lends one of the better
     * weapons for the boost's duration.
     */
    method PowerUpSweep() returns (ghost collected: set<PowerUp>)
      requires InPlay()
      modifies this`score, powerups, player.powerUpManager, rng
      modifies player.weaponManager`tempWeapon, player.weaponManager`tempWeaponTimer
      ensures InPlay()
      ensures collected == old(Collected(player, powerups.members, rotate))
      ensures powerups.members == old(powerups.members) - collected
      ensures score == old(score) + 25 * |collected|
      ensures player.powerUpManager.activeEffects ==
        old(player.powerUpManager.activeEffects) + Boosts(KindsOf(collected))
      ensures WeaponBoost !in KindsOf(collected) ==>
        player.weaponManager.tempWeapon == old(player.weaponManager.tempWeapon) &&
        player.weaponManager.tempWeaponTimer == old(player.weaponManager.tempWeaponTimer)
      ensures WeaponBoost in KindsOf(collected) ==>
        player.weaponManager.tempWeaponTimer == Duration(WeaponBoost) &&
        player.weaponManager.tempWeapon.Some? && player.weaponManager.tempWeapon.value in BoostWeapons
    {
      var pending := powerups.members;
      ghost var start := powerups.members;
      ghost var pm, wm := player.powerUpManager, player.weaponManager;
      ghost var effects, lent, timer := pm.activeEffects, wm.tempWeapon, wm.tempWeaponTimer;
      ghost var hull, items := player.Triangle(rotate), ItemDiscs(start);
      TouchedIsCollected(hull, items, start, player, rotate);
      collected := {};
      while pending != {}
        invariant pending <= start && player.Valid() && rng.Valid() && hull == player.Triangle(rotate)
        invariant pm == player.powerUpManager && wm == player.weaponManager
        invariant ItemsAt(items) && items.Keys == start
        invariant collected == Touched(hull, items, start - pending)
        invariant powerups.members == start - collected
        invariant score == old(score) + 25 * |collected|
        invariant Boosted(pm, wm, effects, lent, timer, KindsOf(collected))
        decreases pending
      {
        var p :| p in pending;
        collected := CollectOne(p, start, pending, collected, hull, items, pm, wm, effects, lent, timer, old(score));
        pending := pending - {p};
      }
    }

    /** One step of the power-up pass, keeping what the pass has gathered so far. */
    method CollectOne(p: PowerUp, ghost start: set<PowerUp>, ghost pending: set<PowerUp>, ghost collected: set<PowerUp>,
                      ghost hull: seq<Vec2>, ghost items: map<PowerUp, Disc>, ghost pm: PowerUpManager, ghost wm: WeaponManager,
                      ghost effects: map<PowerUpKind, real>, ghost lent: Option<WeaponType>, ghost timer: real, ghost score0: int)
      returns (ghost after: set<PowerUp>)
      requires p in pending && pending <= start && player != null && player.Valid() && rng.Valid()
      requires hull == player.Triangle(rotate)
      requires pm == player.powerUpManager && wm == player.weaponManager
      requires ItemsAt(items) && items.Keys == start
      requires collected == Touched(hull, items, start - pending)
      requires powerups.members == start - collected
      requires score == score0 + 25 * |collected|
      requires Boosted(pm, wm, effects, lent, timer, KindsOf(collected))
      modifies this`score, powerups, player.powerUpManager, rng
      modifies player.weaponManager`tempWeapon, player.weaponManager`tempWeaponTimer
      ensures player.Valid() && rng.Valid() && hull == player.Triangle(rotate)
      ensures ItemsAt(items)
      ensures after == Touched(hull, items, start - (pending - {p}))
      ensures powerups.members == start - after
      ensures score == score0 + 25 * |after|
      ensures Boosted(pm, wm, effects, lent, timer, KindsOf(after))
    {
      var hit := Collect(p, hull, items);
      TouchStep(hull, items, start, pending, p);
      after := collected;
      if hit {
        BoostsStep(effects, KindsOf(collected), p.kind);
        KindsStep(collected, p);
        AddOneCard(collected, p);
        RemoveOneMore(start, collected, p);
        after := collected + {p};
      }
    }

    /**
     * One pass of the frame loop after the events: the starfield follows the
     * ship, and in play every sprite updates and the bomb, ship, shot and
     * power-up passes run, in that order, even when the ship's pass has just
     * ended the game.
     */
    method Frame(dt: real, keys: Keys)
      requires Valid()
      modifies this`score, this`lives, this`state, background, background.stars, rng
      modifies asteroids, shots, powerups, bombs, asteroids.members, shots.members, powerups.members, bombs.members
      modifies if player == null then {} else player.Repr()
      ensures Valid() && player == old(player)
      ensures background.time == old(background.time) + dt
      ensures old(state) != Playing ==>
        state == old(state) && score == old(score) && lives == old(lives) &&
        asteroids.members == old(asteroids.members) && shots.members == old(shots.members) &&
        powerups.members == old(powerups.members) && bombs.members == old(bombs.members)
      ensures old(state) == Playing ==>
        (state == Playing || state == GameOver) && score >= old(score) && lives <= old(lives)
    {
      UpdateBackground(dt);
      if state == Playing {
        PlayFrame(dt, keys);
      }
    }

    /** The in-play part of a frame: every sprite updates, then the collision passes run. */
    method PlayFrame(dt: real, keys: Keys)
      requires InPlay() && background.Valid()
      modifies this`score, this`lives, this`state, rng
      modifies asteroids, shots, powerups, bombs, asteroids.members, shots.members, powerups.members, bombs.members
      modifies player.Repr()
      ensures InPlay() && background.Valid() && player == old(player) && background.time == old(background.time)
      ensures score >= old(score) && lives <= old(lives)
    {
      UpdateSprites(dt, keys);
      Collide();
    }

    /** The starfield follows the ship when there is one; its clock always advances. */
    method UpdateBackground(dt: real)
      requires Valid()
      modifies background, background.stars
      ensures Valid() && background.time == old(background.time) + dt
    {
      if player != null {
        background.Update(dt, Some(player.position));
      } else {
        background.Update(dt, None);
      }
    }

    /** `updatable.update(dt)`: the ship, then every asteroid, shot, power-up and bomb. */
    method UpdateSprites(dt: real, keys: Keys)
      requires InPlay()
      modifies asteroids.members, shots, shots.members, powerups, powerups.members, bombs.members, player.Repr()
      ensures InPlay()
    {
      UpdateShip(dt, keys);
      UpdateGroups(dt);
    }

    /** The ship's own update, which keeps its systems well formed. */
    method UpdateShip(dt: real, keys: Keys)
      requires player != null && player.Valid()
      modifies player.Repr()
      ensures player.Valid()
    {
      player.Update(dt, keys, rotate);
    }

    /** The asteroid, shot, power-up and bomb updates of one frame. */
    method UpdateGroups(dt: real)
      modifies asteroids.members, shots, shots.members, powerups, powerups.members, bombs.members
    {
      UpdateAsteroids(dt);
      UpdateShots(dt);
      UpdatePowerUps(dt);
      UpdateBombs(dt);
    }

    /**
     * The collision passes of one frame, in the source's order: bombs, ship,
     * shots, power-ups. Points are only ever gained and lives only lost.
     */
    method Collide()
      requires InPlay()
      modifies this`score, this`lives, this`state, asteroids, shots, powerups, bombs, rng
      modifies player`position, player`velocity, player`rotation, player`invulnerableTimer, player.bombInventory`bombs
      modifies player.powerUpManager, player.weaponManager`tempWeapon, player.weaponManager`tempWeaponTimer
      ensures InPlay() && score >= old(score) && lives <= old(lives)
    {
      BlastAndRam();
      ShootAndCollect();
    }

    /** The bomb pass, then the ship's pass. */
    method BlastAndRam()
      requires InPlay()
      modifies this`score, this`lives, this`state, asteroids, bombs, rng
      modifies player`position, player`velocity, player`rotation, player`invulnerableTimer, player.bombInventory`bombs
      ensures InPlay() && score >= old(score) && lives <= old(lives)
    {
      ghost var kills := BombSweep();
      ghost var rammed := PlayerSweep();
    }

    /** The shot pass, then the power-up pass. */
    method ShootAndCollect()
      requires InPlay()
      modifies this`score, asteroids, shots, powerups, rng
      modifies player.powerUpManager, player.weaponManager`tempWeapon, player.weaponManager`tempWeaponTimer
      ensures InPlay() && score >= old(score)
    {
      ghost var used := ShotSweep();
      ghost var collected := PowerUpSweep();
    }
  }

  /** The circle a sprite occupies at one moment: its centre and radius. */
  datatype Disc = Disc(centre: Vec2, radius: real)

  /** The asteroids of `s` big enough to split into two children. */
  function Splitters(s: set<Asteroid>): set<Asteroid>
  {
    set a | a in s && a.radius > AsteroidMinRadius
  }

  /** Inside a snapshot, the splitters of a part are the part's share of the snapshot's splitters. */
  lemma SplittersWithin(part: set<Asteroid>, start: set<Asteroid>)
    requires part <= start
    ensures Splitters(part) == part * Splitters(start)
  {
  }

  /** The children one split of `a` adds: its two halves when it is above the minimum radius, else none. */
  function Kids(a: Asteroid, first: Asteroid?, second: Asteroid?): set<Asteroid>
    requires a.radius > AsteroidMinRadius ==> first != null && second != null
  {
    if a.radius > AsteroidMinRadius then {first, second} else {}
  }

  /** The group `before` and `after` one split of `a`, whose children are none of `keep`. */
  ghost predicate SplitFacts(keep: set<Asteroid>, a: Asteroid, first: Asteroid?, second: Asteroid?,
                             before: set<Asteroid>, after: set<Asteroid>)
  {
    (a.radius <= AsteroidMinRadius ==> after == before - {a}) &&
    (a.radius > AsteroidMinRadius ==>
      first != null && second != null && first != second && first !in keep && second !in keep &&
      after == before - {a} + {first, second})
  }

  /** One split of `a` replaces it by its children, none of `keep`: two above the minimum radius, none below. */
  lemma KidsFacts(keep: set<Asteroid>, a: Asteroid, first: Asteroid?, second: Asteroid?,
                  before: set<Asteroid>, after: set<Asteroid>)
    requires SplitFacts(keep, a, first, second, before, after)
    ensures after == before - {a} + Kids(a, first, second) && Kids(a, first, second) !! keep
    ensures |Kids(a, first, second)| == if a.radius > AsteroidMinRadius then 2 else 0
  {
  }

  /** `collides_with` between two circles. */
  predicate Overlap(d: Disc, e: Disc)
  {
    CirclesCollide(d.centre, d.radius, e.centre, e.radius)
  }

  /** Where each asteroid of `s` is, as a value. */
  ghost function RockDiscs(s: set<Asteroid>): map<Asteroid, Disc>
    reads s
  {
    map a | a in s :: Disc(a.position, a.radius)
  }

  /** Where each shot of `s` is, as a value. */
  ghost function ShotDiscs(s: set<Shot>): map<Shot, Disc>
    reads s
  {
    map shot | shot in s :: Disc(shot.position, shot.radius)
  }

  /** The shots of `pool` whose disc overlaps `target`. */
  function Hitting(target: Disc, darts: map<Shot, Disc>, pool: set<Shot>): set<Shot>
  {
    set s | s in pool && s in darts && Overlap(darts[s], target)
  }

  /** The shots of `darts` that overlap some asteroid of `done`. */
  function Spent(rocks: map<Asteroid, Disc>, done: set<Asteroid>, darts: map<Shot, Disc>): set<Shot>
  {
    set s | s in darts.Keys && exists a :: a in done && a in rocks && Overlap(darts[s], rocks[a])
  }

  /** The asteroids of `rocks` that some shot of `gone` overlaps. */
  function Shelled(rocks: map<Asteroid, Disc>, darts: map<Shot, Disc>, gone: set<Shot>): set<Asteroid>
  {
    set a | a in rocks.Keys && exists s :: s in gone && s in darts && Overlap(darts[s], rocks[a])
  }

  /** The shots of `shots` touching some asteroid of `rocks`. */
  ghost function UsedShots(rocks: set<Asteroid>, shots: set<Shot>): set<Shot>
    reads rocks, shots
  {
    Spent(RockDiscs(rocks), rocks, ShotDiscs(shots))
  }

  /** The asteroids of `rocks` touched by some shot of `used`, a subset of `shots`. */
  ghost function ShotDown(rocks: set<Asteroid>, shots: set<Shot>, used: set<Shot>): set<Asteroid>
    reads rocks, shots
  {
    Shelled(RockDiscs(rocks), ShotDiscs(shots), used)
  }

  /** `darts` records where each of its shots is now. */
  ghost predicate ShotsAt(darts: map<Shot, Disc>)
    reads darts.Keys
  {
    forall s :: s in darts ==> darts[s] == Disc(s.position, s.radius)
  }

  /** The records the shot pass takes at its start describe the groups as they are. */
  lemma ShotRecordsAt(rocks: set<Asteroid>, shots: set<Shot>)
    ensures RocksAt(RockDiscs(rocks)) && RockDiscs(rocks).Keys == rocks
    ensures ShotsAt(ShotDiscs(shots)) && ShotDiscs(shots).Keys == shots
  {
  }

  /**
   * Taking one more asteroid into the shot pass uses up exactly the shots
   * still left that overlap it: the shots used so far can be used only once.
   */
  lemma {:induction false} SpentStep(rocks: map<Asteroid, Disc>, done: set<Asteroid>, a: Asteroid, darts: map<Shot, Disc>)
    requires a in rocks
    ensures Spent(rocks, done + {a}, darts) ==
      Spent(rocks, done, darts) + Hitting(rocks[a], darts, darts.Keys - Spent(rocks, done, darts))
    ensures darts.Keys - Spent(rocks, done + {a}, darts) ==
      (darts.Keys - Spent(rocks, done, darts)) - Hitting(rocks[a], darts, darts.Keys - Spent(rocks, done, darts))
    ensures |Spent(rocks, done + {a}, darts)| ==
      |Spent(rocks, done, darts)| + |Hitting(rocks[a], darts, darts.Keys - Spent(rocks, done, darts))|
  {
    var before := Spent(rocks, done, darts);
    var newly := Hitting(rocks[a], darts, darts.Keys - before);
    forall s | s in darts.Keys
      ensures s in Spent(rocks, done + {a}, darts) <==> s in before || Overlap(darts[s], rocks[a])
    {
      if Overlap(darts[s], rocks[a]) {
        assert a in done + {a};
      }
      if s in before {
        var b :| b in done && b in rocks && Overlap(darts[s], rocks[b]);
        assert b in done + {a};
      }
    }
    assert before !! newly;
    DisjointUnionCard(before, newly);
  }

  /** The shots of `s` touching the asteroid. */
  ghost function HitBy(a: Asteroid, s: set<Shot>): set<Shot>
    reads a, s
  {
    set shot | shot in s && CirclesCollide(shot.position, shot.radius, a.position, a.radius)
  }

  /** The shots touching an asteroid, seen through the pass's records of both. */
  lemma HitByMatches(a: Asteroid, s: set<Shot>, rocks: map<Asteroid, Disc>, darts: map<Shot, Disc>)
    requires a in rocks && RocksAt(rocks) && ShotsAt(darts) && s <= darts.Keys
    ensures HitBy(a, s) == Hitting(rocks[a], darts, s)
  {
    forall shot | shot in s
      ensures shot in HitBy(a, s) <==> shot in Hitting(rocks[a], darts, s)
    {
      assert darts[shot] == Disc(shot.position, shot.radius);
    }
  }

  lemma AddOneCard<T>(s: set<T>, x: T)
    requires x !in s
    ensures |s + {x}| == |s| + 1
  {
  }

  /** A pass with nothing left to visit has visited the whole snapshot. */
  lemma NoneLeft<T>(start: set<T>, pending: set<T>)
    requires pending == {}
    ensures start - pending == start
  {
  }

  lemma RemoveOneMore<T>(s: set<T>, h: set<T>, x: T)
    ensures (s - h) - {x} == s - (h + {x})
  {
  }

  /**
   * The state of a pass over the snapshot `start` that has split the
   * members `broken`: the group is the snapshot less those plus the new
   * members `born`, none of them from the snapshot, two for each broken
   * member of `big` (the members of the snapshot able to split).
   */
  ghost predicate Debris<T>(start: set<T>, big: set<T>, broken: set<T>, born: set<T>, members: set<T>)
  {
    members == start - broken + born && born !! start && |born| == 2 * |broken * big|
  }

  /** One more broken member adds one to the broken share of `big` exactly when it is in `big`. */
  lemma BigStep<T>(broken: set<T>, big: set<T>, x: T)
    requires x !in broken
    ensures |(broken + {x}) * big| == |broken * big| + (if x in big then 1 else 0)
  {
    if x in big {
      assert (broken + {x}) * big == broken * big + {x};
      AddOneCard(broken * big, x);
    } else {
      assert (broken + {x}) * big == broken * big;
    }
  }

  /** One more split of a member `x` of the snapshot into `kids` keeps `Debris`. */
  lemma DebrisStep<T>(start: set<T>, big: set<T>, broken: set<T>, born: set<T>, x: T, kids: set<T>,
                      before: set<T>, after: set<T>)
    requires x in start && x !in broken && Debris(start, big, broken, born, before)
    requires after == before - {x} + kids && kids !! start + born && |kids| == (if x in big then 2 else 0)
    ensures Debris(start, big, broken + {x}, born + kids, after)
  {
    Replace(start, broken, born, x, kids, before, after);
    BigStep(broken, big, x);
  }

  /**
   * One more member `x` of the snapshot visited by a pass: when `hit` it is
   * replaced by `kids` and joins the broken ones, otherwise nothing changes.
   */
  lemma SplitStep<T>(start: set<T>, big: set<T>, broken: set<T>, born: set<T>,
                     x: T, hit: bool, kids: set<T>, before: set<T>, after: set<T>)
    returns (brokenAfter: set<T>, bornAfter: set<T>)
    requires x in start && x !in broken
    requires Debris(start, big, broken, born, before)
    requires !hit ==> after == before
    requires hit ==> after == before - {x} + kids && kids !! start + born && |kids| == (if x in big then 2 else 0)
    ensures brokenAfter == broken + (if hit then {x} else {})
    ensures |brokenAfter| == |broken| + (if hit then 1 else 0)
    ensures bornAfter == born + (if hit then kids else {})
    ensures Debris(start, big, brokenAfter, bornAfter, after)
  {
    brokenAfter, bornAfter := broken, born;
    if hit {
      AddOneCard(broken, x);
      DebrisStep(start, big, broken, born, x, kids, before, after);
      brokenAfter, bornAfter := broken + {x}, born + kids;
    }
  }

  /**
   * Breaking one more member `x` of `start` into `kids`: it joins the broken
   * ones and the kids, new like the rest, join the new ones.
   */
  lemma Replace<T>(start: set<T>, broken: set<T>, born: set<T>, x: T, kids: set<T>, before: set<T>, after: set<T>)
    requires x in start && x !in broken && born !! start && kids !! start + born
    requires before == start - broken + born && after == before - {x} + kids
    ensures after == start - (broken + {x}) + (born + kids)
    ensures born + kids !! start && |born + kids| == |born| + |kids|
    ensures |broken + {x}| == |broken| + 1
  {
    SwapIn(start, broken, born, x, kids);
    DisjointUnionCard(born, kids);
    AddOneCard(broken, x);
  }

  /** Breaking `x` once more into `kids`, none of `outside`, when it may already be gone. */
  lemma Resplit<T>(rocks0: set<T>, gone: set<T>, born: set<T>, x: T, kids: set<T>, outside: set<T>,
                   before: set<T>, after: set<T>)
    requires gone <= {x} && before == rocks0 - gone + born
    requires rocks0 + {x} <= outside && born !! outside && kids !! outside + born
    requires after == before - {x} + kids
    ensures after == rocks0 - {x} + (born + kids)
    ensures born + kids !! outside && |born + kids| == |born| + |kids|
  {
    DisjointUnionCard(born, kids);
  }

  /** Splitting one more asteroid of `start`: it moves to the broken ones and its children to the new ones. */
  lemma SwapIn<T>(start: set<T>, broken: set<T>, born: set<T>, x: T, kids: set<T>)
    requires x in start && x !in broken && born !! start
    ensures (start - broken + born) - {x} + kids == start - (broken + {x}) + (born + kids)
  {
  }

  /** The part of a pass's result inside `keep`, which holds none of the new asteroids. */
  lemma KeptPart<T>(start: set<T>, broken: set<T>, born: set<T>, keep: set<T>)
    requires born !! keep
    ensures (start - broken + born) * keep == start * keep - broken
  {
  }

  /** Visiting one more member of `start` adds it to the part of `hit` visited so far exactly when it is in `hit`. */
  lemma MeetStep<T>(hit: set<T>, start: set<T>, pending: set<T>, x: T)
    requires x in pending && pending <= start
    ensures hit * (start - (pending - {x})) == hit * (start - pending) + (if x in hit then {x} else {})
    ensures x !in hit * (start - pending)
  {
    assert start - (pending - {x}) == (start - pending) + {x};
  }

  lemma DisjointUnionCard<T>(a: set<T>, b: set<T>)
    requires a !! b
    ensures |a + b| == |a| + |b|
  {
    assert (a + b) - b == a;
  }

  /** The shots the pass uses up are shots of the pass. */
  lemma SpentWithin(rocks: map<Asteroid, Disc>, done: set<Asteroid>, darts: map<Shot, Disc>)
    ensures darts.Keys - (darts.Keys - Spent(rocks, done, darts)) == Spent(rocks, done, darts)
  {
  }

  /**
   * One asteroid's turn in the shot pass: it can only leave when some shot
   * hit it, and that shot is gone too, so every asteroid of the pass that
   * is gone still has a gone shot touching it.
   */
  lemma ShotLoss(rocks: map<Asteroid, Disc>, darts: map<Shot, Disc>, a: Asteroid, left: set<Shot>,
                 hits: set<Shot>, remaining: set<Shot>, before: set<Asteroid>, after: set<Asteroid>)
    requires a in rocks && hits == Hitting(rocks[a], darts, left) && remaining == left - hits
    requires rocks.Keys - before <= Shelled(rocks, darts, darts.Keys - left)
    requires after * rocks.Keys == before * rocks.Keys - if hits == {} then {} else {a}
    ensures rocks.Keys - after <= Shelled(rocks, darts, darts.Keys - remaining)
  {
    ShelledGrows(rocks, darts, darts.Keys - left, darts.Keys - remaining);
    if hits != {} {
      var s :| s in hits;
      assert s in darts.Keys - remaining;
      assert a in Shelled(rocks, darts, darts.Keys - remaining);
    }
    forall x | x in rocks.Keys - after
      ensures x in Shelled(rocks, darts, darts.Keys - remaining)
    {
      assert x !in after * rocks.Keys;
    }
  }

  /** More shots gone can only overlap more asteroids. */
  lemma ShelledGrows(rocks: map<Asteroid, Disc>, darts: map<Shot, Disc>, gone: set<Shot>, later: set<Shot>)
    requires gone <= later
    ensures Shelled(rocks, darts, gone) <= Shelled(rocks, darts, later)
  {
    forall a | a in Shelled(rocks, darts, gone)
      ensures a in Shelled(rocks, darts, later)
    {
      var s :| s in gone && s in darts && Overlap(darts[s], rocks[a]);
      assert s in later;
    }
  }

  /** The exploded bombs of `bs` and the centres of their blasts. */
  ghost function BlastSites(bs: set<Bomb>): map<Bomb, Vec2>
    reads bs
  {
    map b | b in bs && b.exploded :: b.position
  }

  /** The asteroids of `rocks` a blast at `centre` reaches. */
  function Reached(centre: Vec2, rocks: map<Asteroid, Disc>): set<Asteroid>
  {
    set a | a in rocks.Keys && BlastReaches(centre, rocks[a].centre, rocks[a].radius)
  }

  /** The asteroids of `rocks` the blast of some bomb of `done` among `sites` reaches. */
  function Wrecked(sites: map<Bomb, Vec2>, done: set<Bomb>, rocks: map<Asteroid, Disc>): set<Asteroid>
  {
    set a | a in rocks.Keys && exists b :: b in done && b in sites && BlastReaches(sites[b], rocks[a].centre, rocks[a].radius)
  }

  /** The asteroids of `s` inside the blast of some exploded bomb of `bs`. */
  ghost function Blasted(bs: set<Bomb>, s: set<Asteroid>): set<Asteroid>
    reads bs, s
  {
    Wrecked(BlastSites(bs), bs, RockDiscs(s))
  }

  /** One more bomb wrecks what its own blast reaches, if it has exploded. */
  lemma WreckedStep(sites: map<Bomb, Vec2>, done: set<Bomb>, bomb: Bomb, rocks: map<Asteroid, Disc>)
    ensures bomb in sites ==> Wrecked(sites, done + {bomb}, rocks) == Wrecked(sites, done, rocks) + Reached(sites[bomb], rocks)
    ensures bomb !in sites ==> Wrecked(sites, done + {bomb}, rocks) == Wrecked(sites, done, rocks)
  {
    forall a | a in rocks.Keys
      ensures a in Wrecked(sites, done + {bomb}, rocks) <==>
        a in Wrecked(sites, done, rocks) || (bomb in sites && a in Reached(sites[bomb], rocks))
    {
      if bomb in sites && a in Reached(sites[bomb], rocks) {
        assert bomb in done + {bomb};
      }
      if a in Wrecked(sites, done, rocks) {
        var b :| b in done && b in sites && BlastReaches(sites[b], rocks[a].centre, rocks[a].radius);
        assert b in done + {bomb};
      }
    }
  }

  /** The asteroids of `s` inside the bomb's blast. */
  ghost function Caught(bomb: Bomb, s: set<Asteroid>): set<Asteroid>
    reads bomb, s
  {
    set a | a in s && bomb.InBlast(a.position, a.radius)
  }

  /** The asteroids of `s` the ship's hull touches. */
  ghost function Rammed(p: Player, s: set<Asteroid>, rotate: Rotation): set<Asteroid>
    reads p, s
  {
    set a | a in s && p.Touches(a.position, a.radius, rotate)
  }

  /** The ship as `reset` leaves it at the screen centre. */
  ghost predicate Respawned(p: Player)
    reads p, p.bombInventory
  {
    p.position == ScreenCentre && p.velocity == Zero && p.rotation == 0.0 &&
    p.invulnerableTimer == RespawnInvulnerability && p.bombInventory.bombs == BombMaxCount
  }

  /** The power-ups of `s` the ship's hull touches. */
  ghost function Collected(p: Player, s: set<PowerUp>, rotate: Rotation): set<PowerUp>
    reads p, s
  {
    set q | q in s && p.Touches(q.position, q.radius, rotate)
  }

  /** Where each power-up of `s` is, as a value. */
  ghost function ItemDiscs(s: set<PowerUp>): map<PowerUp, Disc>
    reads s
  {
    map q | q in s :: Disc(q.position, q.radius)
  }

  /** `items` still records where each of its power-ups is. */
  ghost predicate ItemsAt(items: map<PowerUp, Disc>)
    reads items.Keys
  {
    forall q :: q in items ==> items[q] == Disc(q.position, q.radius)
  }

  /** The members of `pool` whose recorded circles meet the polygon `hull`. */
  function Touched<T>(hull: seq<Vec2>, discs: map<T, Disc>, pool: set<T>): set<T>
  {
    set x | x in pool && x in discs && PolygonHitsCircle(hull, discs[x].centre, discs[x].radius)
  }

  /** Visiting one more member adds it to the touched ones exactly when the hull meets its circle. */
  lemma TouchStep<T>(hull: seq<Vec2>, discs: map<T, Disc>, start: set<T>, pending: set<T>, x: T)
    requires x in pending && pending <= start && x in discs
    ensures Touched(hull, discs, start - (pending - {x})) ==
      Touched(hull, discs, start - pending) + if PolygonHitsCircle(hull, discs[x].centre, discs[x].radius) then {x} else {}
  {
  }

  /** Recorded where they are, the asteroids the hull meets are the ones the ship touches. */
  lemma TouchedIsRammed(hull: seq<Vec2>, rocks: map<Asteroid, Disc>, s: set<Asteroid>, p: Player, rotate: Rotation)
    requires hull == p.Triangle(rotate) && rocks == RockDiscs(s)
    ensures Touched(hull, rocks, s) == Rammed(p, s, rotate)
    ensures RocksAt(rocks) && rocks.Keys == s
  {
  }

  /** Recorded where they are, the grabbed power-ups are the ones the ship touches. */
  lemma TouchedIsCollected(hull: seq<Vec2>, items: map<PowerUp, Disc>, s: set<PowerUp>, p: Player, rotate: Rotation)
    requires hull == p.Triangle(rotate) && items == ItemDiscs(s)
    ensures Touched(hull, items, s) == Collected(p, s, rotate)
    ensures ItemsAt(items) && items.Keys == s
  {
  }

  /** The effects and the lent weapon once the power-ups of `kinds` are collected. */
  ghost predicate Boosted(pm: PowerUpManager, wm: WeaponManager, effects: map<PowerUpKind, real>,
                          lent: Option<WeaponType>, timer: real, kinds: set<PowerUpKind>)
    reads pm, wm
  {
    pm.activeEffects == effects + Boosts(kinds) &&
    (WeaponBoost !in kinds ==> wm.tempWeapon == lent && wm.tempWeaponTimer == timer) &&
    (WeaponBoost in kinds ==>
      wm.tempWeaponTimer == Duration(WeaponBoost) && wm.tempWeapon.Some? && wm.tempWeapon.value in BoostWeapons)
  }

  /** The kinds of the power-ups of `s`. */
  function KindsOf(s: set<PowerUp>): set<PowerUpKind>
  {
    set q | q in s :: q.kind
  }

  /** Every effect of `kinds` at its full duration. */
  function Boosts(kinds: set<PowerUpKind>): map<PowerUpKind, real>
  {
    map k | k in kinds :: Duration(k)
  }

  /** One more power-up adds its kind. */
  lemma KindsStep(s: set<PowerUp>, p: PowerUp)
    ensures KindsOf(s + {p}) == KindsOf(s) + {p.kind}
  {
  }

  /** Applying one more power-up refreshes its effect, whatever was collected before. */
  lemma BoostsStep(effects: map<PowerUpKind, real>, kinds: set<PowerUpKind>, kind: PowerUpKind)
    ensures (effects + Boosts(kinds))[kind := Duration(kind)] == effects + Boosts(kinds + {kind})
  {
  }

  /** After the power-up pass each kind collected has its full time, and no other effect changed. */
  lemma CollectedEffects(effects: map<PowerUpKind, real>, kinds: set<PowerUpKind>, kind: PowerUpKind)
    ensures kind in kinds ==> Remaining(effects + Boosts(kinds), kind) == Duration(kind)
    ensures kind !in kinds ==> Remaining(effects + Boosts(kinds), kind) == Remaining(effects, kind)
  {
  }

  /** `rocks` records where each of its asteroids is now. */
  ghost predicate RocksAt(rocks: map<Asteroid, Disc>)
    reads rocks.Keys
  {
    forall a :: a in rocks ==> rocks[a] == Disc(a.position, a.radius)
  }

  /** `sites` records exactly the exploded bombs of `bs` and where each is now. */
  ghost predicate SitesAt(sites: map<Bomb, Vec2>, bs: set<Bomb>)
    reads bs
  {
    sites.Keys <= bs &&
    forall b :: b in bs ==> (b in sites <==> b.exploded) && (b in sites ==> sites[b] == b.position)
  }

  /** The bombs of `bs` that have not exploded. */
  ghost function Unexploded(bs: set<Bomb>): set<Bomb>
    reads bs
  {
    set b | b in bs && !b.exploded
  }

  /** The records the bomb pass takes at its start describe the groups as they are. */
  lemma RecordsAt(s: set<Asteroid>, bs: set<Bomb>)
    ensures RocksAt(RockDiscs(s)) && RockDiscs(s).Keys == s
    ensures SitesAt(BlastSites(bs), bs) && bs - BlastSites(bs).Keys == Unexploded(bs)
  {
  }

  /** Moving one element from the pending part of a pass to the done part. */
  lemma Advance<T>(done: set<T>, pending: set<T>, x: T, all: set<T>)
    requires x in pending && done !! pending && done + pending == all
    ensures done + {x} !! pending - {x} && (done + {x}) + (pending - {x}) == all
  {
  }

  /** A bomb of `fired` leaves the group as its turn comes; the others stay. */
  lemma RetireStep<T>(all: set<T>, done: set<T>, fired: set<T>, x: T, before: set<T>, after: set<T>)
    requires before == all - done * fired
    requires after == if x in fired then before - {x} else before
    ensures after == all - (done + {x}) * fired
  {
  }

  /** The bomb's blast, seen through the asteroid discs: it catches the same asteroids. */
  lemma CaughtMatches(bomb: Bomb, s: set<Asteroid>, rocks: map<Asteroid, Disc>)
    requires RocksAt(rocks)
    ensures Caught(bomb, s) * rocks.Keys == Reached(bomb.position, rocks) * s
  {
    forall a | a in rocks.Keys
      ensures a in Caught(bomb, s) <==> a in Reached(bomb.position, rocks) && a in s
    {
      assert rocks[a] == Disc(a.position, a.radius);
    }
  }

  /**
   * Of `keep`, `wrecked` were gone before a blast; the blast removes those
   * it reaches among the ones still there, so afterwards exactly the ones
   * wrecked or reached are gone.
   */
  lemma BlastStep<T>(keep: set<T>, before: set<T>, after: set<T>, wrecked: set<T>, reach: set<T>, hit: set<T>)
    requires before * keep == keep - wrecked
    requires after * keep == before * keep - hit
    requires hit * keep == reach * before
    ensures after * keep == keep - (wrecked + reach)
  {
    forall x | x in keep
      ensures x in after <==> x !in wrecked && x !in reach
    {
      assert x in after * keep <==> x in before * keep - hit;
      assert x in before * keep <==> x in keep - wrecked;
      assert x in hit * keep <==> x in reach * before;
    }
  }

  /**
   * When a pass removes `removed` from what was left of `original` and
   * adds only other objects, the originals lost grow by at most |removed|.
   */
  lemma RemovedBound<T>(original: set<T>, before: set<T>, after: set<T>, removed: set<T>)
    requires after * original == before * original - removed
    ensures |original - after| <= |original - before| + |removed|
  {
    var lost := original - after;
    forall x | x in lost
      ensures x in (original - before) + removed
    {
      assert x !in after * original;
    }
    SubsetCardinality(lost, (original - before) + removed);
  }

  lemma SubsetCardinality<T>(a: set<T>, b: set<T>)
    requires a <= b
    ensures |a| <= |b|
  {
    assert b == a + (b - a);
  }
}
