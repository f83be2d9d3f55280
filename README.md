# Asteroids (Enhanced Edition) — a verified Dafny model

This project models the game logic of a pygame Asteroids clone. The ship is a
triangle. It carries four weapons, a bomb inventory and timed power-up effects.
It flies over a parallax starfield and meets asteroids that split into smaller
ones. A frame of play runs four collision passes in a fixed order:

1. bombs blow up asteroids;
2. the ship rams asteroids;
3. shots split asteroids;
4. the ship collects power-ups.

What the model keeps:

- **Geometry.** Floating point numbers are Dafny `real`s. `Vector2.rotate` is a
  function parameter of type `Rotation`, and `math.sin` one of type `Sine`.
  Every `distance_to(...) <= r` test is a comparison of squared lengths, and a
  lemma shows it agrees with the true distance.
- **Power-up bobbing.** `update` resets a power-up's height from its bob line
  `base_y` every frame, and `base_y` never wraps. So a power-up that drifts off
  the top or bottom edge is put back just beyond the opposite edge on every
  frame and stays there until it expires. The horizontal wrap lasts. The
  model keeps this behaviour.
- **Randomness.** Random draws come from a `Random` object that hands out a
  fixed stream of values in [0, 1).
- **Sprite groups.** A pygame sprite group is a `Group` holding a set of live
  sprites. Every loop over `list(group)` visits a snapshot of that set, one
  member at a time, in an unspecified order.

The modules follow the source files:

| module | source | what it holds |
|---|---|---|
| `Vectors` | pygame's `Vector2` | vector maths |
| `Constants` | constants.py | the game's constants |
| `Sprites` | pygame groups | the sprite group |
| `Randomness` | `random` | the draw stream |
| `Timers` | shared | countdown timers after a run of updates |
| `CircleShapes` | circleshape.py | collision geometry and the screen wrap |
| `Asteroids` | asteroid.py | asteroids |
| `Shots` | shot.py | shots |
| `Bombs` | bomb.py | bombs |
| `PowerUps` | powerup.py | power-ups |
| `Weapons` | weapons.py | weapons |
| `Players` | player.py | the ship |
| `Backgrounds` | background.py | the starfield |
| `Game` | main.py | the event loop and the frame |

Classes stand for the objects whose fields the game updates in place: each
entity, `BombInventory`, `PowerUpManager`, `WeaponManager`, `Player`,
`Background` and `GameLoop`. Pure tests are functions and predicates.

The source disagrees with itself in one place. main.py unpacks three
values, the position and the radius, from `asteroid.split()` at lines 212,
225 and 248. But `split` returns nothing (asteroid.py:21-36). The model
follows `split`: `Split` returns no values, only ghost names for the two
children. The collision passes read the asteroid's position themselves.

## Model

| member | source | states |
|---|---|---|
| Vectors.WithinDistanceIffDistance | circleshape.py:27-30 | The squared-length comparison holds exactly when the true distance is at most r, boundary included |
| Sprites.Group.constructor | main.py:91-97 | A new group is empty |
| Sprites.Group.Add | main.py:258-259 | Adding puts exactly that sprite in the group |
| Sprites.Group.Kill | asteroid.py:22 | `kill()` takes exactly that sprite out of the group |
| Sprites.Group.Empty | main.py:131-137 | `empty()` leaves the group with no members |
| Sprites.Killed | asteroid.py:22 | After `kill` the sprite is gone and every other member is still there |
| Sprites.KillIdempotent | asteroid.py:22 | Killing a sprite twice leaves the same group as killing it once |
| Randomness.Random.Next | powerup.py:145 | `random()` returns the next value of the stream, in [0, 1), and uses up one draw |
| Randomness.Random.Uniform | asteroid.py:34 | `uniform(lo, hi)` uses one draw and lands in [lo, hi] |
| Randomness.Random.Choice | player.py:232 | `choice(options)` uses one draw and returns an element of the options |
| Randomness.ChoiceIndex | player.py:232 | The index picked by a draw is always a valid position in the options |
| Timers.LapsesIffElapsed | shot.py:41-43 | A timer lowered by every update reaches 0 or less after some update exactly when the steps so far add up to its start value |
| Timers.CooldownSettles | bomb.py:96-99 | Once spent, a positive-only countdown never changes again |
| Timers.CooldownNeverRises | weapons.py:53-56 | With non-negative steps a positive-only countdown never rises |
| Timers.CooldownRunsOut | player.py:190-191 | With non-negative steps a positive-only countdown is spent once the steps add up to its start value |
| CircleShapes.CirclesCollideIffDistance | circleshape.py:27-30 | Two circles collide exactly when the centre distance is at most r1 + r2, so touching circles collide |
| CircleShapes.CirclesCollideSymmetric | circleshape.py:27-30 | The circle test gives the same answer with its arguments swapped |
| CircleShapes.CollidesWithSymmetric | circleshape.py:27-30 | `a.collides_with(b)` equals `b.collides_with(a)` |
| CircleShapes.PrevIndex | circleshape.py:60-68 | The ray-casting loop pairs each vertex with its predecessor, wrapping to the last vertex, and the index is always in range |
| CircleShapes.PointInPolygon | circleshape.py:55-70 | The answer is the parity of the edges that straddle the point's height strictly on one side and cross the rightward ray from the point |
| CircleShapes.HorizontalEdgeNeverCrosses | circleshape.py:65-66 | A horizontal edge never toggles the parity, so the division by yj - yi is never reached with a zero divisor |
| CircleShapes.EdgeCrossesRaySymmetric | circleshape.py:65-66 | Whether an edge crosses the ray does not depend on which end is listed first |
| CircleShapes.CrossingAbscissaSymmetric | circleshape.py:66 | The crossing abscissa is the same whether computed from one end or the other |
| CircleShapes.SquareExamples | circleshape.py:55-70 | On a 10 by 10 square the centre is inside, a point to the right is outside, the left edge counts as inside and the right edge as outside |
| CircleShapes.Clamp01 | circleshape.py:81 | The clamp `max(0, min(1, v))` lies in [0, 1], is v inside that range, 0 below it and 1 above it |
| CircleShapes.ClosestParameter | circleshape.py:81 | The projection parameter is clamped into [0, 1], so the point lies on the segment |
| CircleShapes.ClosestPointOnSegment | circleshape.py:72-82 | A zero-length segment gives `seg_start`; otherwise the result is `seg_start + t·(seg_end − seg_start)` for the clamped parameter t |
| CircleShapes.ZeroLengthSegment | circleshape.py:77-78 | A segment has zero length exactly when its ends coincide, and every point along it is then `seg_start` |
| CircleShapes.ClosestPointIsClosest | circleshape.py:72-82 | No point of the segment is closer to the given point than the one returned |
| CircleShapes.PolygonCollidesCircle | circleshape.py:97-136 | True exactly when the centre is inside the polygon or the closest point of some edge is within the radius, inclusive |
| CircleShapes.CircleShape.CollidesWithPolygon | circleshape.py:32-53 | The method's answer is the same condition: centre inside, or some edge within the radius |
| CircleShapes.CircleTestsAgree | circleshape.py:32-136 | The method and the module-level function that duplicates it agree on every polygon and circle |
| CircleShapes.TriangleAxes | circleshape.py:144-153 | A triangle yields one axis per edge |
| CircleShapes.GetAxes | circleshape.py:144-153 | The loop builds the perpendicular of each edge in turn, and (1, 0) for an edge of zero length |
| CircleShapes.Dots | circleshape.py:157 | The projections are the dot products of the vertices with the axis, one per vertex |
| CircleShapes.MinOf | circleshape.py:158 | `min(dots)` is one of the values and no value is smaller |
| CircleShapes.MaxOf | circleshape.py:158 | `max(dots)` is one of the values and no value is larger |
| CircleShapes.TrianglesIntersect | circleshape.py:139-173 | False exactly when one of the six edge axes shows disjoint intervals under the inclusive overlap test |
| CircleShapes.TrianglesOverlapSymmetric | circleshape.py:139-173 | Swapping the two triangles never changes the answer |
| CircleShapes.SharedVertexOverlaps | circleshape.py:160-173 | The test is inclusive: two triangles that share a vertex always intersect |
| CircleShapes.CornerTouchIntersects | circleshape.py:160-173 | Two triangles that meet only at one corner intersect |
| CircleShapes.CircleShape.constructor | circleshape.py:11-19 | A body starts at (x, y) at rest with the given radius |
| CircleShapes.CircleShape.WrapScreen | circleshape.py:84-94 | Each axis wraps on its own: beyond a radius past either edge the body jumps to a radius past the opposite edge |
| CircleShapes.WrapLandsInArena | circleshape.py:84-94 | After the wrap the position lies in [−r, W+r]×[−r, H+r] |
| CircleShapes.WrapFixesArena | circleshape.py:84-94 | The wrap leaves a position unchanged exactly when it is already inside that margin |
| CircleShapes.WrapIdempotent | circleshape.py:84-94 | Wrapping twice is the same as wrapping once |
| CircleShapes.WrapDropsOvershoot | circleshape.py:88-89 | Leaving past the right margin lands exactly on the left margin, whatever the overshoot |
| Asteroids.Asteroid.constructor | asteroid.py:10-11 | A new asteroid is at rest at (x, y) with the given radius and joins the asteroid group |
| Asteroids.Asteroid.Update | asteroid.py:16-18 | The position moves by velocity·dt and is then wrapped; the velocity is not touched |
| Asteroids.Asteroid.Split | asteroid.py:21-36 | The asteroid always leaves its group. At radius 20 or less nothing else happens. Above it, one draw a in [20, 50] gives two new asteroids at its position, of radius r − 20, with its velocity rotated by +a and −a |
| Asteroids.Asteroid.CreateSplitAsteroid | asteroid.py:27-32 | A new asteroid joins the group at the parent's position, with radius r − 20 and the rotated velocity |
| Asteroids.Angle | asteroid.py:34 | The split angle drawn by `uniform(20, 50)` lies in [20, 50] |
| Asteroids.ChildRadius | asteroid.py:23-29 | There are no children exactly when r ≤ 20; otherwise the child radius r − 20 is positive and smaller than r |
| Asteroids.GenerationsBound | asteroid.py:23-29 | Every chain of splits from a finite radius stops: after Generations(r) steps of 20 the radius is at most 20, and one step earlier it was still above 20 |
| Asteroids.LargestAsteroidGenerations | constants.py:7-10 | An asteroid of the largest radius, 60, splits through exactly two generations |
| Shots.Shot.constructor | shot.py:12-16 | A new shot carries the given radius, colour and damage, has lifetime 3 and joins the shot group |
| Shots.Shot.Update | shot.py:35-43 | The shot moves by velocity·dt and is wrapped, loses exactly dt of lifetime, and leaves its group in the update that takes the lifetime to 0 or below |
| Bombs.Bomb.constructor | bomb.py:22-27 | A new bomb has a full fuse of 2 seconds, has not exploded and joins the bomb group |
| Bombs.Bomb.Update | bomb.py:34-52 | The velocity is damped by (1 − 0.5·dt), the bomb moves by the new velocity and wraps, the fuse loses dt, and `exploded` becomes true once the fuse is spent and is never cleared |
| Bombs.BlastReachesIffDistance | bomb.py:82-85 | An asteroid is in the blast exactly when the centre distance is at most 150 plus its radius, inclusive |
| Bombs.SpentFuseIsDetonating | bomb.py:29-32 | `is_detonating` holds exactly when the fuse is at 0.2 or less, so a spent fuse is always detonating |
| Bombs.FuseBurnsDown | bomb.py:44-52 | A fresh bomb has exploded after a run of updates exactly when the steps so far have added up to 2 seconds |
| Bombs.BombInventory.constructor | bomb.py:91-94 | The inventory starts full, with no drop cooldown |
| Bombs.BombInventory.Update | bomb.py:96-99 | The drop cooldown is lowered only while positive |
| Bombs.BombInventory.Drop | bomb.py:101-122 | The drop is refused exactly when `can_drop` fails (bombs > 0 and cooldown ≤ 0), and then nothing changes. A successful drop makes one bomb fewer and a 0.5 s cooldown, and creates a new bomb at the ship's position with half the ship's velocity plus the backward throw. 0 ≤ bombs ≤ max is kept |
| Bombs.BombInventory.AddBomb | bomb.py:124-126 | One more bomb, capped at the maximum; 0 ≤ bombs ≤ max is kept |
| Bombs.BombInventory.Reset | bomb.py:128-130 | The inventory is refilled to the maximum |
| PowerUps.Duration | constants.py:105-125 | Every power-up kind has a positive duration (5, 8 and 10 seconds) |
| PowerUps.PowerUp.constructor | powerup.py:27-34 | A new power-up is at (x, y) with lifetime 15 and its bob centred on y. Its phase is 6.28·u for one draw u, and it joins the power-up group |
| PowerUps.PowerUp.Update | powerup.py:52-70 | The phase gains 1.5·dt. The height is reset to the bob line plus 5·sin(phase), both drift by velocity·dt, and the position wraps. The lifetime loses exactly dt, and the power-up leaves its group in the update where it reaches 0 or below |
| PowerUps.FloatedForgetsHeight | powerup.py:58-65 | After an update the position does not depend on the previous height, so a vertical wrap from the update before is undone |
| PowerUps.FloatedParksOffScreen | powerup.py:58-65 | While the bobbed height lies beyond the bottom margin, every update puts the power-up at −radius; beyond the top margin, at SCREEN_HEIGHT + radius |
| PowerUps.PowerUpManager.constructor | powerup.py:105-106 | No effect is active at first |
| PowerUps.PowerUpManager.Apply | powerup.py:108-110 | The effect's time is set to exactly the duration, replacing any earlier value; other effects are untouched |
| PowerUps.PowerUpManager.Update | powerup.py:112-121 | The decrement loop followed by the deletion loop leaves exactly the timers of `Ticked` |
| PowerUps.Ticked | powerup.py:112-121 | After an update an effect is still present exactly when it had more than dt left, and then it holds its old time minus dt, which is positive |
| PowerUps.TickedLeavesPositive | powerup.py:112-129 | After an update every remaining effect reports positive time, and a removed one reports 0 from `get_remaining` |
| PowerUps.ApplyReplaces | powerup.py:108-110 | `get_remaining` of the applied kind is the duration; other kinds keep both their presence and their time |
| PowerUps.SpawnKind | powerup.py:145-157 | Nothing spawns exactly when the first draw exceeds 0.25. Otherwise the second draw r gives shield for r < 0.4, speed for 0.4 ≤ r < 0.8 and weapon for r ≥ 0.8 |
| PowerUps.MaybeSpawnPowerUp | powerup.py:140-165 | Returns nothing exactly when the first draw exceeds 0.25, using one draw. Otherwise it creates a power-up of `SpawnKind`'s type at (x, y) with lifetime 15 and its bob centred on y, using five draws. The third draw gives the phase, and the fourth and fifth give the drift −20 + 40·u on each axis, which lies in [−20, 20] |
| Weapons.Config | constants.py:47-85 | Every weapon fires at least one shot with a positive cooldown and speed, and only the spread weapon fires more than one |
| Weapons.SpreadEvenlySpaced | weapons.py:83-88 | In a fan of n > 1 shots, neighbouring angle offsets differ by exactly the spread angle |
| Weapons.SpreadSymmetric | weapons.py:83-88 | The i-th and the (n−1−i)-th offsets cancel, so the fan is symmetric about the facing direction |
| Weapons.SpreadFan | constants.py:57-65 | The spread weapon fans its three shots at −15, 0 and +15 degrees |
| Weapons.Weapon.constructor | weapons.py:20-23 | A weapon starts ready to fire |
| Weapons.Weapon.Update | weapons.py:53-56 | The cooldown is lowered by dt only while positive |
| Weapons.Weapon.Fire | weapons.py:58-92 | While cooling down it returns no shots and changes nothing. Otherwise the cooldown restarts at the configured value and exactly `shot_count` distinct new shots join the group, the i-th flying along its fan direction |
| Weapons.Weapon.FireSpread | weapons.py:81-90 | Builds `shot_count` distinct new shots, each with its fan offset, all added to the group |
| Weapons.Weapon.CreateShot | weapons.py:94-99 | A new shot at the position, with the configured size (default 5), colour and damage, and velocity direction·`shot_speed` |
| Weapons.Cycled | weapons.py:145 | Python's modulo keeps the cycled index within the list |
| Weapons.WeaponManager.constructor | weapons.py:105-115 | The inventory is [STANDARD] with index 0, no temporary weapon and all four weapons ready |
| Weapons.WeaponManager.CurrentWeapon | weapons.py:117-123 | The current weapon is the object of the current type |
| Weapons.WeaponManager.CurrentType | weapons.py:117-123 | While a temporary weapon is set it is current, whatever the index; otherwise the current type is an unlocked one |
| Weapons.WeaponManager.Update | weapons.py:125-133 | Every weapon's cooldown runs down. The temporary timer is lowered only while positive, and the temporary weapon is cleared in the update that spends it. The inventory invariant (starts with STANDARD, no duplicates, index in range) is kept |
| Weapons.WeaponManager.SwitchWeapon | weapons.py:135-140 | Returns true and moves the index exactly when the index is in range; otherwise nothing changes |
| Weapons.WeaponManager.CycleWeapon | weapons.py:142-145 | With more than one weapon the index steps modulo the list length; otherwise it stays |
| Weapons.WeaponManager.UnlockWeapon | weapons.py:147-150 | A missing weapon is appended and a present one changes nothing, so the list never holds duplicates |
| Weapons.WeaponManager.SetTemporaryWeapon | weapons.py:152-155 | The temporary weapon and its timer are set to the given ones |
| Weapons.WeaponManager.Fire | weapons.py:157-159 | Fires the current weapon. While it cools down: no shots, and neither its cooldown nor the group changes. Otherwise its cooldown restarts and exactly `shot_count` fresh, distinct shots join the group, the i-th at the given position along the i-th direction of the fan |
| Players.HullSymmetric | player.py:38-45 | The two base corners of the hull lie symmetric about the line from the centre through the tip |
| Players.Hull | player.py:38-45 | The hull is a triangle |
| Players.Acceleration | player.py:158-162 | The thrust acceleration is 900 under the speed boost and 500 otherwise |
| Players.Player.constructor | player.py:24-35 | The ship starts at (x, y) at rest, facing rotation 0, not invulnerable, with STANDARD only, a full bomb inventory and no effects |
| Players.Player.Triangle | player.py:38-45 | The hull has three vertices: the tip at position + forward·r and the base corners at position − forward·r ∓ right |
| Players.Player.CollidesWith | player.py:47-55 | The ship touches a circle exactly when the circle–polygon test holds for its hull |
| Players.Player.Move | player.py:155-164 | The velocity gains forward·accel·dt·direction, with the boosted acceleration while the speed effect is active |
| Players.Player.Update | player.py:166-196 | Turns and thrusts for the keys held and runs down the weapon, bomb and effect timers. The invulnerability timer drops only while positive. Then friction (1 − 0.5·dt), movement by the new velocity and the wrap. The inventories are unchanged. Every weapon's cooldown runs down, and the lent weapon goes when its timer runs out |
| Players.Player.Steer | player.py:170-182 | Each turn key adds ∓300·dt to the rotation; W thrusts forward and S at −0.5 strength; `is_thrusting` is the forward key |
| Players.Player.UpdateSystems | player.py:185-187 | Each system's timers run down: every weapon's cooldown, the lent weapon's timer, the drop cooldown and the effects. The lent weapon goes when its timer runs out. The bombs, the unlocked weapons and the selection do not change |
| Players.Player.Drift | player.py:189-196 | The invulnerability timer drops by dt only while positive; the velocity is scaled by 1 − 0.5·dt, and the ship moves by the new velocity times dt and wraps |
| Players.Player.Shoot | player.py:198-200 | Fires the current weapon from the ship. While it cools down: no shots, and nothing changes. Otherwise its cooldown restarts and exactly `shot_count` fresh, distinct shots join the group, each at the ship's position, along the fan about the ship's facing |
| Players.Player.DropBomb | player.py:202-208 | A bomb drops exactly when the inventory allows it. A refusal changes neither the bombs, the drop cooldown nor the group. A drop costs one bomb and sets the drop cooldown to 0.5. The new bomb is at the ship's position, moves at half the ship's velocity plus the backward push, has a fuse of 2, is not exploded and joins the group |
| Players.Player.SwitchWeapon | player.py:210-221 | For an index 0–3 that weapon is unlocked and selected (the membership test always passes after the unlock); any other index changes nothing |
| Players.Player.ApplyPowerUp | player.py:223-233 | The effect starts with its full duration. A weapon power-up also lends, for the same duration, the better weapon picked by one draw; other kinds use no draw |
| Players.Player.Reset | player.py:239-245 | The ship is back at (x, y) at rest, rotation 0, invulnerable for 3 seconds, with a full bomb inventory |
| Players.Unlocked | weapons.py:147-150 | After the unlock the weapon is available and nothing else was added |
| Players.IndexOf | player.py:220 | `list.index` returns the first position holding the value |
| Backgrounds.Star.constructor | background.py:21-23 | A star starts at (x, y) on its layer |
| Backgrounds.Star.UpdateParallax | background.py:35-49 | The star shifts by −delta·speed on each axis, then each axis wraps back by at most one screen size |
| Backgrounds.WrapStarCoordCases | background.py:41-49 | Below 0 a coordinate gains the screen size, above it loses the size, and otherwise it is unchanged |
| Backgrounds.WrapStarCoordInRange | background.py:37-49 | A coordinate in [0, size] shifted by at most size wraps back into [0, size] |
| Backgrounds.ParallaxKeepsOnScreen | background.py:37-49 | A star on screen stays on screen when each axis shifts by at most a screen size |
| Backgrounds.BackgroundKeepsStarsOnScreen | background.py:114-115 | With layer speeds below 1, a camera move of at most a screen size keeps every star on screen |
| Backgrounds.Background.constructor | background.py:58-61 | The clock starts at 0 and the camera at the screen centre |
| Backgrounds.Background.Update | background.py:104-115 | The clock always gains dt. Without a ship position nothing else changes. With one, every star moves against the camera's motion at its own layer's speed, and the camera moves to the ship |
| Game.NextState | main.py:119-167 | The state changes only on ENTER in the menu (to playing) and on R after game over (to the menu); in play no event changes it |
| Game.GameLoop.constructor | main.py:90-117 | The game starts on the menu with score 0, 3 lives, no ship and empty groups |
| Game.GameLoop.HandleEvent | main.py:120-167 | QUIT ends the loop. Every other event moves the state by `NextState`. ENTER on the menu starts a game with score 0, 3 lives, empty groups and a new ship at rest at the centre. No other event changes the score, the lives, the asteroids or the power-ups, and the ship object stays the same |
| Game.GameLoop.StartGame | main.py:124-140 | A new game: playing, score 0, 3 lives, every group empty, a new ship at the centre |
| Game.GameLoop.PlayKey | main.py:143-162 | Only SPACE can add shots and only B can add bombs |
| Game.GameLoop.UpdateAsteroids | main.py:198 | Every asteroid moves and wraps |
| Game.GameLoop.UpdateShots | main.py:198 | Every shot moves, wraps and ages by dt, and exactly the expired ones leave |
| Game.GameLoop.UpdatePowerUps | main.py:198 | Every power-up bobs, drifts, wraps and ages by dt as `PowerUp.Update` states, and exactly the expired ones leave |
| Game.GameLoop.UpdateBombs | main.py:198 | Every bomb slows, moves, wraps and burns its fuse, and is marked exploded once the fuse is spent |
| Game.GameLoop.Shatter | main.py:212 | The split asteroid leaves and no other asteroid leaves. At radius 20 or less nothing joins and no draw is used. Above it, one draw is used and exactly two new, distinct asteroids join, none of them from `keep`, at its position with radius 20 less, moving at its velocity turned by plus and minus the drawn angle |
| Game.GameLoop.Detonate | main.py:202-218 | The snapshot's asteroids inside the blast are split for 15 points each, the others stay, and the bomb leaves its group. The group afterwards is the snapshot less the caught asteroids plus two children for each caught asteroid above radius 20, none of them from the snapshot |
| Game.GameLoop.Blast | main.py:209-216 | The loop over the snapshot of Detonate: the caught asteroids are exactly those of the snapshot inside the blast, worth 15 each, and the group ends as the snapshot less them plus two new children for each caught one above radius 20 |
| Game.GameLoop.BlastOne | main.py:210-216 | One asteroid of the blast loop: it is split for 15 points exactly when it lies inside the blast, and the caught set, the score and the group with its new children stay in step with the asteroids visited |
| Game.GameLoop.BombSweep | main.py:200-218 | Exactly the exploded bombs leave. An asteroid of the snapshot is gone exactly when it lies inside the blast of an exploded bomb. The score grows by 15 per split, at least 15 for every asteroid destroyed |
| Game.GameLoop.SweepBomb | main.py:201-218 | One step of the bomb pass: afterwards the asteroids gone are exactly those wrecked by the exploded bombs visited so far |
| Game.GameLoop.BlastBomb | main.py:202-218 | An exploded bomb, checked against the group as it is at that bomb's turn (line 210 takes a new snapshot, so it includes the children of earlier blasts), with those asteroids where they stood at the start of the pass: the ones caught are split for 15 points each and the bomb leaves |
| Game.GameLoop.ShieldMeet | main.py:222-228 | With the shield up, an asteroid touched by the hull is split for 5 points, its children joining as `Shatter` states; an untouched one changes nothing |
| Game.GameLoop.HullMeet | main.py:230-241 | Without the shield, a touch after the respawn grace costs a life. On the last life the game is over and the ship stays where it is; otherwise the ship respawns at the centre. A touch during the grace changes nothing |
| Game.GameLoop.PlayerSweep | main.py:220-241 | Shielded: every asteroid the hull touches splits for 5 points. Unshielded and past the grace with lives left: one life is lost and the ship respawns, and the new grace spares it the rest of the pass. On the last life every touching asteroid costs a life, so lives can fall below zero. The score never falls and lives never rise |
| Game.GameLoop.ShieldSweep | main.py:221-229 | Every asteroid of the snapshot the hull touches is split, for 5 points each; the rest stay. The group afterwards is the snapshot less the touched asteroids plus two children for each touched one above radius 20, none of them from the snapshot |
| Game.GameLoop.ShieldPass | main.py:221-229 | The loop of ShieldSweep: the asteroids split are exactly those of the snapshot whose recorded circle the hull meets, 5 points each, and the group ends as the snapshot less them plus two new children for each above radius 20 |
| Game.GameLoop.ShieldOne | main.py:222-228 | One shielded step: the touched set, the score and the asteroid group with its new children stay in step with the asteroids visited |
| Game.GameLoop.HullSweep | main.py:221-241 | With no grace and at least one touch: on the last life, one life lost per touching asteroid and game over; otherwise one life lost and a respawn. No touch, or grace: nothing changes |
| Game.GameLoop.ShotHit | main.py:246-259 | A hit splits the asteroid, its children joining as `Shatter` states, spends the shot, scores 10 and may drop a power-up; no other asteroid leaves and no power-up is lost |
| Game.GameLoop.ShotsHit | main.py:245-259 | Every remaining shot touching the asteroid is spent for 10 points, with no `break`, so one asteroid is split once per overlapping shot; the asteroid leaves if any shot hit it. Each hit adds two new asteroids when it is above radius 20, so 2·(hits) join in all, none of them from the group before |
| Game.GameLoop.Volley | main.py:245-259 | The inner loop of ShotsHit over the snapshot of the shots: the spent shots are exactly the given touching ones, 10 points each, and the asteroid group ends as before less the asteroid (if hit) plus two new children per hit above radius 20 |
| Game.GameLoop.StrikeOne | main.py:246-259 | One shot of the inner loop: it is spent for 10 points exactly when it touches the asteroid, and the spent shots, the score and the asteroid group with its new children stay in step |
| Game.GameLoop.SweepAsteroid | main.py:245-259 | One asteroid of the outer loop against the shots still alive, where they stood at the start of the pass |
| Game.GameLoop.ShotSweep | main.py:243-259 | The spent shots are exactly those of the snapshot touching some asteroid of the snapshot. Each is removed and scores 10 once. Every asteroid that is gone was touched by a spent shot. Power-ups only join |
| Game.GameLoop.Collect | main.py:263-267 | A power-up the hull touches is applied, removed and worth 25. A weapon power-up also lends one of the better weapons. An untouched one changes nothing |
| Game.GameLoop.PowerUpSweep | main.py:261-267 | Exactly the power-ups the hull touches are collected and removed, for 25 each. Each collected kind's effect restarts at its full duration, and a collected weapon power-up lends a better weapon for its duration |
| Game.GameLoop.CollectOne | main.py:262-267 | One step of the power-up pass: the collected set, the score and the effects stay in step |
| Game.GameLoop.Frame | main.py:169-267 | The starfield clock always advances. Outside play nothing else changes. In play the sprites update and the four passes run; the game stays in play or ends, the score never falls and lives never rise |
| Game.GameLoop.PlayFrame | main.py:196-267 | The in-play frame keeps the game well formed: the score never falls and lives never rise |
| Game.GameLoop.UpdateBackground | main.py:169-173 | The starfield follows the ship when there is one; its clock always advances by dt |
| Game.GameLoop.UpdateSprites | main.py:198 | The sprite updates keep the ship's systems well formed |
| Game.GameLoop.UpdateShip | main.py:198 | The ship's own update keeps its systems well formed |
| Game.GameLoop.Collide | main.py:200-267 | The four passes in order (bombs, ship, shots, power-ups) only gain points and only lose lives |
| Game.GameLoop.BlastAndRam | main.py:200-241 | The bomb pass and then the ship pass: points only gained, lives only lost |
| Game.GameLoop.ShootAndCollect | main.py:243-267 | The shot pass and then the power-up pass only gain points |
| Game.SpentStep | main.py:244-250 | The next asteroid of the shot pass uses up exactly the shots still alive that overlap it, so no shot is used twice and the count adds up |
| Game.HitByMatches | main.py:245-246 | The shots hitting an asteroid, judged on the recorded positions, are the ones `collides_with` finds |
| Game.ShotLoss | main.py:244-250 | Every asteroid lost so far in the shot pass was touched by a shot already spent |
| Game.ShelledGrows | main.py:244-250 | Spending more shots can only add to the asteroids they account for |
| Game.WreckedStep | main.py:209-216 | One more bomb adds exactly what its own blast reaches, and only if it has exploded |
| Game.KidsFacts | asteroid.py:21-36 | One split replaces the asteroid in the group by its children: two distinct ones, none of `keep`, above radius 20, and none at or below it |
| Game.DebrisStep | main.py:210-216 | One more split asteroid of a pass keeps the count: two children for each split asteroid able to split, none of them from the snapshot |
| Game.CaughtMatches | main.py:210-211 | The asteroids inside a blast, judged on the recorded positions, are the ones `check_asteroid_in_blast` finds |
| Game.BlastStep | main.py:209-216 | After one more blast, an asteroid of the snapshot remains exactly when no blast so far reached it |
| Game.RemovedBound | main.py:209-216 | The asteroids of the snapshot lost are bounded by those removed step by step |
| Game.TouchedIsRammed | main.py:221-224 | The asteroids the hull meets on the recorded positions are the ones `collides_with` finds |
| Game.TouchedIsCollected | main.py:262-263 | The power-ups the hull meets on the recorded positions are the ones `collides_with` finds |
| Game.CollectedEffects | main.py:265 | After the pass, a collected kind reports its full duration and any other kind its old time |
| Game.KindsStep | main.py:262-265 | Collecting one more power-up adds its kind to the kinds collected |
| Game.BoostsStep | main.py:265 | Applying one more kind gives the same effects as applying the enlarged set of kinds at once |

## Left out

- Rendering is not modelled: every `draw` and `_draw_*` method, the HUD and the menu and game-over text. Nothing in play reads them.
- The pygame runtime is not modelled: display, clock, event polling and `pygame.key.get_pressed()`. Events arrive as `Event` values, the keys held as a `Keys` value and dt as a parameter.
- explosion.py is not part of this model: it is a visual effect that game state never reads. The `create_explosion` calls and the `explosions` group in main.py are omitted with it.
- logger.py and asteroidfield.py are not part of this model. Log calls only write output, and asteroid spawning lives in the asteroid field.
- The `updatable` and `drawable` groups are not kept. `updatable.update(dt)` is modelled as the ship's update followed by each kind's group update.
- Sprite group order is not kept: groups are sets, and every loop over a snapshot visits its members in an unspecified order.
- `Vector2.rotate`, `normalize`, `length` and `distance_to` use trigonometry and square roots. Rotation is a function parameter, and distance tests use squared lengths. The axes of the separating-axis test are not normalised: a positive scale factor changes no overlap decision, but this scaling argument is not proved.
- Floating point rounding is not modelled; every quantity is a Dafny `real`.
- `math.sin` is an input: power-up bobbing takes it as a function parameter. `glow_phase` only feeds the drawing and is not kept.
- Star brightness and twinkle, random star placement and the gradient surface are not modelled. The stars are a constructor argument.
- `random.choice(options)` is modelled as the option at position floor(u·n) for the next draw u.
- `Bomb.blink_phase` and `Player.thrust_flicker` only feed the drawing and are not kept.
- `split` returns nothing, yet main.py unpacks three values from it at lines 212, 225 and 248. In Python that unpacking raises a TypeError. The model's passes do not use a return value. The power-up drop after a shot hit is placed at the asteroid's position, which is where `split` would have reported it.
- Game.GameLoop.BombSweep: does not state how many asteroids the splits add; `Detonate` does. The same holds for PlayerSweep, whose `ShieldSweep` does, and ShotSweep, whose `ShotsHit` does.
- Game.GameLoop.Detonate: states how many children join and that none was in the group before, but not that each is freshly allocated or where it is; `Shatter` states those for each split. The same holds for Game.GameLoop.Blast, Game.GameLoop.ShieldSweep, Game.GameLoop.ShieldPass, Game.GameLoop.ShotsHit and Game.GameLoop.Volley.
- Game.GameLoop.ShotHit: does not restate where a dropped power-up appears or what it is; `MaybeSpawnPowerUp` states that.
- Game.GameLoop.PlayerSweep: makes the shield test once per pass instead of once per asteroid. Nothing in the pass changes the power-up effects, so every test gives the same answer.
- Game.GameLoop.Frame: states only the state change, the score and lives bounds and the clock, not each pass's effect; the passes' own contracts state those.
- Game.GameLoop.PlayFrame: states only that the game stays well formed, the score never falls and lives never rise. Game.GameLoop.Collide, Game.GameLoop.BlastAndRam and Game.GameLoop.ShootAndCollect state the same bounds for their passes.
- Game.GameLoop.UpdateSprites: states only that the ship's systems stay well formed, and so does Game.GameLoop.UpdateShip. Game.GameLoop.UpdateGroups, the group half of `updatable.update(dt)` at main.py:198, carries no contract of its own. `Player.Update` and the four group updates state each sprite's new state.
- Game.GameLoop.PlayKey: does not restate the effect of each key on the ship; `Player.Shoot`, `Player.SwitchWeapon` and `Player.DropBomb` state those.
- Weapons.Weapon.FireSpread: requires a weapon with more than one shot, since the single-shot case of `fire` does not use the spread loop.
