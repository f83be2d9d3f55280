/** The values of constants.py that the modelled code reads. */
module Constants {

  const ScreenWidth: real := 1080.0
  const ScreenHeight: real := 600.0

  const PlayerRadius: real := 20.0
  const PlayerTurnSpeed: real := 300.0
  const PlayerAcceleration: real := 500.0
  const PlayerFriction: real := 0.5
  const PlayerSpeedBoostMultiplier: real := 1.8
  const PlayerAccelerationBoost: real := PlayerAcceleration * PlayerSpeedBoostMultiplier

  const AsteroidMinRadius: real := 20.0
  const AsteroidKinds: real := 3.0
  const AsteroidMaxRadius: real := AsteroidMinRadius * AsteroidKinds

  const ShotRadius: real := 5.0

  /** An RGB colour triple. */
  datatype Color = Color(r: int, g: int, b: int)

  const BombRadius: real := 12.0
  const BombFuseTime: real := 2.0
  const BombExplosionRadius: real := 150.0
  const BombMaxCount: nat := 3

  const PowerUpSpawnChance: real := 0.25
  const PowerUpRadius: real := 15.0

  const StarLayers: nat := 3
}
