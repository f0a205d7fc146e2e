/** The game scene's tuning constants and the fixed geometry of its pillars. */
module Tuning {

  /** How far left of its start the world node is placed when the scene appears. */
  const InitialScroll: real := 500.0

  /** Scroll progression: starting speed and the increase added every frame. */
  const InitialScrollSpeed: real := 2.0
  const ScrollAcceleration: real := 0.002

  /** Jump-power progression: starting multiplier, per-frame increase and cap. */
  const InitialJumpPower: real := 1.0
  const JumpPowerIncreaseRate: real := 0.0008
  const MaxJumpPowerMultiplier: real := 1.4

  /** The charge window, in seconds: shorter holds count as the minimum, longer as the maximum. */
  const MinChargeDuration: real := 0.05
  const MaxChargeDuration: real := 0.8

  /** The pillar pool: how many, how far apart when laid out, and each pillar's size and height. */
  const PillarCount: nat := 5
  const PillarSpacing: real := 180.0
  const PillarWidth: real := 80.0
  const PillarHeight: real := 300.0
  const PillarBaseY: real := 150.0

  /** How far above a pillar's top the wallaby counts as standing on the ground. */
  const GroundClearance: real := 40.0

  /** The wallaby's horizontal spawn position in world coordinates. */
  const WallabySpawnX: real := InitialScroll + 280.0
}
