/** The tuning constants of AIPlayerController, derived from the player's 40 x 40
    size and the 512 x 800 screen exactly as its constructor derives them. */
module AIConstants {
  import opened Common

  const PlayerWidth: real := 40.0
  const PlayerHeight: real := 40.0

  /** Y the pilot keeps near the bottom of the screen: 800 * 0.92 - 20 = 716. */
  const PreferredY: real := ScreenHeight * 0.92 - PlayerHeight / 2.0
  const YTolerance: real := 5.0

  /** Horizon of bullet threats and of every tactical move's safety check. */
  const ReactionWindow: real := 1.5
  const ImmediateDodgeThreshold: real := 0.028
  const XDetectionBuffer: real := 10.0

  const SafeYAbove: real := PlayerHeight * 1.2
  const SafeYBelow: real := PlayerHeight * 0.8
  const StrategicDodgeDistance: real := PlayerWidth * 0.85

  const SafeZoneRadius: real := 80.0
  const IdleHorizon: real := 0.4
  const RepositionShift: real := PlayerWidth * 0.4
  const FiringRadius: real := 80.0

  const AlignmentToleranceFactor: real := 0.75
  const ProximityThreshold: real := 55.0

  /** Milliseconds. */
  const PostShotPauseMs: int := 1
  const ShootCooldownMs: int := 20
  const ShotExpiryMs: int := 150
}
