# Space shooter autopilot and game rules, in Dafny

This project models the core of a JavaFX space-shooter game: a player ship at the bottom of a 512 x 800 screen shoots at enemies coming down from the top, catches power-ups and fights bosses over three waves. The model covers four parts of the game:

- **The autopilot.** `AIPlayerController.updateAI` decides each frame how the ship moves and whether it fires. It uses an argmin over threatening enemy bullets, a sampled "is this zone clear" oracle, a tiered strategic dodge (ideal, panic, micro, teleport), enemy-hull dodging, target selection and alignment, a fire cooldown with a memory of recently shot enemies, power-up chasing and random drift.
- **The game rules of `SpaceShooter`.** These are the difficulty curve, the enemy and power-up spawn timers, and the wave and boss state machine (one boss at 150 points, two at 450, then a stationary boss, then three final bosses at 900). They also include the life and score bookkeeping of the collision pass, the penalties for enemies that escape the screen, the sweep of dead objects, and the restart.
- **`Bullet`**, the player's shot.
- **`EnemyBullet`**, the enemies' shot.

How the model is built:

- **Classes and pure functions.** Each Java class whose fields change in place is a Dafny `class` with those fields: `Player`, `AIPlayerController`, `SpaceShooter`, `Bullet` and `EnemyBullet`. Each has a `State()` function that gathers its fields into a value. Every method is proved to leave `State()` equal to a pure function of the old state. These functions are `Pilot.Tick` and its parts for the autopilot, and the functions of `Waves`, `Collisions` and `Cleanup` for the game rules. The properties the game promises are proved as lemmas about those functions.
- **Game objects.** Game objects are values (`Entities.Entity`) with an id standing for Java object identity. `stationaryBossInstance` is the id of the stationary boss, and "is it dead" asks whether a live object with that id is still on one of the two lists. The player is kept apart from the object list.
- **The autopilot's snapshot.** The autopilot reads a snapshot of the objects (`gameObjectsView`).
- **Outside inputs as parameters.** Each outside input is a parameter of the operation that uses it:
  - the clock (`now`, in milliseconds, read once per tick);
  - every random draw (`rand`, `typeChoice`, `roll`, `coin`);
  - the square-root distance of `getDistance` (`dist`);
  - the player's life count.
- **Numbers.** Java `double` is modelled as `real`. Java `int` division is `Common.JavaDiv`, which truncates toward zero.
- **Shared argmin.** All of the autopilot's argmin and argmax scans keep the first strictly better candidate. They are one function, `Selection.FirstMin`, over a sequence of optional costs. An argmax negates its scores.

Facts about the code that the model follows:

- **Boss hit box.** A boss's hit box is 30 x 30. `BossEnemy` declares a 50-pixel `WIDTH`, but it inherits `getWidth`/`getHeight` from `Enemy`, which return 30.
- **Unreachable firing branch.** In `updateAI`, the branch that dodges because the current position is not clear enough to fire (AIPlayerController.java:228-238) can never run. Line 146 already returned on the identical query: the same point, an 80-pixel radius and a 1.5 s horizon. `Pilot.ShotOrDodged` keeps the branch as written.
- **Escaping bosses count twice.** A moving boss that leaves the screen during a boss fight counts twice toward the wave's defeat quota. `checkEntitiesOutOfBounds` marks it dead and counts it, and the sweep of `updateGame` then counts the dead boss again and pays its reward. `Cleanup.EscapedWaveBossCountsTwice` proves this in general. `Cleanup.OneEscapeEndsWaveTwo` shows that in wave 2 one escaped boss ends the two-boss fight while the other boss is still alive.
- **Zone clearance and horizon.** The safety oracle `isZoneAroundXClear` samples at fractions of its horizon, so a zone clear over a longer horizon is not always clear over a shorter one. `SafetyOracle.ClearanceNotMonotoneInHorizon` gives a concrete shot for which this happens.

## Model

| member | source | states |
|---|---|---|
| Common.JavaDiv | src/uet/oop/spaceshootergamejavafx/entities/SpaceShooter.java:259-263 | The integer quotient truncates toward zero, as Java's `/` on `int` does for negative scores too |
| PlayerShip.FlagsCleared | src/uet/oop/spaceshootergamejavafx/entities/AIPlayerController.java:126 | Resetting the movement flags clears all four directions and keeps the position and the wish to shoot |
| PlayerShip.Player.constructor | src/uet/oop/spaceshootergamejavafx/entities/Player.java:35-38 | A new player stands at the given point with no movement flag and no wish to shoot |
| PlayerShip.Player.ResetMovementFlags | src/uet/oop/spaceshootergamejavafx/entities/AIPlayerController.java:126 | The player's state becomes FlagsCleared of the old state |
| PlayerShip.Player.SetMoveLeft | src/uet/oop/spaceshootergamejavafx/entities/Player.java:94-97 | Only the left flag changes, to the given value |
| PlayerShip.Player.SetMoveRight | src/uet/oop/spaceshootergamejavafx/entities/Player.java:99-102 | Only the right flag changes, to the given value |
| PlayerShip.Player.SetMoveForward | src/uet/oop/spaceshootergamejavafx/entities/Player.java:104-107 | Only the forward flag changes, to the given value |
| PlayerShip.Player.SetMoveBackward | src/uet/oop/spaceshootergamejavafx/entities/Player.java:109-112 | Only the backward flag changes, to the given value |
| PlayerShip.Player.SetWantsToShoot | src/uet/oop/spaceshootergamejavafx/entities/AIPlayerController.java:824 | Only the wish to shoot changes, to the given value |
| PlayerShip.Player.TeleportTo | src/uet/oop/spaceshootergamejavafx/entities/AIPlayerController.java:528 | Only the position changes, to the given point |
| SafetyOracle.NumSteps | src/uet/oop/spaceshootergamejavafx/entities/AIPlayerController.java:317-321 | The number of sampling steps is at least 1, is 1 for short horizons, and is otherwise the floor of horizon / 0.025 |
| SafetyOracle.IsZoneAroundXClear | src/uet/oop/spaceshootergamejavafx/entities/AIPlayerController.java:312-340 | The sampling loop answers "clear" exactly when no live enemy shot, projected to any sampled time, comes within the radius plus its half-width of the point; with no live shot the zone is clear |
| SafetyOracle.ZoneClearForSmallerRadius | src/uet/oop/spaceshootergamejavafx/entities/AIPlayerController.java:312-340 | A zone clear at some radius is clear at every smaller radius |
| SafetyOracle.ZoneUnclearWhenShotAlreadyInside | src/uet/oop/spaceshootergamejavafx/entities/AIPlayerController.java:312-340 | A live shot already inside the zone makes the zone unclear at every horizon |
| SafetyOracle.ClearanceNotMonotoneInHorizon | src/uet/oop/spaceshootergamejavafx/entities/AIPlayerController.java:312-340 | A concrete shot for which the zone is clear over a 0.05 s horizon but not over 0.0375 s, because the samples fall at fractions of the horizon |
| Selection.FirstMinIsFirstMin | src/uet/oop/spaceshootergamejavafx/entities/AIPlayerController.java:625-674 | The shared scan returns the first index of least cost among the present costs, and none exactly when no cost is present |
| Selection.MinFromIsFirstMin | src/uet/oop/spaceshootergamejavafx/entities/AIPlayerController.java:625-674 | Continuing the scan from any prefix whose best is the first least keeps that property for the whole sequence (the loop invariant of every scan) |
| Selection.IsFirstMinUnique | src/uet/oop/spaceshootergamejavafx/entities/AIPlayerController.java:769-789 | The first least index is unique, so every scan has a single well-defined answer |
| Selection.FirstMinIsLeast | src/uet/oop/spaceshootergamejavafx/entities/AIPlayerController.java:769-789 | If any cost is present the scan picks one, and its cost is at most any other present cost |
| Threats.ThreatTime | src/uet/oop/spaceshootergamejavafx/entities/AIPlayerController.java:630-671 | A bullet counts as a threat only if it is a live enemy shot with a time to impact in [0, 1.5) s. Its predicted x then lies in the player's detection band, and a moving bullet is predicted to reach the player's y exactly; a bullet with no vertical speed gets time 0.02 |
| Threats.ThreatChoice | src/uet/oop/spaceshootergamejavafx/entities/AIPlayerController.java:625-674 | The chosen threat is an index of the snapshot whose bullet is a threat |
| Threats.ThreatChoiceIsSoonest | src/uet/oop/spaceshootergamejavafx/entities/AIPlayerController.java:625-674 | No threat is chosen exactly when no bullet threatens, and then the time to impact is the Double.MAX_VALUE sentinel. Otherwise the chosen bullet has the least time to impact, strictly less than every earlier threat's, and that time is stored |
| Threats.ProximityCost | src/uet/oop/spaceshootergamejavafx/entities/AIPlayerController.java:769-789 | Only live enemies within the proximity threshold are candidates; the distance is non-negative and zero exactly when the enemy's hull overlaps the player |
| Threats.ProximityChoice | src/uet/oop/spaceshootergamejavafx/entities/AIPlayerController.java:769-789 | The chosen hull is an index of the snapshot holding a candidate enemy |
| Threats.ProximityChoiceIsNearest | src/uet/oop/spaceshootergamejavafx/entities/AIPlayerController.java:769-789 | No hull is chosen exactly when no enemy is close; otherwise the chosen one is the nearest, strictly nearer than every earlier candidate |
| Threats.OverlappingHullIsClose | src/uet/oop/spaceshootergamejavafx/entities/AIPlayerController.java:769-789 | An enemy whose hull overlaps the player is always a candidate, at distance zero |
| Threats.ClosestSampleCount | src/uet/oop/spaceshootergamejavafx/entities/AIPlayerController.java:568 | The count of samples equals the number of sample times 0.01, 0.03, ... that are within the horizon |
| Threats.FirstHitFrom | src/uet/oop/spaceshootergamejavafx/entities/AIPlayerController.java:568-589 | A hit it reports lies between the start time and the horizon and is a hitting sample; if the start sample hits, it is the answer |
| Threats.FirstHitSkipsMiss | src/uet/oop/spaceshootergamejavafx/entities/AIPlayerController.java:568-589 | A missing sample is skipped: the search goes on from the next sample 0.02 s later |
| Threats.SampleCountCoversHorizon | src/uet/oop/spaceshootergamejavafx/entities/AIPlayerController.java:568 | The samples reach past the horizon, so the fuel of the search never cuts it short |
| Threats.ClosestCost | src/uet/oop/spaceshootergamejavafx/entities/AIPlayerController.java:562-590 | A bullet is a candidate only if it is a live enemy shot whose first hitting sample is earlier than the horizon |
| Threats.ClosestChoice | src/uet/oop/spaceshootergamejavafx/entities/AIPlayerController.java:555-593 | The chosen bullet is an index of the snapshot holding a candidate |
| Threats.FirstHittingSample | src/uet/oop/spaceshootergamejavafx/entities/AIPlayerController.java:568-589 | The sampling loop returns the first sample time at which the shot overlaps the player with an unsafe y gap, or none |
| Threats.FindClosestBulletThreateningPosition | src/uet/oop/spaceshootergamejavafx/entities/AIPlayerController.java:555-593 | The loop returns the bullet that ClosestChoice picks (first earliest hit under the horizon), and that bullet is a live enemy shot |
| Targeting.NormalTargetCost | src/uet/oop/spaceshootergamejavafx/entities/AIPlayerController.java:685-706 | Only live normal enemies not shot in the last 150 ms are candidates, ranked by their score |
| Targeting.BestNormalEnemy | src/uet/oop/spaceshootergamejavafx/entities/AIPlayerController.java:685-714 | The chosen normal enemy is an index of a candidate |
| Targeting.LastLiveBoss | src/uet/oop/spaceshootergamejavafx/entities/AIPlayerController.java:688-690 | The boss remembered is live and no later object is a live boss; none is remembered only when no boss is alive |
| Targeting.EnemyTarget | src/uet/oop/spaceshootergamejavafx/entities/AIPlayerController.java:677-729 | The target is an index of the snapshot |
| Targeting.EnemyTargetIsBest | src/uet/oop/spaceshootergamejavafx/entities/AIPlayerController.java:677-729 | The target is a live enemy. A normal enemy shot in the last 150 ms is never chosen, and the only boss ever chosen is the last live one. A live boss guarantees a target. A chosen normal enemy scores at least as much as every eligible normal enemy, strictly more than the earlier ones, and at least as much as the last live boss |
| Targeting.BossOnScreenIsTheTarget | src/uet/oop/spaceshootergamejavafx/entities/AIPlayerController.java:716-728 | When every live boss is on screen and one exists, the target is the last live boss |
| Targeting.NormalScoreAtMost | src/uet/oop/spaceshootergamejavafx/entities/AIPlayerController.java:699-706 | A normal enemy's score never exceeds 12200 |
| Targeting.BossScoreAtLeast | src/uet/oop/spaceshootergamejavafx/entities/AIPlayerController.java:716-724 | An on-screen boss scores at least 17802, above any normal enemy |
| Targeting.AlignmentMonotoneInTolerance | src/uet/oop/spaceshootergamejavafx/entities/AIPlayerController.java:812-818 | Alignment within a tolerance implies alignment within any wider one, and an aligned target is above the player |
| Targeting.PowerUpTypeRanking | src/uet/oop/spaceshootergamejavafx/entities/AIPlayerController.java:739-746 | Shield outranks every other power-up. A health pack outranks triple shot at 1 or 2 lives and ranks below it otherwise |
| Targeting.PowerUpCost | src/uet/oop/spaceshootergamejavafx/entities/AIPlayerController.java:735-762 | Only live power-ups within three player heights vertically are candidates, ranked by their score |
| Targeting.BestPowerUp | src/uet/oop/spaceshootergamejavafx/entities/AIPlayerController.java:732-766 | The chosen power-up is an index of a candidate |
| Targeting.BestPowerUpIsBest | src/uet/oop/spaceshootergamejavafx/entities/AIPlayerController.java:732-766 | No power-up is chosen exactly when none is a candidate; otherwise the chosen one has the best score, strictly better than every earlier one |
| Evasion.DodgeSidestepsStayOnScreen | src/uet/oop/spaceshootergamejavafx/entities/AIPlayerController.java:393-508 | Every sidestep the strategic dodge chooses moves away from an edge the ship's box is more than a pixel from (centre between x=21 and x=491 on that side), and a shot-dodge sidestep aims at a point on the screen |
| Evasion.BodyDodge | src/uet/oop/spaceshootergamejavafx/entities/AIPlayerController.java:792-809 | The hull dodge moves only to a side that is allowed and clear, prefers the side away from the enemy, and stays only when neither side is usable |
| Evasion.TeleportRadiusBound | src/uet/oop/spaceshootergamejavafx/entities/AIPlayerController.java:520-523 | An offset is within the 512/2.5 pixel radius exactly when it is one of the first 25 steps of 8 pixels |
| Evasion.Candidate | src/uet/oop/spaceshootergamejavafx/entities/AIPlayerController.java:525-541 | At one offset the search finds a spot exactly when the right or left spot is on screen and clear, and it prefers the right one |
| Evasion.TeleportFromFinds | src/uet/oop/spaceshootergamejavafx/entities/AIPlayerController.java:515-546 | Searching from any offset either finds the first offset with a clear spot or proves no later offset has one |
| Evasion.ChosenSpotFacts | src/uet/oop/spaceshootergamejavafx/entities/AIPlayerController.java:525-541 | A chosen spot is at the offset's distance, clear for 1.5 s and fully on screen |
| Evasion.TeleportSpotIsNearestClear | src/uet/oop/spaceshootergamejavafx/entities/AIPlayerController.java:515-546 | The teleport goes to the nearest clear on-screen spot (right before left), and fails only when no spot within the radius is clear |
| Evasion.TeleportMove | src/uet/oop/spaceshootergamejavafx/entities/AIPlayerController.java:515-546 | A teleport happens exactly when a spot exists; it goes there, within the radius, onto a clear spot |
| Evasion.PanicHorizon | src/uet/oop/spaceshootergamejavafx/entities/AIPlayerController.java:455-456 | The panic horizon lies in [0.05, 0.20] and is 0.4 x time-to-impact, clamped, when that time is positive |
| Evasion.PickSide | src/uet/oop/spaceshootergamejavafx/entities/AIPlayerController.java:440-452 | The side chosen is always a safe one; with both safe, it is the side away from the bullet's predicted x |
| Evasion.MicroStep | src/uet/oop/spaceshootergamejavafx/entities/AIPlayerController.java:479-501 | A micro step goes only to a side clear for half the dodge distance, and is absent exactly when neither side is clear |
| Evasion.ShotDodge | src/uet/oop/spaceshootergamejavafx/entities/AIPlayerController.java:417-505 | The dodge tiers run in order: an ideal sidestep if a side is clear for 1.5 s, else a panic sidestep clear for the panic horizon, else a micro step, else a teleport. Every sidestep is to a side clear for its tier |
| Evasion.StrategicDodge | src/uet/oop/spaceshootergamejavafx/entities/AIPlayerController.java:393-508 | With no bullet to dodge, the dodge is of the enemy hull if there is one and a teleport otherwise; with a bullet it is the tiered shot dodge; only the teleport tier teleports |
| Evasion.IdealDodgeMovesAwayFromShot | src/uet/oop/spaceshootergamejavafx/entities/AIPlayerController.java:440-447 | An ideal dodge with both sides clear moves away from the bullet's predicted x when it is off-centre |
| Evasion.AdjustY | src/uet/oop/spaceshootergamejavafx/entities/AIPlayerController.java:606-619 | The ship moves up exactly when below the preferred y by more than the tolerance and away from the top, and down in the mirrored case |
| Pilot.CleanMemory | src/uet/oop/spaceshootergamejavafx/entities/AIPlayerController.java:129-139 | An id stays in the recently-shot memory exactly when it was there, is still alive and was stamped at most 150 ms ago; stamps are unchanged |
| Pilot.ApplyMove | src/uet/oop/spaceshootergamejavafx/entities/AIPlayerController.java:189-195 | Applying a move only adds the flag of its direction (or teleports to the preferred y) and never sets both horizontal flags unless one was already set |
| Pilot.ApplyVertical | src/uet/oop/spaceshootergamejavafx/entities/AIPlayerController.java:606-619 | Applying a vertical move touches only the vertical flags and never sets both unless one was already set |
| Pilot.AlignMove | src/uet/oop/spaceshootergamejavafx/entities/AIPlayerController.java:180-197 | Alignment moves right only when the target is more than the threshold to the right and the move is allowed, and left in the mirrored case |
| Pilot.PowerUpChase | src/uet/oop/spaceshootergamejavafx/entities/AIPlayerController.java:243-264 | When the chase reports moving, a horizontal flag is set |
| Pilot.FiredFacts | src/uet/oop/spaceshootergamejavafx/entities/AIPlayerController.java:821-827 | A shot is tried only after the 20 ms cooldown, at `now`, and only then does the wish to shoot turn on; a decision stamp is `now`; memory entries are old ones or the target stamped now |
| Pilot.ShotOrDodgedFacts | src/uet/oop/spaceshootergamejavafx/entities/AIPlayerController.java:200-238 | Firing never moves the ship except by a safe teleport, and a new shot needs the cooldown, a safe current spot and the ability to still dodge |
| Pilot.AttackedFacts | src/uet/oop/spaceshootergamejavafx/entities/AIPlayerController.java:176-238 | An attack moves at most one way per axis except by a safe teleport, and a new shot also needs the target aligned within the firing tolerance |
| Pilot.DodgedFacts | src/uet/oop/spaceshootergamejavafx/entities/AIPlayerController.java:393-508 | A strategic dodge changes only the ship; it keeps the wish to shoot and moves only by a safe teleport |
| Pilot.ChaseFacts | src/uet/oop/spaceshootergamejavafx/entities/AIPlayerController.java:243-264 | Chasing a power-up only sets horizontal flags and the power-up target |
| Pilot.DriftedFacts | src/uet/oop/spaceshootergamejavafx/entities/AIPlayerController.java:270-289 | Drifting only sets horizontal flags and never creates a two-way move |
| Pilot.EngagedFacts | src/uet/oop/spaceshootergamejavafx/entities/AIPlayerController.java:176-289 | After targeting and attacking, the chase and drift keep the shot bookkeeping and the position of the attack |
| Pilot.TickMovesOneWay | src/uet/oop/spaceshootergamejavafx/entities/AIPlayerController.java:124-290 | After a tick the ship never moves both left and right, or both forward and backward |
| Pilot.TickFiresOnlyWhenSafe | src/uet/oop/spaceshootergamejavafx/entities/AIPlayerController.java:124-290 | A tick fires only when the cooldown and the post-shot pause have passed, the current spot is clear for 1.5 s, the target is aligned and a dodge stays possible. Any wish to shoot afterwards comes from that shot, or is an old wish kept through an unsafe tick |
| Pilot.TickTeleportsSafely | src/uet/oop/spaceshootergamejavafx/entities/AIPlayerController.java:124-290 | The ship's position changes in a tick only by a teleport of at most 512/2.5 pixels to the preferred y onto a spot clear for 1.5 s |
| Pilot.TickMemoryIsFresh | src/uet/oop/spaceshootergamejavafx/entities/AIPlayerController.java:124-290 | Every remembered id is an old entry still alive and under 150 ms old, or the current normal-enemy target stamped now |
| Pilot.UnsafeTickOnlyDodges | src/uet/oop/spaceshootergamejavafx/entities/AIPlayerController.java:146-150 | On an unsafe tick the autopilot only cleans its memory and dodges: targets, shot stamps and the wish to shoot are unchanged |
| Controller.AIPlayerController.constructor | src/uet/oop/spaceshootergamejavafx/entities/AIPlayerController.java:104-117 | A new controller holds the player, an empty view, no threats or targets, the MAX_VALUE time to impact and an empty memory |
| Controller.AIPlayerController.CleanupRecentlyShot | src/uet/oop/spaceshootergamejavafx/entities/AIPlayerController.java:129-139 | The memory becomes CleanMemory of the old memory |
| Controller.AIPlayerController.AssessThreateningBullets | src/uet/oop/spaceshootergamejavafx/entities/AIPlayerController.java:625-674 | The threat and its time become those of ThreatChoice; nothing else changes |
| Controller.AIPlayerController.AssessProximityThreats | src/uet/oop/spaceshootergamejavafx/entities/AIPlayerController.java:769-789 | The threatening hull becomes ProximityChoice's pick; nothing else changes |
| Controller.AIPlayerController.FindBestEnemyTargetToAttack | src/uet/oop/spaceshootergamejavafx/entities/AIPlayerController.java:677-729 | The target becomes EnemyTarget's pick; nothing else changes |
| Controller.AIPlayerController.FindBestPowerUpTarget | src/uet/oop/spaceshootergamejavafx/entities/AIPlayerController.java:732-766 | The power-up target becomes BestPowerUp's pick; nothing else changes |
| Controller.AIPlayerController.AdjustYToPreferredPosition | src/uet/oop/spaceshootergamejavafx/entities/AIPlayerController.java:606-619 | The player's flags change as AdjustY says |
| Controller.AIPlayerController.PerformEnemyBodyDodge | src/uet/oop/spaceshootergamejavafx/entities/AIPlayerController.java:792-809 | The player moves as BodyDodge says |
| Controller.AIPlayerController.FindAndExecuteShortestTeleport | src/uet/oop/spaceshootergamejavafx/entities/AIPlayerController.java:515-546 | The player moves as TeleportMove says |
| Controller.AIPlayerController.ShortestTeleportOver | src/uet/oop/spaceshootergamejavafx/entities/AIPlayerController.java:515-546 | The teleport over a given view moves the player as TeleportMove says |
| Controller.AIPlayerController.DodgeShot | src/uet/oop/spaceshootergamejavafx/entities/AIPlayerController.java:417-505 | The player moves as ShotDodge's tier order says |
| Controller.AIPlayerController.MicroDodge | src/uet/oop/spaceshootergamejavafx/entities/AIPlayerController.java:479-504 | The player moves by the micro step, or teleports when no micro step is clear |
| Controller.AIPlayerController.Sidestep | src/uet/oop/spaceshootergamejavafx/entities/AIPlayerController.java:440-452 | The move made is PickSide's and is applied to the player |
| Controller.AIPlayerController.PerformStrategicDodge | src/uet/oop/spaceshootergamejavafx/entities/AIPlayerController.java:393-508 | The controller's state becomes Dodged of the old state |
| Controller.AIPlayerController.TryToShoot | src/uet/oop/spaceshootergamejavafx/entities/AIPlayerController.java:821-827 | The state becomes TriedToShoot of the old state |
| Controller.AIPlayerController.AttackTarget | src/uet/oop/spaceshootergamejavafx/entities/AIPlayerController.java:176-238 | The state and the two flags become Attacked of the old state |
| Controller.AIPlayerController.AlignWithTarget | src/uet/oop/spaceshootergamejavafx/entities/AIPlayerController.java:180-197 | The ship moves as AlignMove says, and reports moving exactly when it moved |
| Controller.AIPlayerController.ShootOrDodge | src/uet/oop/spaceshootergamejavafx/entities/AIPlayerController.java:200-238 | The state and the shot flag become ShotOrDodged of the old state |
| Controller.AIPlayerController.ChasePowerUp | src/uet/oop/spaceshootergamejavafx/entities/AIPlayerController.java:243-264 | The state and the moving flag become PowerUpChase of the old state |
| Controller.AIPlayerController.Drift | src/uet/oop/spaceshootergamejavafx/entities/AIPlayerController.java:270-289 | The state becomes Drifted of the old state |
| Controller.AIPlayerController.UpdateAI | src/uet/oop/spaceshootergamejavafx/entities/AIPlayerController.java:124-290 | The view becomes the given snapshot and the state becomes Tick of the old state, so every Tick lemma holds of updateAI |
| Controller.TeleportSearch | src/uet/oop/spaceshootergamejavafx/entities/AIPlayerController.java:515-546 | The search loop returns TeleportSpot, the nearest clear spot |
| Controller.TryTeleportCandidate | src/uet/oop/spaceshootergamejavafx/entities/AIPlayerController.java:525-541 | One iteration finds the spot Candidate names at that offset |
| Controller.ThreatScan | src/uet/oop/spaceshootergamejavafx/entities/AIPlayerController.java:625-674 | The scan returns ThreatChoice's bullet and its time to impact |
| Controller.ThreatTimeOf | src/uet/oop/spaceshootergamejavafx/entities/AIPlayerController.java:631-671 | A live enemy shot's threat time is ThreatTime; other objects have none |
| Controller.EnemyTargetScan | src/uet/oop/spaceshootergamejavafx/entities/AIPlayerController.java:677-729 | The scan returns EnemyTarget's pick |
| EnemyBullets.StepMovesOnceAndDiesOffScreen | src/uet/oop/spaceshootergamejavafx/entities/EnemyBullet.java:81-92 | One update moves the shot by its velocity, changes nothing else but the dead flag, and the shot is dead exactly when it was or has left by the bottom or a side |
| EnemyBullets.NeverDiesOffTheTop | src/uet/oop/spaceshootergamejavafx/entities/EnemyBullet.java:81-92 | A live shot moving up stays alive while inside the side edges: update has no top-edge test |
| EnemyBullets.FlightSteps | src/uet/oop/spaceshootergamejavafx/entities/EnemyBullet.java:81-92 | After k updates the shot has moved k velocity steps, keeps its size and velocity, and stays dead once dead |
| EnemyBullets.FlightIsLinear | src/uet/oop/spaceshootergamejavafx/entities/EnemyBullet.java:81-92 | After k updates the position is the start plus k times the velocity |
| EnemyBullets.EnemyBullet.constructor | src/uet/oop/spaceshootergamejavafx/entities/EnemyBullet.java:39-45 | A regular shot is 8 px wide, moves straight down at speed 1 and is alive |
| EnemyBullets.EnemyBullet.WithVelocity | src/uet/oop/spaceshootergamejavafx/entities/EnemyBullet.java:57-63 | A shot has the given velocity and is 10 px for a boss and 8 px otherwise |
| EnemyBullets.EnemyBullet.SetVelocity | src/uet/oop/spaceshootergamejavafx/entities/EnemyBullet.java:71-74 | Only the velocity changes |
| EnemyBullets.EnemyBullet.Update | src/uet/oop/spaceshootergamejavafx/entities/EnemyBullet.java:81-92 | The state becomes one Stepped update of the old state |
| EnemyBullets.EnemyBullet.IsDead | src/uet/oop/spaceshootergamejavafx/entities/EnemyBullet.java:136-138 | Returns the dead flag |
| EnemyBullets.EnemyBullet.SetDead | src/uet/oop/spaceshootergamejavafx/entities/EnemyBullet.java:146-148 | Only the dead flag changes |
| EnemyBullets.EnemyBullet.GetVx | src/uet/oop/spaceshootergamejavafx/entities/EnemyBullet.java:155-157 | Returns the horizontal velocity |
| EnemyBullets.EnemyBullet.GetVy | src/uet/oop/spaceshootergamejavafx/entities/EnemyBullet.java:164-166 | Returns the vertical velocity |
| PlayerBullets.StepMovesOnceAndDiesOffScreen | src/uet/oop/spaceshootergamejavafx/entities/Bullet.java:55-68 | One update moves the shot by its velocity, changes nothing else but the dead flag, and the shot is dead exactly when it was or has left by any edge |
| PlayerBullets.FlightSteps | src/uet/oop/spaceshootergamejavafx/entities/Bullet.java:55-68 | After k updates the shot has moved k velocity steps, keeps its size and velocity, and stays dead once dead |
| PlayerBullets.FlightIsLinear | src/uet/oop/spaceshootergamejavafx/entities/Bullet.java:55-68 | After k updates the position is the start plus k times the velocity |
| PlayerBullets.StraightShotLeavesAtTheTop | src/uet/oop/spaceshootergamejavafx/entities/Bullet.java:46-68 | A straight shot fired on screen is dead after k updates exactly when it has fully passed the top edge |
| PlayerBullets.Bullet.constructor | src/uet/oop/spaceshootergamejavafx/entities/Bullet.java:32-37 | A shot is 4 x 15, has the given velocity and is alive |
| PlayerBullets.Bullet.Straight | src/uet/oop/spaceshootergamejavafx/entities/Bullet.java:46-48 | The default shot goes straight up at speed 5 |
| PlayerBullets.Bullet.Update | src/uet/oop/spaceshootergamejavafx/entities/Bullet.java:55-68 | The state becomes one Stepped update of the old state |
| PlayerBullets.Bullet.SetDead | src/uet/oop/spaceshootergamejavafx/entities/Bullet.java:106-108 | Only the dead flag changes |
| PlayerBullets.Bullet.IsDead | src/uet/oop/spaceshootergamejavafx/entities/Bullet.java:115-117 | Returns the dead flag |
| ShooterState.NewBoss | src/uet/oop/spaceshootergamejavafx/entities/SpaceShooter.java:601-629 | A new boss is live and carries the given id |
| ShooterState.CountUpdate | src/uet/oop/spaceshootergamejavafx/entities/SpaceShooter.java:360-379 | Replacing one object changes a tally by the difference of the two objects' contributions |
| ShooterState.CountAppend | src/uet/oop/spaceshootergamejavafx/entities/SpaceShooter.java:356-357 | The tally of two lists joined is the sum of their tallies |
| Waves.SpawnInterval | src/uet/oop/spaceshootergamejavafx/entities/SpaceShooter.java:259-263 | The enemy spawn interval is exactly the larger of 40 frames and 170 minus 28 per wave after the first minus the score divided by 90 (truncated) |
| Waves.Difficulty | src/uet/oop/spaceshootergamejavafx/entities/SpaceShooter.java:259-263 | Adjusting the difficulty sets the spawn interval to SpawnInterval of the wave and score and changes nothing else |
| Waves.ScoreStepsMonotone | src/uet/oop/spaceshootergamejavafx/entities/SpaceShooter.java:259-263 | A higher score never gives fewer 90-point steps |
| Waves.SpawnIntervalMonotone | src/uet/oop/spaceshootergamejavafx/entities/SpaceShooter.java:259-263 | A later wave or a higher score never lengthens the spawn interval |
| Waves.EnemySpawnTiming | src/uet/oop/spaceshootergamejavafx/entities/SpaceShooter.java:474-502 | An enemy spawns exactly when spawning is allowed and the timer reaches the interval. The timer then resets, and the enemy is a live normal enemy with the next id whose box lies within the screen's width (it starts just above the top edge); otherwise the timer counts up, or nothing happens when spawning is blocked |
| Waves.PowerUpEvery500Frames | src/uet/oop/spaceshootergamejavafx/entities/SpaceShooter.java:509-533 | Over n frames from a zero timer, exactly n / 500 power-ups are added after the existing objects, each a live item with the next consecutive id; nextId grows by n / 500 and the timer ends at n mod 500 |
| Waves.PowerUpFrame | src/uet/oop/spaceshootergamejavafx/entities/SpaceShooter.java:509-533 | In one frame either the power-up timer counts up below 500 and nothing is added, or it reaches 500, resets to 0 and one live item with the next id is appended |
| Waves.FrameCount | src/uet/oop/spaceshootergamejavafx/entities/SpaceShooter.java:509-533 | One more frame either completes a 500-frame period or advances the remainder by one |
| Waves.WaveBosses | src/uet/oop/spaceshootergamejavafx/entities/SpaceShooter.java:601-629 | Wave n (1..3) brings n live bosses with consecutive fresh ids; any other wave none |
| Waves.ManageWaveKeepsConsistent | src/uet/oop/spaceshootergamejavafx/entities/SpaceShooter.java:541-592 | The wave machine keeps its flags consistent, never goes back or skips a wave, and leaves score, lives and objects alone |
| Waves.WaveAdvancesOnlyOnVictory | src/uet/oop/spaceshootergamejavafx/entities/SpaceShooter.java:541-592 | The wave changes only after a won boss fight; the next wave starts with no fight, and wave 3 starts with the stationary boss |
| Waves.WaveBossesAppearAtTheirScores | src/uet/oop/spaceshootergamejavafx/entities/SpaceShooter.java:543-568 | Wave 1 at 150 points brings one boss and a one-boss fight, wave 2 at 450 two and a two-boss fight; below those scores nothing happens |
| Waves.StationaryBossSpawnsOnce | src/uet/oop/spaceshootergamejavafx/entities/SpaceShooter.java:634-641 | Once spawned, the stationary boss is never spawned again, and only the final trigger adds objects |
| Waves.FinalBossesOnlyAfterStationary | src/uet/oop/spaceshootergamejavafx/entities/SpaceShooter.java:570-590 | The three final bosses come only in wave 3, after the stationary boss is defeated and at 900 points, once per game |
| Waves.GameEndsOnFinalVictory | src/uet/oop/spaceshootergamejavafx/entities/SpaceShooter.java:584-589 | The game stops exactly when the final fight of wave 3 is won |
| Collisions.ShotScanScores | src/uet/oop/spaceshootergamejavafx/entities/SpaceShooter.java:652-673 | A player shot's scan kills only what it touches, and the score rises by 10 per normal enemy killed |
| Collisions.ShotsScore | src/uet/oop/spaceshootergamejavafx/entities/SpaceShooter.java:652-673 | The whole shot pass adds 10 points per normal enemy it kills |
| Collisions.StruckCostsOneLife | src/uet/oop/spaceshootergamejavafx/entities/SpaceShooter.java:680-689 | An unprotected hit costs one life, returns the ship to the respawn point with cleared flags, and kills the player exactly at zero lives (otherwise grants invincibility); a protected hit changes nothing |
| Collisions.ProtectedPlayerUntouched | src/uet/oop/spaceshootergamejavafx/entities/SpaceShooter.java:677-728 | A shielded or invincible player loses nothing to hulls or bullets |
| Collisions.ContactCostsAtMostOneLife | src/uet/oop/spaceshootergamejavafx/entities/SpaceShooter.java:677-728 | A contact pass costs at most one life, only to an unprotected player, after which the player is dead or invincible |
| Collisions.ContactKillsOnlyTargets | src/uet/oop/spaceshootergamejavafx/entities/SpaceShooter.java:677-728 | A contact pass only kills objects, and only the hulls or enemy bullets it checks, never a boss |
| Collisions.PickupsBounded | src/uet/oop/spaceshootergamejavafx/entities/SpaceShooter.java:766-792 | Pickups never lower lives, raise them above 5 only if already above, give 5 points per health pack taken, and leave the ship untouched |
| Collisions.PickupsKillOnlyItems | src/uet/oop/spaceshootergamejavafx/entities/SpaceShooter.java:766-792 | Pickups only kill power-ups |
| Collisions.CollisionsCostAtMostOneLife | src/uet/oop/spaceshootergamejavafx/entities/SpaceShooter.java:650-794 | A whole collision check costs at most one life and leaves the wave bookkeeping alone |
| Cleanup.ChargeFacts | src/uet/oop/spaceshootergamejavafx/entities/SpaceShooter.java:806-822 | An escaped normal enemy costs one life, a moving boss two and during a fight one defeat, the stationary boss nothing; the player dies at zero lives |
| Cleanup.EscapeStepCharged | src/uet/oop/spaceshootergamejavafx/entities/SpaceShooter.java:803-829 | One step kills the object if it escapes, and charges lives and defeats by the enemies it lost |
| Cleanup.EscapesKillTheEscaped | src/uet/oop/spaceshootergamejavafx/entities/SpaceShooter.java:802-830 | The pass kills exactly the live objects that escape, and nothing else changes |
| Cleanup.EscapesCharged | src/uet/oop/spaceshootergamejavafx/entities/SpaceShooter.java:802-830 | The pass charges one life per escaped normal enemy and two per escaped wave boss, counts escaped wave bosses as defeats during a fight, and kills the player when the lives run out |
| Cleanup.SurvivorsAreTheLiveOnes | src/uet/oop/spaceshootergamejavafx/entities/SpaceShooter.java:360-379 | The sweep keeps exactly the live objects, so every live tally is unchanged and no dead boss survives |
| Cleanup.KillsBalance | src/uet/oop/spaceshootergamejavafx/entities/SpaceShooter.java:360-379 | Killing objects adds as many dead wave bosses as it removes live ones |
| Cleanup.EscapedWaveBossCountsTwice | src/uet/oop/spaceshootergamejavafx/entities/SpaceShooter.java:802-830 | In a fight, the escape pass and the sweep together count every escaped wave boss twice as defeated, and charge two lives for each |
| Cleanup.OneEscapeEndsWaveTwo | src/uet/oop/spaceshootergamejavafx/entities/SpaceShooter.java:556-568 | In wave 2 one escaped boss ends the two-boss fight and starts wave 3 while the other boss is still alive |
| Cleanup.RestartStartsFresh | src/uet/oop/spaceshootergamejavafx/entities/SpaceShooter.java:836-867 | A restart gives a consistent fresh first wave: no score, 3 lives, 170-frame spawns, nothing for the wave machine to do, a live player at the respawn point with cleared flags; restarting twice is restarting once |
| Shooter.SpaceShooter.AdjustDifficulty | src/uet/oop/spaceshootergamejavafx/entities/SpaceShooter.java:259-263 | The state becomes Difficulty of the old state |
| Shooter.SpaceShooter.IsAlive | src/uet/oop/spaceshootergamejavafx/entities/SpaceShooter.java:481 | Reports whether a live object with that id is on either list |
| Shooter.SpaceShooter.SpawnNormalEnemies | src/uet/oop/spaceshootergamejavafx/entities/SpaceShooter.java:474-502 | The state becomes EnemySpawned of the old state |
| Shooter.SpaceShooter.SpawnPowerUp | src/uet/oop/spaceshootergamejavafx/entities/SpaceShooter.java:509-533 | The state becomes PowerUpSpawned of the old state |
| Shooter.SpaceShooter.SpawnBossesForWave | src/uet/oop/spaceshootergamejavafx/entities/SpaceShooter.java:601-629 | The state becomes BossesForWave of the old state |
| Shooter.SpaceShooter.AddBosses | src/uet/oop/spaceshootergamejavafx/entities/SpaceShooter.java:617-623 | The bosses are appended to the new objects, and the id counter moves past them |
| Shooter.SpaceShooter.StartWaveFight | src/uet/oop/spaceshootergamejavafx/entities/SpaceShooter.java:614-616 | A wave fight begins for the given number of bosses |
| Shooter.SpaceShooter.StartFinalFight | src/uet/oop/spaceshootergamejavafx/entities/SpaceShooter.java:624-627 | The final fight begins for three bosses |
| Shooter.SpaceShooter.SpawnStationaryBoss | src/uet/oop/spaceshootergamejavafx/entities/SpaceShooter.java:634-641 | The state becomes StationarySpawned of the old state |
| Shooter.SpaceShooter.ManageWaveStateAndBossSpawning | src/uet/oop/spaceshootergamejavafx/entities/SpaceShooter.java:541-592 | The state becomes ManageWave of the old state |
| Shooter.SpaceShooter.WaveOne | src/uet/oop/spaceshootergamejavafx/entities/SpaceShooter.java:543-554 | The state becomes WaveOneStep of the old state |
| Shooter.SpaceShooter.WaveTwo | src/uet/oop/spaceshootergamejavafx/entities/SpaceShooter.java:556-568 | The state becomes WaveTwoStep of the old state |
| Shooter.SpaceShooter.CheckStationaryBoss | src/uet/oop/spaceshootergamejavafx/entities/SpaceShooter.java:571-577 | The state becomes StationaryChecked of the old state |
| Shooter.SpaceShooter.FinalWave | src/uet/oop/spaceshootergamejavafx/entities/SpaceShooter.java:570-590 | The state becomes FinalStep of the old state |
| Shooter.SpaceShooter.ShotsAgainstEnemies | src/uet/oop/spaceshootergamejavafx/entities/SpaceShooter.java:652-673 | Objects and score become ShotsScan's |
| Shooter.SpaceShooter.PlayerContacts | src/uet/oop/spaceshootergamejavafx/entities/SpaceShooter.java:677-728 | Objects, player and lives become ContactScan's |
| Shooter.SpaceShooter.PlayerPickups | src/uet/oop/spaceshootergamejavafx/entities/SpaceShooter.java:766-792 | Objects, player, lives and score become PickupScan's |
| Shooter.SpaceShooter.CheckCollisions | src/uet/oop/spaceshootergamejavafx/entities/SpaceShooter.java:650-794 | The state becomes Collided of the old state |
| Shooter.SpaceShooter.CheckEntitiesOutOfBounds | src/uet/oop/spaceshootergamejavafx/entities/SpaceShooter.java:802-830 | The state becomes OutOfBounds of the old state |
| Shooter.SpaceShooter.SweepDeadObjects | src/uet/oop/spaceshootergamejavafx/entities/SpaceShooter.java:356-379 | The state becomes the sweep of the merged lists |
| Shooter.SpaceShooter.MergeNewObjects | src/uet/oop/spaceshootergamejavafx/entities/SpaceShooter.java:356-357 | The new objects join the object list |
| Shooter.SpaceShooter.SweepDead | src/uet/oop/spaceshootergamejavafx/entities/SpaceShooter.java:360-379 | The state becomes Swept of the old state |
| Shooter.SpaceShooter.RestartGameMechanics | src/uet/oop/spaceshootergamejavafx/entities/SpaceShooter.java:836-867 | The state becomes Restarted of the old state |
| Shooter.SpaceShooter.ResetCounters | src/uet/oop/spaceshootergamejavafx/entities/SpaceShooter.java:837-840 | Score, lives and both spawn timers are reset |
| Shooter.SpaceShooter.ResetWaveFight | src/uet/oop/spaceshootergamejavafx/entities/SpaceShooter.java:841-844 | The wave returns to 1 with no fight |
| Shooter.SpaceShooter.ResetStationaryBoss | src/uet/oop/spaceshootergamejavafx/entities/SpaceShooter.java:845-847 | The stationary boss is forgotten |
| Shooter.SpaceShooter.ResetFinalBosses | src/uet/oop/spaceshootergamejavafx/entities/SpaceShooter.java:848-849 | The final bosses are no longer triggered or fought |
| Shooter.SpaceShooter.ResetPlayerAndObjects | src/uet/oop/spaceshootergamejavafx/entities/SpaceShooter.java:861-865 | The player is alive at the respawn point with cleared flags, and both lists are empty |
| Shooter.ShotHitsLoop | src/uet/oop/spaceshootergamejavafx/entities/SpaceShooter.java:655-671 | The loop of one shot does what ShotScan says |
| Shooter.ShotsLoop | src/uet/oop/spaceshootergamejavafx/entities/SpaceShooter.java:652-673 | The shot pass does what ShotsScan says |
| Shooter.ContactLoop | src/uet/oop/spaceshootergamejavafx/entities/SpaceShooter.java:677-728 | The hull or bullet pass does what ContactScan says |
| Shooter.PickupLoop | src/uet/oop/spaceshootergamejavafx/entities/SpaceShooter.java:766-792 | The pickup pass does what PickupScan says |
| Shooter.EscapeLoop | src/uet/oop/spaceshootergamejavafx/entities/SpaceShooter.java:802-830 | The out-of-bounds loop does what EscapesFrom says |
| Shooter.SweepLoop | src/uet/oop/spaceshootergamejavafx/entities/SpaceShooter.java:360-379 | The sweep keeps the survivors in order, pays the dead bosses' rewards, and counts the fight's defeats |

## Left out

- Rendering, sound, explosions, the scrolling background, labels and temporary messages, debug printing, `Platform.runLater`, and input handling: they do not affect the game state that is modelled.
- The boss-bullet collision pass (SpaceShooter.java:731-763). It needs `BossEnemy.getBullets` and `reduceHealth`, which the boss class does not define. A boss hit by a player shot only spends the shot.
- `getDistance` (AIPlayerController.java:830-834) uses a square root. It is the parameter `dist`, about which nothing is assumed.
- Floating-point rounding and `int` overflow: `double` is `real` and `int` is unbounded.
- `findSafestHorizontalShift` and `isPlayerCurrentlyMoving` (AIPlayerController.java:352-387, 837-839): nothing calls them.
- `Player.update`, `Player.shoot`, `Enemy.update`, `PowerUp.update` and the boss's own movement and firing are stubs or outside this core. So are the other steps of `updateGame`: object updates, player shooting, enemy firing and the end-of-game check.
- `Enemy.setDead` is empty in the source. The model marks an enemy dead when the game kills it, as the game logic evidently relies on.
- The expiry of the shield, of invincibility and of triple shot, and what triple shot does: these are timed effects outside this core. The model only records that they are switched on.
- The clock. It is read once per tick (`now`), whereas the source reads `System.currentTimeMillis` at several points in one tick.
- Removal of dead objects through an iterator is modelled as building the list of survivors.
- Colours, sprites, and the colour parameter of the six-argument `EnemyBullet` constructor.
- The `gameObjects.add(player)` of the restart: the player is kept apart from the object list.
- Long Java methods (`updateAI`, `performStrategicDodge`, `checkCollisions`, `manageWaveStateAndBossSpawning`, `restartGameMechanics`) are split into helper methods. Each helper is proved against its own part of the specification function.
- Shooter.SpaceShooter.IsAlive: it looks up the stationary boss by id in `gameObjects` and `newObjects`, instead of following a Java reference.
