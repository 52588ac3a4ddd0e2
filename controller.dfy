/** AIPlayerController: the pilot object. Its fields are the threat and target
    it settled on, its shot timers and its memory of normal enemies it recently
    shot at; every tick updateAI rewrites them and sets the flags of the player it
    drives. Each method is proved to leave exactly the state the corresponding
    function of module Pilot describes. */
module Controller {
  import opened Common
  import opened Entities
  import opened Selection
  import opened SafetyOracle
  import opened AIConstants
  import opened Threats
  import opened Targeting
  import opened Evasion
  import opened PlayerShip
  import opened Pilot

  class AIPlayerController {
    const player: Player
    var gameObjectsView: seq<Entity>
    var threateningBullet: Option<Entity>
    var threateningBulletActualTTI: real
    var threateningEnemyBody: Option<Entity>
    var currentTargetEnemy: Option<Entity>
    var targetPowerUp: Option<Entity>
    var lastAIShotDecisionTime: int
    var lastAITriedToShootTime: int
    /** recentlyShotNormalEnemiesTimeStamps, keyed by the enemy's id. */
    var recentlyShot: map<EntityId, int>

    function State(): AIState
      reads this, player
    {
      AIState(player.State(), threateningBullet, threateningBulletActualTTI, threateningEnemyBody,
              currentTargetEnemy, targetPowerUp, lastAIShotDecisionTime, lastAITriedToShootTime,
              recentlyShot)
    }

    /** A pilot for the given player, with no threat (the sentinel time), no
        target, zero timers and an empty memory. */
    constructor(p: Player)
      ensures player == p && gameObjectsView == []
      ensures State() == AIState(p.State(), None, DoubleMax, None, None, None, 0, 0, map[])
    {
      player := p;
      gameObjectsView := [];
      threateningBullet := None;
      threateningBulletActualTTI := DoubleMax;
      threateningEnemyBody := None;
      currentTargetEnemy := None;
      targetPowerUp := None;
      lastAIShotDecisionTime := 0;
      lastAITriedToShootTime := 0;
      recentlyShot := map[];
    }

    /** The cleanup loop at the start of updateAI. */
    method CleanupRecentlyShot(now: int)
      modifies this
      ensures gameObjectsView == old(gameObjectsView)
      ensures State() == old(State()).(memory := CleanMemory(old(recentlyShot), gameObjectsView, now))
    {
      ghost var original := recentlyShot;
      var pending := recentlyShot.Keys;
      while pending != {}
        invariant pending <= original.Keys
        invariant gameObjectsView == old(gameObjectsView)
        invariant State() == old(State()).(memory := recentlyShot)
        invariant forall id :: id in recentlyShot <==>
                    id in original && (id in pending || (LiveIn(gameObjectsView, id) && now - original[id] <= ShotExpiryMs))
        invariant forall id :: id in recentlyShot ==> recentlyShot[id] == original[id]
        decreases pending
      {
        var id :| id in pending;
        if !LiveIn(gameObjectsView, id) || now - recentlyShot[id] > ShotExpiryMs {
          recentlyShot := recentlyShot - {id};
        }
        pending := pending - {id};
      }
      assert recentlyShot == CleanMemory(original, gameObjectsView, now);
    }

    /** assessThreateningBullets: the soonest shot to reach the player's height in
        the reaction window inside the detection band. */
    method AssessThreateningBullets()
      modifies this
      ensures gameObjectsView == old(gameObjectsView)
      ensures State() == old(State()).(threat := Pick(gameObjectsView, ThreatChoice(gameObjectsView, player.x, player.y)),
                                       tti := ThreatTti(gameObjectsView, player.x, player.y))
    {
      threateningBullet, threateningBulletActualTTI := ThreatScan(gameObjectsView, player.x, player.y);
    }

    /** assessProximityThreats: the live enemy hull nearest to touching the player
        among those within 22 pixels of it. */
    method AssessProximityThreats()
      modifies this
      ensures gameObjectsView == old(gameObjectsView)
      ensures State() == old(State()).(body := Pick(gameObjectsView, ProximityChoice(gameObjectsView, player.x, player.y)))
    {
      var view := gameObjectsView;
      var px, py := player.x, player.y;
      ghost var costs := ProximityCosts(view, px, py);
      ghost var best: Option<nat> := None;
      var body: Option<Entity> := None;
      var minEffectiveDistance := DoubleMax;
      for k := 0 to |view|
        invariant best.Some? ==> best.value < k && costs[best.value].Some?
        invariant MinFrom(costs, k, best) == FirstMin(costs)
        invariant body == Pick(view, best)
        invariant minEffectiveDistance == if best.Some? then costs[best.value].value else DoubleMax
      {
        var obj := view[k];
        if IsLiveEnemy(obj) {
          var combinedHalfWidths := (PlayerWidth + obj.width) / 2.0;
          var combinedHalfHeights := (PlayerHeight + obj.height) / 2.0;
          var deltaX := Abs(px - obj.x);
          var deltaY := Abs(py - obj.y);
          if deltaX < combinedHalfWidths + ProximityThreshold * 0.4
             && deltaY < combinedHalfHeights + ProximityThreshold * 0.4 {
            var effectiveDistance := MaxReal(0.0, deltaX - combinedHalfWidths) + MaxReal(0.0, deltaY - combinedHalfHeights);
            assert costs[k] == Some(effectiveDistance);
            if effectiveDistance < minEffectiveDistance {
              minEffectiveDistance := effectiveDistance;
              body := Some(obj);
              best := Some(k);
            }
          }
        }
      }
      threateningEnemyBody := body;
    }

    /** findBestEnemyTargetToAttack: the best-scoring normal enemy not shot at in
        the last 150 ms, replaced by the last live boss when that one scores higher
        or no normal enemy qualifies. */
    method FindBestEnemyTargetToAttack(now: int)
      modifies this
      ensures gameObjectsView == old(gameObjectsView)
      ensures State() == old(State()).(target := Pick(gameObjectsView, EnemyTarget(gameObjectsView, player.x, recentlyShot, now)))
    {
      currentTargetEnemy := EnemyTargetScan(gameObjectsView, player.x, recentlyShot, now);
    }

    /** findBestPowerUpTarget: the best-scoring live power-up among those within
        three player heights of the preferred y (or below it on screen). */
    method FindBestPowerUpTarget(lives: int, dist: Distance)
      modifies this
      ensures gameObjectsView == old(gameObjectsView)
      ensures State() == old(State()).(powerUp := Pick(gameObjectsView, BestPowerUp(gameObjectsView, player.x, lives, dist)))
    {
      var view := gameObjectsView;
      var px := player.x;
      ghost var costs := PowerUpCosts(view, px, lives, dist);
      ghost var best: Option<nat> := None;
      var pick: Option<Entity> := None;
      var bestScore := -DoubleMax;
      for k := 0 to |view|
        invariant best.Some? ==> best.value < k && costs[best.value].Some?
        invariant MinFrom(costs, k, best) == FirstMin(costs)
        invariant pick == Pick(view, best)
        invariant bestScore == if best.Some? then -costs[best.value].value else -DoubleMax
      {
        var obj := view[k];
        if obj.kind.Item? && !obj.dead {
          var currentScore := PowerUpScore(obj, px, lives, dist);
          if currentScore > bestScore {
            if ReachableY(obj, 3.0) {
              bestScore := currentScore;
              pick := Some(obj);
              best := Some(k);
            }
          }
        }
      }
      targetPowerUp := pick;
    }

    /** adjustYToPreferredPosition. */
    method AdjustYToPreferredPosition()
      modifies player
      ensures player.State() == ApplyVertical(old(player.State()), AdjustY(old(player.y)))
    {
      var playerY := player.y;
      if Abs(playerY - PreferredY) > YTolerance {
        if playerY > PreferredY {
          if playerY - PlayerHeight / 2.0 > 2.0 {
            player.SetMoveForward(true);
          }
        } else {
          if playerY + PlayerHeight / 2.0 < ScreenHeight - 2.0 {
            player.SetMoveBackward(true);
          }
        }
      }
    }

    /** performEnemyBodyDodge. */
    method PerformEnemyBodyDodge(enemy: Entity)
      modifies player
      ensures player.State() == ApplyMove(old(player.State()), BodyDodge(gameObjectsView, old(player.x), enemy.x))
    {
      var view := gameObjectsView;
      var px := player.x;
      var deltaXToEnemy := px - enemy.x;
      var dodgeOffset := StrategicDodgeDistance * 0.6;
      if deltaXToEnemy > 0.0 {
        var rightClear := false;
        if CanMoveRightSafely(px) {
          rightClear := IsZoneAroundXClear(view, px + dodgeOffset, PreferredY, SafeZoneRadius, ReactionWindow);
        }
        if rightClear {
          player.SetMoveRight(true);
        } else {
          var leftClear := false;
          if CanMoveLeftSafely(px) {
            leftClear := IsZoneAroundXClear(view, px - dodgeOffset, PreferredY, SafeZoneRadius, ReactionWindow);
          }
          if leftClear {
            player.SetMoveLeft(true);
          }
        }
      } else {
        var leftClear := false;
        if CanMoveLeftSafely(px) {
          leftClear := IsZoneAroundXClear(view, px - dodgeOffset, PreferredY, SafeZoneRadius, ReactionWindow);
        }
        if leftClear {
          player.SetMoveLeft(true);
        } else {
          var rightClear := false;
          if CanMoveRightSafely(px) {
            rightClear := IsZoneAroundXClear(view, px + dodgeOffset, PreferredY, SafeZoneRadius, ReactionWindow);
          }
          if rightClear {
            player.SetMoveRight(true);
          }
        }
      }
    }

    /** findAndExecuteShortestTeleport: try x + r, then x - r, for r = 8, 16, ...
        up to 204.8, and jump to the first spot whose zone is clear for 1.5 s. */
    method FindAndExecuteShortestTeleport()
      modifies player
      ensures player.State() == ApplyMove(old(player.State()), TeleportMove(gameObjectsView, old(player.x)))
    {
      ShortestTeleportOver(gameObjectsView);
    }

    /** The search of findAndExecuteShortestTeleport over the given snapshot. */
    method ShortestTeleportOver(view: seq<Entity>)
      modifies player
      ensures player.State() == ApplyMove(old(player.State()), TeleportMove(view, old(player.x)))
    {
      var spot := TeleportSearch(view, player.x);
      if spot.Some? {
        player.TeleportTo(spot.value, PreferredY);
      }
    }

    /** The ideal, panic and micro sidesteps of performStrategicDodge for shot b,
        and the teleport when all of them are blocked. */
    method DodgeShot(view: seq<Entity>, b: Entity, tti: real)
      modifies player
      ensures player.State() == ApplyMove(old(player.State()), ShotDodge(view, old(player.x), b, tti).move)
    {
      var playerX := player.x;
      var playerY := PreferredY;

      var dodgeTargetLeftX := playerX - StrategicDodgeDistance;
      var canPotentiallyDodgeLeft := CanMoveLeftSafely(playerX) && dodgeTargetLeftX >= 0.0;
      var idealSafeLeft := false;
      if canPotentiallyDodgeLeft {
        idealSafeLeft := IsZoneAroundXClear(view, dodgeTargetLeftX, playerY, SafeZoneRadius, ReactionWindow);
      }
      var dodgeTargetRightX := playerX + StrategicDodgeDistance;
      var canPotentiallyDodgeRight := CanMoveRightSafely(playerX) && dodgeTargetRightX <= ScreenWidth;
      var idealSafeRight := false;
      if canPotentiallyDodgeRight {
        idealSafeRight := IsZoneAroundXClear(view, dodgeTargetRightX, playerY, SafeZoneRadius, ReactionWindow);
      }
      assert idealSafeLeft == SideClear(view, playerX, true, StrategicDodgeDistance, ReactionWindow);
      assert idealSafeRight == SideClear(view, playerX, false, StrategicDodgeDistance, ReactionWindow);
      var predictedBulletX := PredictedX(b, tti);

      if idealSafeLeft || idealSafeRight {
        var m := Sidestep(idealSafeLeft, idealSafeRight, predictedBulletX, playerX);
        assert ShotDodge(view, playerX, b, tti).move == m;
      } else {
        var shortPanicHorizon := MinReal(0.20, if tti > 0.0 then tti * 0.4 else 0.1);
        if shortPanicHorizon < 0.05 {
          shortPanicHorizon := 0.05;
        }
        assert shortPanicHorizon == PanicHorizon(tti);
        var panicSafeLeft := false;
        if canPotentiallyDodgeLeft {
          panicSafeLeft := IsZoneAroundXClear(view, dodgeTargetLeftX, playerY, SafeZoneRadius, shortPanicHorizon);
        }
        var panicSafeRight := false;
        if canPotentiallyDodgeRight {
          panicSafeRight := IsZoneAroundXClear(view, dodgeTargetRightX, playerY, SafeZoneRadius, shortPanicHorizon);
        }
        assert panicSafeLeft == SideClear(view, playerX, true, StrategicDodgeDistance, shortPanicHorizon);
        assert panicSafeRight == SideClear(view, playerX, false, StrategicDodgeDistance, shortPanicHorizon);
        if panicSafeLeft || panicSafeRight {
          var m := Sidestep(panicSafeLeft, panicSafeRight, predictedBulletX, playerX);
          assert ShotDodge(view, playerX, b, tti).move == m;
        } else {
          MicroDodge(view, playerX, predictedBulletX, shortPanicHorizon);
          assert ShotDodge(view, playerX, b, tti).move == MicroOrTeleport(view, playerX, predictedBulletX, shortPanicHorizon);
        }
      }
    }

    /** The micro tier of performStrategicDodge: a 17-pixel sidestep clear for the
        panic horizon, or the shortest teleport when neither side is. */
    method MicroDodge(view: seq<Entity>, playerX: real, predictedBulletX: real, horizon: real)
      requires player.x == playerX
      modifies player
      ensures player.State() == ApplyMove(old(player.State()), MicroOrTeleport(view, playerX, predictedBulletX, horizon))
    {
      var playerY := PreferredY;
      var smallDodgeDistance := StrategicDodgeDistance * 0.5;
      var panicSmallDodgeLeftX := playerX - smallDodgeDistance;
      var panicSmallDodgeRightX := playerX + smallDodgeDistance;
      var panicSafeSmallLeft := false;
      if CanMoveLeftSafely(playerX) && panicSmallDodgeLeftX >= 0.0 {
        panicSafeSmallLeft := IsZoneAroundXClear(view, panicSmallDodgeLeftX, playerY, SafeZoneRadius, horizon);
      }
      var panicSafeSmallRight := false;
      if CanMoveRightSafely(playerX) && panicSmallDodgeRightX <= ScreenWidth {
        panicSafeSmallRight := IsZoneAroundXClear(view, panicSmallDodgeRightX, playerY, SafeZoneRadius, horizon);
      }
      assert panicSafeSmallLeft == SideClear(view, playerX, true, smallDodgeDistance, horizon);
      assert panicSafeSmallRight == SideClear(view, playerX, false, smallDodgeDistance, horizon);
      if panicSafeSmallLeft || panicSafeSmallRight {
        if panicSafeSmallLeft && panicSafeSmallRight {
          if predictedBulletX > playerX {
            player.SetMoveLeft(true);
          } else {
            player.SetMoveRight(true);
          }
        } else if panicSafeSmallLeft {
          player.SetMoveLeft(true);
        } else {
          player.SetMoveRight(true);
        }
      } else {
        ShortestTeleportOver(view);
      }
    }

    /** The side choice shared by the ideal and panic sidesteps. */
    method Sidestep(safeLeft: bool, safeRight: bool, predictedBulletX: real, playerX: real) returns (m: Move)
      requires safeLeft || safeRight
      modifies player
      ensures m == PickSide(safeLeft, safeRight, predictedBulletX, playerX)
      ensures player.State() == ApplyMove(old(player.State()), m)
    {
      if safeLeft && safeRight {
        if predictedBulletX > playerX + PlayerWidth * 0.05 {
          m := GoLeft;
        } else if predictedBulletX < playerX - PlayerWidth * 0.05 {
          m := GoRight;
        } else {
          m := if playerX < ScreenWidth / 2.0 then GoRight else GoLeft;
        }
      } else if safeLeft {
        m := GoLeft;
      } else {
        m := GoRight;
      }
      if m == GoLeft {
        player.SetMoveLeft(true);
      } else {
        player.SetMoveRight(true);
      }
    }

    /** performStrategicDodge: choose the shot to dodge, then dodge it, or the
        threatening hull, or teleport. */
    method PerformStrategicDodge()
      modifies player
      ensures State() == Dodged(old(State()), gameObjectsView)
    {
      var bulletToDodge := threateningBullet;
      if bulletToDodge.None? || threateningBulletActualTTI > ImmediateDodgeThreshold * 1.2 {
        bulletToDodge := FindClosestBulletThreateningPosition(gameObjectsView, player.x, PreferredY,
                                                              ImmediateDodgeThreshold * 1.2);
      }
      assert bulletToDodge == BulletToDodge(gameObjectsView, player.x, threateningBullet, threateningBulletActualTTI);
      if bulletToDodge.None? {
        if threateningEnemyBody.Some? {
          PerformEnemyBodyDodge(threateningEnemyBody.value);
        } else {
          FindAndExecuteShortestTeleport();
        }
        return;
      }
      DodgeShot(gameObjectsView, bulletToDodge.value, threateningBulletActualTTI);
    }

    /** tryToShoot: raise the wish to shoot when 20 ms have passed since the last
        attempt, and stamp the attempt. */
    method TryToShoot(now: int)
      modifies this, player
      ensures gameObjectsView == old(gameObjectsView)
      ensures State() == TriedToShoot(old(State()), now)
    {
      var currentTime := now;
      if currentTime - lastAITriedToShootTime > ShootCooldownMs {
        player.SetWantsToShoot(true);
        lastAITriedToShootTime := currentTime;
      }
    }

    /** The attack step of updateAI: align with the target in x if the step is safe,
        and once aligned either fire, or dodge when there is no time to fire and
        still dodge the main threat. */
    method AttackTarget(now: int) returns (isMovingXForAttack: bool, shotThisFrame: bool)
      modifies this, player
      ensures gameObjectsView == old(gameObjectsView)
      ensures Engagement(State(), isMovingXForAttack, shotThisFrame) == Attacked(old(State()), gameObjectsView, now)
    {
      isMovingXForAttack, shotThisFrame := false, false;
      if currentTargetEnemy.None? {
        return;
      }
      var target := currentTargetEnemy.value;
      isMovingXForAttack := AlignWithTarget(target.x);
      var isAligned := IsTargetAligned(currentTargetEnemy, player.x, player.y, PlayerWidth * AlignmentToleranceFactor);
      if isAligned && !isMovingXForAttack {
        shotThisFrame := ShootOrDodge(now);
      }
    }

    /** Step toward the target's x when more than 1.5 pixels off and the step is
        safe; answers whether a step was taken. */
    method AlignWithTarget(desiredTargetX: real) returns (isMovingXForAttack: bool)
      modifies player
      ensures State() == old(State()).(ship := ApplyMove(old(State()).ship, AlignMove(gameObjectsView, old(player.x), desiredTargetX)))
      ensures isMovingXForAttack == (AlignMove(gameObjectsView, old(player.x), desiredTargetX) != Stay)
    {
      isMovingXForAttack := false;
      var needsToAlignX := Abs(player.x - desiredTargetX) > PlayerWidth * AlignmentToleranceFactor * 0.05;
      if needsToAlignX {
        // Math.signum(desiredTargetX - x) is never zero here
        var nextStepX := if desiredTargetX > player.x then player.x + PlayerWidth * 0.35 else player.x - PlayerWidth * 0.35;
        var clear := IsZoneAroundXClear(gameObjectsView, nextStepX, PreferredY, SafeZoneRadius, ReactionWindow);
        if clear {
          if player.x < desiredTargetX && CanMoveRightSafely(player.x) {
            player.SetMoveRight(true);
            isMovingXForAttack := true;
          } else if player.x > desiredTargetX && CanMoveLeftSafely(player.x) {
            player.SetMoveLeft(true);
            isMovingXForAttack := true;
          }
        }
      }
    }

    /** Once aligned and still: fire when a shot leaves time to dodge the main
        threat and the spot is clear for firing, otherwise dodge and drop the wish
        to shoot; answers whether a shot was fired. */
    method ShootOrDodge(now: int) returns (shotThisFrame: bool)
      modifies this, player
      ensures gameObjectsView == old(gameObjectsView)
      ensures Engagement(State(), false, shotThisFrame) == ShotOrDodged(old(State()), gameObjectsView, now)
    {
      shotThisFrame := false;
      var timeForShotExecution := (ShootCooldownMs as real) / 1000.0;
      var timeToReactAfterShotAndPause := ImmediateDodgeThreshold + (PostShotPauseMs as real) / 1000.0;
      var safetyBufferForShooting := 0.12;
      var totalTimeNeededToShootAndBeReadyToDodge :=
        timeForShotExecution + timeToReactAfterShotAndPause + safetyBufferForShooting;
      var canShootAndStillDodgeThreat :=
        threateningBullet.None? || threateningBulletActualTTI >= totalTimeNeededToShootAndBeReadyToDodge;
      var currentPosClearForFiring := IsZoneAroundXClear(gameObjectsView, player.x, PreferredY, FiringRadius, ReactionWindow);
      if canShootAndStillDodgeThreat && currentPosClearForFiring {
        TryToShoot(now);
        if player.wantsToShoot {
          lastAIShotDecisionTime := now;
          shotThisFrame := true;
          if currentTargetEnemy.Some? && currentTargetEnemy.value.kind.NormalEnemy? {
            recentlyShot := recentlyShot[currentTargetEnemy.value.id := now];
          }
        }
      } else if !canShootAndStillDodgeThreat && threateningBullet.Some? {
        PerformStrategicDodge();
        if player.wantsToShoot {
          player.SetWantsToShoot(false);
        }
      } else if !currentPosClearForFiring {
        PerformStrategicDodge();
        if player.wantsToShoot {
          player.SetWantsToShoot(false);
        }
      }
    }

    /** The power-up step of updateAI: head for the best power-up when it is near
        enough and its zone is clear for 1.5 s, otherwise forget it. */
    method ChasePowerUp(lives: int, dist: Distance) returns (isMovingXForPowerUp: bool)
      modifies this, player
      ensures gameObjectsView == old(gameObjectsView)
      ensures (State(), isMovingXForPowerUp) == PowerUpChase(old(State()), gameObjectsView, lives, dist)
    {
      isMovingXForPowerUp := false;
      FindBestPowerUpTarget(lives, dist);
      if targetPowerUp.Some? {
        var pu := targetPowerUp.value;
        var powerUpIsReachableY := Abs(pu.y - PreferredY) < PlayerHeight * 2.8
                                   || (pu.y > PreferredY && pu.y < ScreenHeight - pu.height / 2.0);
        if powerUpIsReachableY && Abs(pu.x - player.x) < ScreenWidth / 1.8 {
          var clear := IsZoneAroundXClear(gameObjectsView, pu.x, PreferredY, SafeZoneRadius, ReactionWindow);
          if clear {
            if Abs(player.x - pu.x) > PlayerWidth * 0.08 {
              if player.x < pu.x {
                player.SetMoveRight(true);
              } else {
                player.SetMoveLeft(true);
              }
              isMovingXForPowerUp := true;
            }
          } else {
            targetPowerUp := None;
          }
        } else {
          targetPowerUp := None;
        }
      }
    }

    /** The idle drift at the end of updateAI; `roll` is nextInt(280) and `coin`
        nextBoolean. */
    method Drift(busy: bool, roll: int, coin: bool)
      modifies player
      ensures State() == Drifted(old(State()), gameObjectsView, busy, roll, coin)
    {
      if !busy && !player.moveLeft && !player.moveRight {
        var safe := IsZoneAroundXClear(gameObjectsView, player.x, PreferredY, SafeZoneRadius, IdleHorizon);
        if safe && Abs(player.y - PreferredY) < YTolerance {
          if roll < 1 {
            var tryMoveRight := coin;
            var checkXRandom := player.x + (if tryMoveRight then RepositionShift * 0.6 else -RepositionShift * 0.6);
            if tryMoveRight {
              if CanMoveRightSafely(player.x) {
                var clear := IsZoneAroundXClear(gameObjectsView, checkXRandom, PreferredY, SafeZoneRadius, IdleHorizon);
                if clear {
                  player.SetMoveRight(true);
                }
              }
            } else {
              if CanMoveLeftSafely(player.x) {
                var clear := IsZoneAroundXClear(gameObjectsView, checkXRandom, PreferredY, SafeZoneRadius, IdleHorizon);
                if clear {
                  player.SetMoveLeft(true);
                }
              }
            }
          }
        }
      }
    }

    /** updateAI: one tick of the pilot over the snapshot `currentGameState`, with
        `now` the clock for the whole tick, `lives` the game's life count, `dist`
        the distance function and `roll`, `coin` the random draws. */
    method UpdateAI(currentGameState: seq<Entity>, now: int, lives: int, dist: Distance, roll: int, coin: bool)
      modifies this, player
      ensures gameObjectsView == currentGameState
      ensures State() == Tick(old(State()), currentGameState, now, lives, dist, roll, coin)
    {
      gameObjectsView := currentGameState;
      player.ResetMovementFlags();
      CleanupRecentlyShot(now);
      AssessThreateningBullets();
      AssessProximityThreats();
      ghost var p := State();
      assert p == Prepared(old(State()), currentGameState, now);

      var safe := IsZoneAroundXClear(gameObjectsView, player.x, PreferredY, SafeZoneRadius, ReactionWindow);
      if !safe {
        PerformStrategicDodge();
        AdjustYToPreferredPosition();
        return;
      }
      if now - lastAIShotDecisionTime < PostShotPauseMs {
        player.SetWantsToShoot(false);
        if threateningBullet.Some? && threateningBulletActualTTI < ImmediateDodgeThreshold * 1.1 {
          PerformStrategicDodge();
        } else if threateningEnemyBody.Some? {
          PerformEnemyBodyDodge(threateningEnemyBody.value);
        }
        AdjustYToPreferredPosition();
        return;
      }
      player.SetWantsToShoot(false);
      if threateningEnemyBody.Some? && !(player.moveLeft || player.moveRight) {
        PerformEnemyBodyDodge(threateningEnemyBody.value);
        if player.moveLeft || player.moveRight {
          AdjustYToPreferredPosition();
          return;
        }
      }
      ghost var q := State();
      FindBestEnemyTargetToAttack(now);
      var isMovingXForAttack, shotThisFrame := AttackTarget(now);
      var isMovingXForPowerUp := false;
      if !isMovingXForAttack && !shotThisFrame && !(player.moveLeft || player.moveRight) {
        isMovingXForPowerUp := ChasePowerUp(lives, dist);
      }
      AdjustYToPreferredPosition();
      Drift(isMovingXForAttack || isMovingXForPowerUp || shotThisFrame, roll, coin);
      assert State() == Engaged(q, currentGameState, now, lives, dist, roll, coin);
    }
  }

  /** The search loop of findAndExecuteShortestTeleport: the candidates 8, 16, ...
      pixels away from x, up to 200, each first to the right and then to the
      left, until one lies on the screen with its zone clear for 1.5 s. */
  method TeleportSearch(view: seq<Entity>, currentX: real) returns (spot: Option<real>)
    ensures spot == TeleportSpot(view, currentX)
  {
    var searchStep := PlayerWidth * 0.20;
    var maxSearchRadius := ScreenWidth / 2.5;
    var r := searchStep;
    ghost var k: nat := 1;
    while r <= maxSearchRadius
      invariant 1 <= k <= TeleportCandidates + 1
      invariant r == Offset(k)
      invariant TeleportSpot(view, currentX) == TeleportFrom(view, currentX, k)
      decreases TeleportCandidates + 1 - k
    {
      TeleportRadiusBound(k);
      spot := TryTeleportCandidate(view, currentX, r, k);
      if spot.Some? {
        assert spot == TeleportFrom(view, currentX, k);
        return;
      }
      assert TeleportFrom(view, currentX, k) == TeleportFrom(view, currentX, k + 1);
      r := r + searchStep;
      k := k + 1;
    }
    TeleportRadiusBound(k);
    return None;
  }

  /** One round of the search loop: the spot r pixels right of x if it is on the
      screen and clear, else the spot r pixels left of it on the same terms. */
  method TryTeleportCandidate(view: seq<Entity>, currentX: real, r: real, ghost k: nat) returns (spot: Option<real>)
    requires r == Offset(k)
    ensures spot == Candidate(view, currentX, k)
  {
    var targetXRight := currentX + r;
    if targetXRight + PlayerWidth / 2.0 < ScreenWidth {
      var clear := IsZoneAroundXClear(view, targetXRight, PreferredY, SafeZoneRadius, ReactionWindow);
      if clear {
        return Some(targetXRight);
      }
    }
    var targetXLeft := currentX - r;
    if targetXLeft - PlayerWidth / 2.0 > 0.0 {
      var clear := IsZoneAroundXClear(view, targetXLeft, PreferredY, SafeZoneRadius, ReactionWindow);
      if clear {
        return Some(targetXLeft);
      }
    }
    return None;
  }

  /** The loop of assessThreateningBullets: the live enemy shot that hits
      the player's row soonest within 1.5 s and lands within reach of its x, the
      first such on a tie, with its time to impact (Double.MAX_VALUE if none). */
  method ThreatScan(view: seq<Entity>, px: real, py: real) returns (bullet: Option<Entity>, tti: real)
    ensures bullet == Pick(view, ThreatChoice(view, px, py))
    ensures tti == ThreatTti(view, px, py)
  {
    ghost var costs := ThreatCosts(view, px, py);
    ghost var best: Option<nat> := None;
    bullet := None;
    tti := DoubleMax;
    for k := 0 to |view|
      invariant best.Some? ==> best.value < k && costs[best.value].Some?
      invariant MinFrom(costs, k, best) == FirstMin(costs)
      invariant bullet == Pick(view, best)
      invariant tti == if best.Some? then costs[best.value].value else DoubleMax
    {
      var obj := view[k];
      var candidate := ThreatTimeOf(obj, px, py);
      assert candidate == costs[k];
      if candidate.Some? && candidate.value < tti {
        tti := candidate.value;
        bullet := Some(obj);
        best := Some(k);
      }
    }
  }

  /** The test of one object in that loop: a live enemy shot reaching the row
      within 1.5 s at an x within the player's half width plus the buffer. */
  method ThreatTimeOf(obj: Entity, px: real, py: real) returns (candidate: Option<real>)
    ensures candidate == (if obj.kind.EnemyShot? && !obj.dead then ThreatTime(obj, px, py) else None)
  {
    candidate := None;
    if obj.kind.EnemyShot? && !obj.dead {
      var timeToImpactY := ImpactTime(obj, py);
      if timeToImpactY.Some? && 0.0 <= timeToImpactY.value < ReactionWindow {
        var predictedBulletX := obj.x + obj.vx * timeToImpactY.value;
        if px - PlayerWidth / 2.0 - XDetectionBuffer <= predictedBulletX <= px + PlayerWidth / 2.0 + XDetectionBuffer {
          candidate := timeToImpactY;
        }
      }
    }
  }

  /** The loop of findBestEnemyTargetToAttack: the best-scoring live normal enemy
      not shot at recently, unless the last live boss scores higher or there is
      no such enemy. */
  method EnemyTargetScan(view: seq<Entity>, px: real, memory: map<EntityId, int>, now: int)
    returns (target: Option<Entity>)
    ensures target == Pick(view, EnemyTarget(view, px, memory, now))
  {
    ghost var costs := NormalTargetCosts(view, px, memory, now);
    ghost var best: Option<nat> := None;
    ghost var boss: Option<nat> := None;
    target := None;
    var bestScore := -DoubleMax;
    var tempBossTarget: Option<Entity> := None;
    for k := 0 to |view|
      invariant best.Some? ==> best.value < k && costs[best.value].Some?
      invariant MinFrom(costs, k, best) == FirstMin(costs)
      invariant target == Pick(view, best)
      invariant bestScore == if best.Some? then -costs[best.value].value else -DoubleMax
      invariant boss == LastLiveBoss(view[..k])
      invariant boss.Some? ==> boss.value < k
      invariant tempBossTarget == Pick(view, boss)
    {
      var obj := view[k];
      assert view[..k + 1][..k] == view[..k];
      if !obj.dead {
        if obj.kind.Boss? {
          tempBossTarget := Some(obj);
          boss := Some(k);
        } else if obj.kind.NormalEnemy? && !RecentlyShot(memory, obj.id, now) {
          var score := NormalEnemyScore(obj, px);
          if score > bestScore {
            bestScore := score;
            target := Some(obj);
            best := Some(k);
          }
        }
      }
    }
    assert view[..|view|] == view;
    if tempBossTarget.Some? {
      var bossScore := BossScore(tempBossTarget.value, px);
      if bossScore > bestScore || target.None? {
        target := tempBossTarget;
      }
    }
  }
}
