/** The SpaceShooter game object: the fields its game loop updates and the
    methods that update them. Each method changes the fields step by step, as
    the game does, and is proved to leave them as the matching function of
    modules Waves, Collisions and Cleanup says; what those functions keep and
    promise is proved there. */
module Shooter {
  import opened Common
  import opened Entities
  import opened PlayerShip
  import opened ShooterState
  import opened Waves
  import opened Collisions
  import opened Cleanup

  class SpaceShooter {
    var score: int
    var numLives: int
    var gameRunning: bool
    var gameObjects: seq<Entity>
    var newObjects: seq<Entity>
    var player: Hero
    var enemySpawnTimer: int
    var powerUpSpawnTimer: int
    var currentEnemySpawnInterval: int
    var waveNumber: int
    var waveBossFightActive: bool
    var bossesToDefeatInWave: int
    var bossesDefeatedThisWave: int
    var stationaryBossInstance: Option<EntityId>
    var stationaryBossSpawned: bool
    var stationaryBossDefeated: bool
    var finalBossesTriggered: bool
    var finalBossFightActive: bool
    var nextId: nat

    function State(): Game
      reads this
    {
      Game(score, numLives, gameRunning, gameObjects, newObjects, player,
           enemySpawnTimer, powerUpSpawnTimer, currentEnemySpawnInterval,
           waveNumber, waveBossFightActive, bossesToDefeatInWave, bossesDefeatedThisWave,
           stationaryBossInstance, stationaryBossSpawned, stationaryBossDefeated,
           finalBossesTriggered, finalBossFightActive, nextId)
    }

    // ---------------------------------------------------------------- difficulty and spawning

    method AdjustDifficulty()
      modifies this
      ensures State() == Difficulty(old(State()))
    {
      var waveFactor := waveNumber - 1;
      var interval := BaseSpawnInterval - waveFactor * WaveSpawnStep - JavaDiv(score, ScorePerSpawnStep);
      currentEnemySpawnInterval := if interval > MinSpawnInterval then interval else MinSpawnInterval;
    }

    /** `!obj.isDead()` for the object with the given id: whether either list
        still holds it alive. */
    method IsAlive(id: EntityId) returns (alive: bool)
      ensures alive == LiveIn(gameObjects + newObjects, id)
    {
      var all := gameObjects + newObjects;
      alive := false;
      var k := 0;
      while k < |all|
        invariant 0 <= k <= |all|
        invariant alive <==> exists m :: 0 <= m < k && all[m].id == id && !all[m].dead
      {
        if all[k].id == id && !all[k].dead {
          alive := true;
        }
        k := k + 1;
      }
    }

    /** spawnNormalEnemies, with `rand` the nextDouble draw. */
    method SpawnNormalEnemies(rand: real)
      modifies this
      ensures State() == EnemySpawned(old(State()), rand)
    {
      var canSpawnNormal := true;
      if waveBossFightActive || finalBossFightActive {
        canSpawnNormal := false;
      }
      if waveNumber == LastWave && stationaryBossSpawned && stationaryBossInstance.Some? && !finalBossFightActive {
        var alive := IsAlive(stationaryBossInstance.value);
        if alive {
          canSpawnNormal := true;
        }
      }
      if canSpawnNormal {
        enemySpawnTimer := enemySpawnTimer + 1;
        if enemySpawnTimer >= currentEnemySpawnInterval {
          enemySpawnTimer := 0;
          var minCenterX := EnemySize / 2.0;
          var maxCenterX := ScreenWidth - EnemySize / 2.0;
          var spawnableWidth := maxCenterX - minCenterX;
          if spawnableWidth <= 0.0 {
            spawnableWidth := MaxReal(1.0, ScreenWidth - EnemySize);
          }
          var enemy := Entity(nextId, NormalEnemy, minCenterX + rand * spawnableWidth, -EnemySize / 2.0,
                              EnemySize, EnemySize, 0.0, 0.0, false);
          assert enemy == NewEnemy(nextId, rand);
          newObjects := newObjects + [enemy];
          nextId := nextId + 1;
        }
      }
    }

    /** spawnPowerUp, with `rand` the nextDouble draw and `typeChoice` the
        nextInt(3) draw. */
    method SpawnPowerUp(rand: real, typeChoice: int)
      modifies this
      ensures State() == PowerUpSpawned(old(State()), rand, typeChoice)
    {
      powerUpSpawnTimer := powerUpSpawnTimer + 1;
      if powerUpSpawnTimer >= PowerUpSpawnInterval {
        powerUpSpawnTimer := 0;
        var centerX := PowerUpSize / 2.0 + rand * (ScreenWidth - PowerUpSize);
        var centerY := -PowerUpSize / 2.0;
        var kind := if typeChoice == 0 then Shield else if typeChoice == 1 then TripleShot else HealthPack;
        newObjects := newObjects + [Entity(nextId, Item(kind), centerX, centerY, PowerUpSize, PowerUpSize, 0.0, 0.0, false)];
        nextId := nextId + 1;
      }
    }

    method SpawnBossesForWave(waveNum: int)
      modifies this
      ensures State() == BossesForWave(old(State()), waveNum)
    {
      bossesDefeatedThisWave := 0;
      if waveNum == 1 {
        AddBosses(WaveBosses(nextId, 1));
        StartWaveFight(1);
      } else if waveNum == 2 {
        AddBosses(WaveBosses(nextId, 2));
        StartWaveFight(2);
      } else if waveNum == 3 {
        AddBosses(WaveBosses(nextId, 3));
        StartFinalFight();
      }
    }

    /** New bosses join newObjects, each with the next fresh id. */
    method AddBosses(bosses: seq<Entity>)
      modifies this
      ensures State() == old(State()).(spawned := old(newObjects) + bosses, nextId := old(nextId) + |bosses|)
    {
      newObjects, nextId := newObjects + bosses, nextId + |bosses|;
    }

    /** A wave fight against `n` bosses begins. */
    method StartWaveFight(n: int)
      modifies this
      ensures State() == old(State()).(waveFight := true, finalFight := false, toDefeat := n)
    {
      waveBossFightActive, finalBossFightActive, bossesToDefeatInWave := true, false, n;
    }

    /** The final fight against three bosses begins. */
    method StartFinalFight()
      modifies this
      ensures State() == old(State()).(finalTriggered := true, finalFight := true, waveFight := false, toDefeat := 3)
    {
      finalBossesTriggered, finalBossFightActive, waveBossFightActive, bossesToDefeatInWave := true, true, false, 3;
    }

    method SpawnStationaryBoss()
      modifies this
      ensures State() == StationarySpawned(old(State()))
    {
      var eligible := false;
      if !stationaryBossSpawned {
        if stationaryBossInstance.None? {
          eligible := true;
        } else {
          var alive := IsAlive(stationaryBossInstance.value);
          eligible := !alive;
        }
      }
      if eligible {
        stationaryBossInstance := Some(nextId);
        AddBosses([NewBoss(nextId, ScreenWidth / 2.0, 100.0)]);
        stationaryBossSpawned, stationaryBossDefeated := true, false;
      }
    }

    method ManageWaveStateAndBossSpawning()
      modifies this
      ensures State() == ManageWave(old(State()))
    {
      if waveNumber == 1 {
        WaveOne();
      } else if waveNumber == 2 {
        WaveTwo();
      } else if waveNumber == 3 {
        CheckStationaryBoss();
        FinalWave();
      }
    }

    method WaveOne()
      modifies this
      ensures State() == WaveOneStep(old(State()))
    {
      if !waveBossFightActive && score >= Wave1BossScore {
        SpawnBossesForWave(1);
      }
      if waveBossFightActive && bossesDefeatedThisWave >= bossesToDefeatInWave {
        waveNumber, waveBossFightActive, bossesDefeatedThisWave := 2, false, 0;
      }
    }

    method WaveTwo()
      modifies this
      ensures State() == WaveTwoStep(old(State()))
    {
      if !waveBossFightActive && score >= Wave2BossesScore {
        SpawnBossesForWave(2);
      }
      if waveBossFightActive && bossesDefeatedThisWave >= bossesToDefeatInWave {
        waveNumber, waveBossFightActive, bossesDefeatedThisWave := 3, false, 0;
        SpawnStationaryBoss();
      }
    }

    method CheckStationaryBoss()
      modifies this
      ensures State() == StationaryChecked(old(State()))
    {
      if stationaryBossSpawned && stationaryBossInstance.Some? && !stationaryBossDefeated {
        var alive := IsAlive(stationaryBossInstance.value);
        if !alive {
          stationaryBossDefeated, stationaryBossInstance := true, None;
        }
      }
    }

    method FinalWave()
      modifies this
      ensures State() == FinalStep(old(State()))
    {
      if stationaryBossDefeated && score >= FinalBossesScore && !finalBossesTriggered && !finalBossFightActive {
        SpawnBossesForWave(3);
      }
      if finalBossFightActive && bossesDefeatedThisWave >= bossesToDefeatInWave {
        gameRunning := false;
      }
    }

    // ---------------------------------------------------------------- collisions

    /** Player shots against enemies. */
    method ShotsAgainstEnemies()
      modifies this
      ensures var r := ShotsScan(old(gameObjects), old(score), 0);
        State() == old(State()).(objects := r.0, score := r.1)
    {
      var objs, sc := ShotsLoop(gameObjects, score);
      gameObjects, score := objs, sc;
    }

    /** The player against enemy hulls (hulls) or against enemy shots. */
    method PlayerContacts(hulls: bool)
      modifies this
      ensures var r := ContactScan(old(gameObjects), old(player), old(numLives), 0, hulls);
        State() == old(State()).(objects := r.0, hero := r.1, lives := r.2)
    {
      var objs, hero, lives := ContactLoop(gameObjects, player, numLives, hulls);
      gameObjects, player, numLives := objs, hero, lives;
    }

    /** The player against power-ups. */
    method PlayerPickups()
      modifies this
      ensures var r := PickupScan(old(gameObjects), old(player), old(numLives), old(score), 0);
        State() == old(State()).(objects := r.0, hero := r.1, lives := r.2, score := r.3)
    {
      var objs, hero, lives, sc := PickupLoop(gameObjects, player, numLives, score);
      gameObjects, player, numLives, score := objs, hero, lives, sc;
    }

    method CheckCollisions()
      modifies this
      ensures State() == Collided(old(State()))
    {
      ShotsAgainstEnemies();
      if !player.dead {
        PlayerContacts(true);
        if !player.dead {
          PlayerContacts(false);
        }
        if !player.dead {
          PlayerPickups();
        }
      }
    }

    // ---------------------------------------------------------------- end of frame

    method CheckEntitiesOutOfBounds()
      modifies this
      ensures State() == OutOfBounds(old(State()))
    {
      var r := EscapeLoop(Escapes(gameObjects, numLives, bossesDefeatedThisWave, player.dead),
                          waveBossFightActive || finalBossFightActive, stationaryBossInstance);
      gameObjects, numLives, bossesDefeatedThisWave := r.objects, r.lives, r.defeated;
      player := player.(dead := r.heroDead);
    }

    /** Steps 9 and 10 of updateGame: the new objects join the list, then the
        dead ones leave it, paying for dead bosses. */
    method SweepDeadObjects()
      modifies this
      ensures State() == Swept(Merged(old(State())))
    {
      MergeNewObjects();
      SweepDead();
    }

    /** The objects created during the frame join gameObjects. */
    method MergeNewObjects()
      modifies this
      ensures State() == Merged(old(State()))
    {
      gameObjects, newObjects := gameObjects + newObjects, [];
    }

    /** The dead objects are removed, the bosses among them rewarded. */
    method SweepDead()
      modifies this
      ensures State() == Swept(old(State()))
    {
      var kept, sc, defeated := SweepLoop(gameObjects, score, bossesDefeatedThisWave,
                                          waveBossFightActive || finalBossFightActive,
                                          stationaryBossInstance, stationaryBossSpawned);
      gameObjects, score, bossesDefeatedThisWave := kept, sc, defeated;
    }

    method RestartGameMechanics()
      modifies this
      ensures State() == Restarted(old(State()))
    {
      ResetCounters();
      ResetWaveFight();
      ResetStationaryBoss();
      ResetFinalBosses();
      AdjustDifficulty();
      ResetPlayerAndObjects();
    }

    /** Score, lives and both spawn timers back to their start values. */
    method ResetCounters()
      modifies this
      ensures State() == old(State()).(score := 0, lives := StartLives, enemyTimer := 0, powerUpTimer := 0)
    {
      score, numLives, enemySpawnTimer, powerUpSpawnTimer := 0, StartLives, 0, 0;
    }

    /** Back to wave 1 with no fight under way. */
    method ResetWaveFight()
      modifies this
      ensures State() == old(State()).(wave := 1, waveFight := false, toDefeat := 0, defeated := 0)
    {
      waveNumber, waveBossFightActive, bossesToDefeatInWave, bossesDefeatedThisWave := 1, false, 0, 0;
    }

    /** No stationary boss, neither spawned nor defeated. */
    method ResetStationaryBoss()
      modifies this
      ensures State() == old(State()).(stationary := None, stationarySpawned := false, stationaryDefeated := false)
    {
      stationaryBossInstance, stationaryBossSpawned, stationaryBossDefeated := None, false, false;
    }

    /** The final bosses neither triggered nor being fought. */
    method ResetFinalBosses()
      modifies this
      ensures State() == old(State()).(finalTriggered := false, finalFight := false)
    {
      finalBossesTriggered, finalBossFightActive := false, false;
    }

    /** The player alive at the respawn point with no key held; both lists empty. */
    method ResetPlayerAndObjects()
      modifies this
      ensures State() == old(State()).(hero := old(player).(ship := FlagsCleared(old(player).ship.(x := RespawnX, y := RespawnY)), dead := false),
                                       objects := [], spawned := [])
    {
      player := player.(ship := FlagsCleared(player.ship.(x := RespawnX, y := RespawnY)), dead := false);
      gameObjects, newObjects := [], [];
    }
  }

  // ---------------------------------------------------------------- the scans

  /** The inner loop of the shot check, for the live player shot at i. */
  method ShotHitsLoop(objs0: seq<Entity>, score0: int, i: nat) returns (objs: seq<Entity>, score: int)
    requires i < |objs0|
    ensures (objs, score) == ShotScan(objs0, score0, i, 0)
  {
    objs, score := objs0, score0;
    var j := 0;
    while j < |objs|
      invariant 0 <= j <= |objs| == |objs0|
      invariant ShotScan(objs, score, i, j) == ShotScan(objs0, score0, i, 0)
    {
      var e := objs[j];
      var bullet := objs[i];
      if IsLiveEnemy(e) && Overlaps(bullet.x, bullet.y, bullet.width, bullet.height, e) {
        objs := objs[i := Killed(bullet)];
        if !e.kind.Boss? {
          objs := objs[j := Killed(e)];
          score := score + RewardPerEnemy;
        }
      }
      j := j + 1;
    }
  }

  /** The outer loop of the shot check, over the live player shots. */
  method ShotsLoop(objs0: seq<Entity>, score0: int) returns (objs: seq<Entity>, score: int)
    ensures (objs, score) == ShotsScan(objs0, score0, 0)
  {
    objs, score := objs0, score0;
    var i := 0;
    while i < |objs|
      invariant 0 <= i <= |objs| == |objs0|
      invariant ShotsScan(objs, score, i) == ShotsScan(objs0, score0, 0)
    {
      if objs[i].kind.PlayerShot? && !objs[i].dead {
        objs, score := ShotHitsLoop(objs, score, i);
      }
      i := i + 1;
    }
  }

  /** The loop of the player-versus-hulls check (hulls) or of the
      player-versus-enemy-shots check; it breaks off once the player is dead. */
  method ContactLoop(objs0: seq<Entity>, hero0: Hero, lives0: int, hulls: bool)
    returns (objs: seq<Entity>, hero: Hero, lives: int)
    ensures (objs, hero, lives) == ContactScan(objs0, hero0, lives0, 0, hulls)
  {
    objs, hero, lives := objs0, hero0, lives0;
    var i := 0;
    while i < |objs|
      invariant 0 <= i <= |objs| == |objs0|
      invariant ContactScan(objs, hero, lives, i, hulls) == ContactScan(objs0, hero0, lives0, 0, hulls)
    {
      var e := objs[i];
      if ContactTarget(e, hulls) && Touches(hero, e) {
        if !hero.shield && !hero.tempInvincible {
          lives := lives - 1;
          hero := hero.(ship := FlagsCleared(hero.ship));
          hero := hero.(ship := hero.ship.(x := RespawnX, y := RespawnY));
          if lives <= 0 {
            hero := hero.(dead := true);
          } else {
            hero := hero.(tempInvincible := true);
          }
        }
        if !(hulls && e.kind.Boss?) {
          objs := objs[i := Killed(e)];
        }
        if hero.dead {
          return;
        }
      }
      i := i + 1;
    }
  }

  /** The loop of the power-up check. */
  method PickupLoop(objs0: seq<Entity>, hero0: Hero, lives0: int, score0: int)
    returns (objs: seq<Entity>, hero: Hero, lives: int, score: int)
    ensures (objs, hero, lives, score) == PickupScan(objs0, hero0, lives0, score0, 0)
  {
    objs, hero, lives, score := objs0, hero0, lives0, score0;
    var i := 0;
    while i < |objs|
      invariant 0 <= i <= |objs| == |objs0|
      invariant PickupScan(objs, hero, lives, score, i) == PickupScan(objs0, hero0, lives0, score0, 0)
    {
      var e := objs[i];
      if e.kind.Item? && !e.dead && Touches(hero, e) {
        match e.kind.powerUp {
          case HealthPack =>
            if lives < HealthPackLifeCap {
              lives := lives + 1;
            }
            score := score + RewardHealthPack;
          case Shield =>
            hero := hero.(shield := true);
          case TripleShot =>
            hero := hero.(tripleShot := true);
        }
        objs := objs[i := Killed(e)];
      }
      i := i + 1;
    }
  }

  /** The loop of checkEntitiesOutOfBounds. */
  method EscapeLoop(s0: Escapes, fight: bool, stationary: Option<EntityId>) returns (s: Escapes)
    ensures s == EscapesFrom(s0, 0, fight, stationary)
  {
    var objs, lives, defeated, heroDead := s0.objects, s0.lives, s0.defeated, s0.heroDead;
    var i := 0;
    while i < |objs|
      invariant 0 <= i <= |objs| == |s0.objects|
      invariant EscapesFrom(Escapes(objs, lives, defeated, heroDead), i, fight, stationary)
                == EscapesFrom(s0, 0, fight, stationary)
    {
      var obj := objs[i];
      if !obj.dead {
        if IsEnemy(obj) {
          if obj.y - obj.height / 2.0 > ScreenHeight {
            objs := objs[i := Killed(obj)];
            if !obj.kind.Boss? {
              lives := lives - EnemyEscapeCost;
            } else if stationary != Some(obj.id) {
              if fight {
                defeated := defeated + 1;
              }
              lives := lives - BossEscapeCost;
            }
            if lives <= 0 {
              heroDead := true;
            }
          }
        } else if obj.kind.PlayerShot? && obj.y + obj.height / 2.0 < 0.0 {
          objs := objs[i := Killed(obj)];
        } else if (obj.kind.EnemyShot? || obj.kind.Item?) && obj.y - obj.height / 2.0 > ScreenHeight {
          objs := objs[i := Killed(obj)];
        }
      }
      i := i + 1;
    }
    s := Escapes(objs, lives, defeated, heroDead);
  }

  /** The loop of the sweep: the live objects are kept in order, each dead boss
      pays 150 points if it is the stationary boss and 50 otherwise, and while a
      fight is on each dead wave boss adds a defeat. */
  method SweepLoop(all: seq<Entity>, score0: int, defeated0: int, fight: bool,
                   stationary: Option<EntityId>, stationarySpawned: bool)
    returns (kept: seq<Entity>, score: int, defeated: int)
    ensures kept == Survivors(all)
    ensures score == score0 + BossRewards(all, stationary, stationarySpawned)
    ensures defeated == defeated0 + FightDefeats(all, stationary, fight)
  {
    var stationaryReward := if stationarySpawned then RewardStationaryBoss else RewardPerBoss;
    kept, score, defeated := [], score0, defeated0;
    var i := 0;
    while i < |all|
      invariant 0 <= i <= |all|
      invariant kept == Survivors(all[..i])
      invariant score == score0 + RewardPerBoss * Count(all[..i], DeadWaveBoss(stationary))
                                + stationaryReward * Count(all[..i], DeadStationary(stationary))
      invariant defeated == defeated0 + (if fight then Count(all[..i], DeadWaveBoss(stationary)) else 0)
    {
      var obj := all[i];
      assert all[..i + 1][..i] == all[..i];
      if obj.dead {
        if obj.kind.Boss? {
          score := score + (if stationary == Some(obj.id) && stationarySpawned then RewardStationaryBoss else RewardPerBoss);
          if fight {
            if stationary != Some(obj.id) {
              defeated := defeated + 1;
            }
          }
        }
      } else {
        kept := kept + [obj];
      }
      i := i + 1;
    }
    assert all[..i] == all;
  }
}
