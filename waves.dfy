/** The progression logic of SpaceShooter: the difficulty formula, the spawn
    timers for enemies and power-ups, and the wave state machine that spawns the
    bosses of each wave and ends the game when the final bosses are beaten. */
module Waves {
  import opened Common
  import opened Entities
  import opened ShooterState

  // ---------------------------------------------------------------- difficulty

  /** adjustDifficulty: 170 frames, less 28 per wave after the first and one per
      90 points (Java's truncating division), but never under 40. */
  function SpawnInterval(wave: int, score: int): (r: int)
    ensures r >= MinSpawnInterval
    ensures r >= BaseSpawnInterval - (wave - 1) * WaveSpawnStep - JavaDiv(score, ScorePerSpawnStep)
    ensures r == MinSpawnInterval || r == BaseSpawnInterval - (wave - 1) * WaveSpawnStep - JavaDiv(score, ScorePerSpawnStep)
  {
    var waveFactor := wave - 1;
    if BaseSpawnInterval - waveFactor * WaveSpawnStep - JavaDiv(score, ScorePerSpawnStep) > MinSpawnInterval
    then BaseSpawnInterval - waveFactor * WaveSpawnStep - JavaDiv(score, ScorePerSpawnStep)
    else MinSpawnInterval
  }

  /** Java's integer division by 90 never decreases as the dividend grows. */
  lemma ScoreStepsMonotone(a: int, b: int)
    requires a <= b
    ensures JavaDiv(a, ScorePerSpawnStep) <= JavaDiv(b, ScorePerSpawnStep)
  {
    if 0 <= a {
      assert a == 90 * (a / 90) + a % 90 && b == 90 * (b / 90) + b % 90;
    } else if b < 0 {
      assert -a == 90 * ((-a) / 90) + (-a) % 90 && -b == 90 * ((-b) / 90) + (-b) % 90;
    } else {
      assert JavaDiv(a, ScorePerSpawnStep) <= 0 <= JavaDiv(b, ScorePerSpawnStep);
    }
  }

  /** Waves and points only make enemies come faster: the interval never grows
      when the wave or the score grows. */
  lemma SpawnIntervalMonotone(w1: int, s1: int, w2: int, s2: int)
    requires w1 <= w2 && s1 <= s2
    ensures SpawnInterval(w2, s2) <= SpawnInterval(w1, s1)
  {
    ScoreStepsMonotone(s1, s2);
    assert (w2 - 1) * WaveSpawnStep >= (w1 - 1) * WaveSpawnStep;
  }

  /** adjustDifficulty applied to the game: only the spawn interval changes, to
      the one of the current wave and score. */
  function Difficulty(g: Game): (r: Game)
    ensures r.spawnInterval == SpawnInterval(g.wave, g.score)
    ensures r.(spawnInterval := g.spawnInterval) == g
  {
    g.(spawnInterval := SpawnInterval(g.wave, g.score))
  }

  // ---------------------------------------------------------------- spawn timers

  /** Normal enemies come while no boss fight is on, and also in wave 3 while the
      stationary boss is alive and the final fight has not begun. */
  predicate CanSpawnNormal(g: Game) {
    || !(g.waveFight || g.finalFight)
    || (g.wave == LastWave && g.stationarySpawned && StationaryAlive(g) && !g.finalFight)
  }

  /** A normal enemy just above the screen, at x drawn uniformly from its
      allowed range (`rand` is the draw of nextDouble, in [0, 1)). */
  function NewEnemy(id: EntityId, rand: real): Entity {
    var minCenterX := EnemySize / 2.0;
    var maxCenterX := ScreenWidth - EnemySize / 2.0;
    var width := if maxCenterX - minCenterX <= 0.0 then MaxReal(1.0, ScreenWidth - EnemySize)
                 else maxCenterX - minCenterX;
    Entity(id, NormalEnemy, minCenterX + rand * width, -EnemySize / 2.0, EnemySize, EnemySize, 0.0, 0.0, false)
  }

  /** The timer step of spawnNormalEnemies. */
  function EnemySpawned(g: Game, rand: real): Game {
    if CanSpawnNormal(g) then
      var t := g.enemyTimer + 1;
      if t >= g.spawnInterval then
        g.(enemyTimer := 0, spawned := g.spawned + [NewEnemy(g.nextId, rand)], nextId := g.nextId + 1)
      else g.(enemyTimer := t)
    else g
  }

  /** An enemy appears exactly on the frame the timer reaches the interval, the
      timer then restarts, and a spawned enemy lies wholly within the screen's
      width; while spawning is off nothing changes. */
  lemma EnemySpawnTiming(g: Game, rand: real)
    requires 0.0 <= rand < 1.0
    ensures var r := EnemySpawned(g, rand);
      && (|r.spawned| > |g.spawned| <==> CanSpawnNormal(g) && g.enemyTimer + 1 >= g.spawnInterval)
      && (|r.spawned| > |g.spawned| ==>
            && r.enemyTimer == 0 && r.spawned == g.spawned + [r.spawned[|g.spawned|]]
            && var e := r.spawned[|g.spawned|];
               e.kind.NormalEnemy? && !e.dead && e.id == g.nextId
               && 0.0 <= e.x - e.width / 2.0 && e.x + e.width / 2.0 <= ScreenWidth)
      && (CanSpawnNormal(g) && g.enemyTimer + 1 < g.spawnInterval ==> r == g.(enemyTimer := g.enemyTimer + 1))
      && (!CanSpawnNormal(g) ==> r == g)
  {
    if CanSpawnNormal(g) && g.enemyTimer + 1 >= g.spawnInterval {
      var e := NewEnemy(g.nextId, rand);
      assert e.x == 15.0 + rand * 482.0;
      assert rand * 482.0 < 482.0;
    }
  }

  /** The power-up nextInt(3) draw: 0 a shield, 1 triple shot, otherwise a
      health pack. */
  function PowerUpKind(typeChoice: int): PowerUpType {
    if typeChoice == 0 then Shield
    else if typeChoice == 1 then TripleShot
    else HealthPack
  }

  function NewPowerUp(id: EntityId, rand: real, typeChoice: int): Entity {
    Entity(id, Item(PowerUpKind(typeChoice)), PowerUpSize / 2.0 + rand * (ScreenWidth - PowerUpSize),
           -PowerUpSize / 2.0, PowerUpSize, PowerUpSize, 0.0, 0.0, false)
  }

  /** The timer step of spawnPowerUp. */
  function PowerUpSpawned(g: Game, rand: real, typeChoice: int): Game {
    var t := g.powerUpTimer + 1;
    if t >= PowerUpSpawnInterval then
      g.(powerUpTimer := 0, spawned := g.spawned + [NewPowerUp(g.nextId, rand, typeChoice)], nextId := g.nextId + 1)
    else g.(powerUpTimer := t)
  }

  /** k frames of spawnPowerUp with the given draws. */
  function PowerUpFrames(g: Game, rands: seq<real>, kinds: seq<int>): Game
    requires |rands| == |kinds|
    decreases |rands|
  {
    if |rands| == 0 then g
    else PowerUpSpawned(PowerUpFrames(g, rands[..|rands| - 1], kinds[..|kinds| - 1]), rands[|rands| - 1], kinds[|kinds| - 1])
  }

  /** From a restarted timer, after k frames the timer reads k mod 500 and
      exactly k / 500 power-ups have appeared: one every 500 frames. The objects
      already waiting are kept, and each one added is a live power-up with a fresh
      id, taken from the id counter in order. */
  lemma {:induction false} PowerUpEvery500Frames(g: Game, rands: seq<real>, kinds: seq<int>)
    requires |rands| == |kinds| && g.powerUpTimer == 0
    ensures var r := PowerUpFrames(g, rands, kinds);
      && r.powerUpTimer == |rands| % PowerUpSpawnInterval
      && |r.spawned| == |g.spawned| + |rands| / PowerUpSpawnInterval
      && r.spawned[..|g.spawned|] == g.spawned
      && r.nextId == g.nextId + |rands| / PowerUpSpawnInterval
      && forall k :: |g.spawned| <= k < |r.spawned| ==>
           && r.spawned[k].kind.Item? && !r.spawned[k].dead
           && r.spawned[k].id == g.nextId + (k - |g.spawned|)
    decreases |rands|
  {
    if |rands| > 0 {
      var n := |rands|;
      PowerUpEvery500Frames(g, rands[..n - 1], kinds[..n - 1]);
      var p := PowerUpFrames(g, rands[..n - 1], kinds[..n - 1]);
      var r := PowerUpSpawned(p, rands[n - 1], kinds[n - 1]);
      assert PowerUpFrames(g, rands, kinds) == r;
      FrameCount(n);
      PowerUpFrame(p, rands[n - 1], kinds[n - 1]);
      assert r.spawned[..|g.spawned|] == p.spawned[..|g.spawned|];
      forall k | |g.spawned| <= k < |r.spawned|
        ensures r.spawned[k].kind.Item? && !r.spawned[k].dead
        ensures r.spawned[k].id == g.nextId + (k - |g.spawned|)
      {
        if k < |p.spawned| {
          assert r.spawned[k] == p.spawned[k];
        }
      }
    }
  }

  /** One frame of spawnPowerUp: either the timer counts up, or it wraps and one
      live power-up with the next id is appended. */
  lemma PowerUpFrame(g: Game, rand: real, typeChoice: int)
    ensures var r := PowerUpSpawned(g, rand, typeChoice);
      || (&& r.powerUpTimer == g.powerUpTimer + 1 < PowerUpSpawnInterval
          && r.spawned == g.spawned && r.nextId == g.nextId)
      || (&& g.powerUpTimer + 1 >= PowerUpSpawnInterval && r.powerUpTimer == 0
          && r.nextId == g.nextId + 1
          && |r.spawned| == |g.spawned| + 1 && r.spawned[..|g.spawned|] == g.spawned
          && var e := r.spawned[|g.spawned|];
             e.kind.Item? && !e.dead && e.id == g.nextId)
  {
    var r := PowerUpSpawned(g, rand, typeChoice);
    if g.powerUpTimer + 1 >= PowerUpSpawnInterval {
      assert r.spawned[..|g.spawned|] == g.spawned;
    }
  }

  /** The arithmetic of one more frame on a counter that wraps at 500. */
  lemma FrameCount(n: nat)
    requires n > 0
    ensures (n - 1) % PowerUpSpawnInterval + 1 >= PowerUpSpawnInterval ==>
              n % PowerUpSpawnInterval == 0 && n / PowerUpSpawnInterval == (n - 1) / PowerUpSpawnInterval + 1
    ensures (n - 1) % PowerUpSpawnInterval + 1 < PowerUpSpawnInterval ==>
              n % PowerUpSpawnInterval == (n - 1) % PowerUpSpawnInterval + 1
              && n / PowerUpSpawnInterval == (n - 1) / PowerUpSpawnInterval
  {
  }

  // ---------------------------------------------------------------- bosses

  /** The bosses spawnBossesForWave creates: one for wave 1, two for wave 2,
      the three final bosses for wave 3, numbered from `id`. */
  function WaveBosses(id: EntityId, waveNum: int): (bosses: seq<Entity>)
    ensures |bosses| == (if 1 <= waveNum <= LastWave then waveNum else 0)
    ensures forall k :: 0 <= k < |bosses| ==> IsLiveBoss(bosses[k]) && bosses[k].id == id + k
  {
    if waveNum == 1 then
      [NewBoss(id, ScreenWidth / 2.0, 120.0)]
    else if waveNum == 2 then
      [NewBoss(id, ScreenWidth / 4.0 + 30.0, 120.0),
       NewBoss(id + 1, ScreenWidth * 3.0 / 4.0 - 30.0, 150.0)]
    else if waveNum == 3 then
      [NewBoss(id, ScreenWidth / 4.0, 100.0),
       NewBoss(id + 1, ScreenWidth / 2.0, 130.0),
       NewBoss(id + 2, ScreenWidth * 3.0 / 4.0, 100.0)]
    else []
  }

  /** spawnBossesForWave: the defeat count is reset, the wave's bosses join the
      new objects and their fight starts (the final fight for wave 3). */
  function BossesForWave(g: Game, waveNum: int): Game {
    var bosses := WaveBosses(g.nextId, waveNum);
    var g1 := g.(defeated := 0, spawned := g.spawned + bosses, nextId := g.nextId + |bosses|);
    if waveNum == 1 || waveNum == 2 then
      g1.(waveFight := true, finalFight := false, toDefeat := waveNum)
    else if waveNum == 3 then
      g1.(finalTriggered := true, finalFight := true, waveFight := false, toDefeat := 3)
    else g1
  }

  /** spawnStationaryBoss: only when none was spawned yet and no earlier one is
      still alive. */
  function StationarySpawned(g: Game): Game {
    if !g.stationarySpawned && (g.stationary.None? || Gone(g, g.stationary.value)) then
      g.(spawned := g.spawned + [NewBoss(g.nextId, ScreenWidth / 2.0, 100.0)],
         stationary := Some(g.nextId), nextId := g.nextId + 1,
         stationarySpawned := true, stationaryDefeated := false)
    else g
  }

  /** The wave end test shared by every wave. */
  predicate FightWon(g: Game) {
    g.defeated >= g.toDefeat
  }

  /** Wave 1: at 150 points with no fight on, its boss appears; once the
      fight is won, wave 2 begins. */
  function WaveOneStep(g: Game): Game {
    var g1 := if !g.waveFight && g.score >= Wave1BossScore then BossesForWave(g, 1) else g;
    if g1.waveFight && FightWon(g1) then g1.(wave := 2, waveFight := false, defeated := 0) else g1
  }

  /** Wave 2: at 450 points with no fight on, its two bosses appear; once the
      fight is won, wave 3 begins with the stationary boss. */
  function WaveTwoStep(g: Game): Game {
    var g1 := if !g.waveFight && g.score >= Wave2BossesScore then BossesForWave(g, 2) else g;
    if g1.waveFight && FightWon(g1) then StationarySpawned(g1.(wave := 3, waveFight := false, defeated := 0))
    else g1
  }

  /** Wave 3, first part: the stationary boss's death is noted once and the
      reference to it dropped. */
  function StationaryChecked(g: Game): Game {
    if g.stationarySpawned && g.stationary.Some? && Gone(g, g.stationary.value) && !g.stationaryDefeated
    then g.(stationaryDefeated := true, stationary := None)
    else g
  }

  /** Wave 3, second part: at 900 points after the stationary boss, the final
      bosses appear once; once their fight is won, the game stops. */
  function FinalStep(g: Game): Game {
    var g1 := if g.stationaryDefeated && g.score >= FinalBossesScore && !g.finalTriggered && !g.finalFight
              then BossesForWave(g, 3) else g;
    if g1.finalFight && FightWon(g1) then g1.(running := false) else g1
  }

  /** manageWaveStateAndBossSpawning: the step of the current wave. */
  function ManageWave(g: Game): Game {
    if g.wave == 1 then WaveOneStep(g)
    else if g.wave == 2 then WaveTwoStep(g)
    else if g.wave == 3 then FinalStep(StationaryChecked(g))
    else g
  }

  /** The wave state machine keeps the flags consistent; the wave never goes
      back, never passes 3, and moves on only by one. */
  lemma ManageWaveKeepsConsistent(g: Game)
    requires Consistent(g)
    ensures var r := ManageWave(g);
      && Consistent(r)
      && g.wave <= r.wave <= g.wave + 1
      && r.score == g.score && r.lives == g.lives && r.objects == g.objects
  {
  }

  /** A wave ends only when its boss fight is on and won: the next wave starts
      with no fight and a zero defeat count (and, for wave 3, the stationary
      boss). */
  lemma WaveAdvancesOnlyOnVictory(g: Game)
    requires Consistent(g)
    ensures var r := ManageWave(g);
      r.wave != g.wave ==>
        && g.waveFight && FightWon(g)
        && !r.waveFight && r.defeated == 0
        && (r.wave == LastWave ==> r.stationarySpawned && r.stationary == Some(g.nextId)
                                   && r.spawned == g.spawned + [NewBoss(g.nextId, ScreenWidth / 2.0, 100.0)])
  {
  }

  /** Wave 1 at 150 points with no fight on: one boss appears and a fight for
      one boss begins. Wave 2 at 450 points: two bosses and a fight for two. */
  lemma WaveBossesAppearAtTheirScores(g: Game)
    requires Consistent(g) && !g.waveFight
    ensures g.wave == 1 && g.score >= Wave1BossScore ==>
      var r := ManageWave(g);
      && r.wave == 1 && r.waveFight && r.toDefeat == 1 && r.defeated == 0
      && |r.spawned| == |g.spawned| + 1 && r.spawned[..|g.spawned|] == g.spawned
      && IsLiveBoss(r.spawned[|g.spawned|])
    ensures g.wave == 2 && g.score >= Wave2BossesScore ==>
      var r := ManageWave(g);
      && r.wave == 2 && r.waveFight && r.toDefeat == 2 && r.defeated == 0
      && |r.spawned| == |g.spawned| + 2 && r.spawned[..|g.spawned|] == g.spawned
      && IsLiveBoss(r.spawned[|g.spawned|]) && IsLiveBoss(r.spawned[|g.spawned| + 1])
    ensures (g.wave == 1 && g.score < Wave1BossScore) || (g.wave == 2 && g.score < Wave2BossesScore) ==>
      ManageWave(g) == g
  {
  }

  /** The stationary boss is spawned once per game: once it has been, neither
      the wave machine nor spawnStationaryBoss spawns another. */
  lemma StationaryBossSpawnsOnce(g: Game)
    requires Consistent(g) && g.stationarySpawned
    ensures StationarySpawned(g) == g
    ensures var r := ManageWave(g);
      && r.stationarySpawned
      && (r.stationary.Some? ==> r.stationary == g.stationary)
      && |r.spawned| >= |g.spawned|
      && (|r.spawned| != |g.spawned| ==> r.finalTriggered && !g.finalTriggered)
  {
  }

  /** The three final bosses appear only in wave 3, once the stationary boss is
      defeated and the score reaches 900, and only once per game. */
  lemma FinalBossesOnlyAfterStationary(g: Game)
    requires Consistent(g)
    ensures var r := ManageWave(g);
      !g.finalTriggered && r.finalTriggered ==>
        && g.wave == LastWave && r.stationaryDefeated && g.score >= FinalBossesScore
        && r.finalFight && r.toDefeat == 3 && r.defeated == 0
        && |r.spawned| == |g.spawned| + 3
    ensures g.finalTriggered ==> ManageWave(g).spawned == g.spawned
  {
  }

  /** The game is won, and stops running, exactly when in wave 3 the final
      fight is on and its three bosses are down. */
  lemma GameEndsOnFinalVictory(g: Game)
    requires Consistent(g) && g.running
    ensures !ManageWave(g).running <==> g.wave == LastWave && ManageWave(g).finalFight && FightWon(ManageWave(g))
  {
  }
}
