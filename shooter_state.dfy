/** The bookkeeping state of the SpaceShooter game loop: score, lives, the two
    object lists, the player's status, the spawn timers and the wave and boss
    flags. Objects are values with ids; the stationary boss is remembered by its
    id where the game keeps a reference to it. */
module ShooterState {
  import opened Common
  import opened Entities
  import opened AIConstants
  import opened PlayerShip

  // ---------------------------------------------------------------- constants

  const StartLives: int := 3
  const BaseSpawnInterval: int := 170
  const MinSpawnInterval: int := 40
  /** Each wave after the first takes 28 frames off the enemy spawn interval,
      every 90 points one more. */
  const WaveSpawnStep: int := 28
  const ScorePerSpawnStep: int := 90
  const PowerUpSpawnInterval: int := 500

  const Wave1BossScore: int := 150
  const Wave2BossesScore: int := 450
  const FinalBossesScore: int := 900
  const LastWave: int := 3

  const RewardPerBoss: int := 50
  const RewardStationaryBoss: int := 150
  const RewardPerEnemy: int := 10
  const RewardHealthPack: int := 5
  /** A health pack adds a life only while there are fewer than five. */
  const HealthPackLifeCap: int := 5
  /** Lives an escaping normal enemy and an escaping moving boss cost. */
  const EnemyEscapeCost: int := 1
  const BossEscapeCost: int := 2

  /** Where a hit player is put back: (512 / 2, 800 - 120). */
  const RespawnX: real := ScreenWidth / 2.0
  const RespawnY: real := ScreenHeight - 120.0

  // ---------------------------------------------------------------- state

  /** The Player fields the game loop reads and writes besides the pilot's: the
      dead flag and the three power-up effects. */
  datatype Hero = Hero(
    ship: Ship,
    dead: bool,
    shield: bool,
    tempInvincible: bool,
    tripleShot: bool)

  /** The fields of SpaceShooter that the game logic updates. `objects` is
      gameObjects (the player itself is kept apart, in `hero`), `spawned` is
      newObjects; `nextId` numbers the objects the game creates. */
  datatype Game = Game(
    score: int,
    lives: int,
    running: bool,
    objects: seq<Entity>,
    spawned: seq<Entity>,
    hero: Hero,
    enemyTimer: int,
    powerUpTimer: int,
    spawnInterval: int,
    wave: int,
    waveFight: bool,
    toDefeat: int,
    defeated: int,
    stationary: Option<EntityId>,
    stationarySpawned: bool,
    stationaryDefeated: bool,
    finalTriggered: bool,
    finalFight: bool,
    nextId: nat)

  /** `boss.isDead()` for an object the game still refers to: it is no longer a
      live object of either list (objects leave the lists only when dead). */
  predicate Gone(g: Game, id: EntityId) {
    !LiveIn(g.objects + g.spawned, id)
  }

  /** The stationary boss exists and is alive. */
  predicate StationaryAlive(g: Game) {
    g.stationary.Some? && !Gone(g, g.stationary.value)
  }

  /** A boss the game creates: 30 x 30 like every Enemy, still, alive. */
  function NewBoss(id: EntityId, x: real, y: real): (e: Entity)
    ensures IsLiveBoss(e) && e.id == id
  {
    Entity(id, Boss, x, y, EnemySize, EnemySize, 0.0, 0.0, false)
  }

  /** What holds of the wave and boss flags throughout a game: the wave is 1 to
      3; a wave fight is for as many bosses as the wave number; the final fight
      and the stationary boss belong to wave 3, the final fight comes only after
      the stationary boss is defeated, and the two fights never overlap. */
  predicate Consistent(g: Game) {
    && 1 <= g.wave <= LastWave
    && !(g.waveFight && g.finalFight)
    && (g.waveFight ==> g.wave < LastWave && g.toDefeat == g.wave)
    && (g.finalFight ==> g.finalTriggered && g.toDefeat == 3)
    && (g.finalTriggered ==> g.stationaryDefeated)
    && (g.stationaryDefeated ==> g.stationarySpawned && g.stationary.None?)
    && (g.stationarySpawned ==> g.wave == LastWave)
    && (g.stationary.Some? ==> g.stationarySpawned)
    && g.defeated >= 0
    && g.spawnInterval >= MinSpawnInterval
    && 0 <= g.powerUpTimer < PowerUpSpawnInterval
    && g.enemyTimer >= 0
  }

  // ---------------------------------------------------------------- counting objects

  /** The classes of objects the bookkeeping counts: live objects of one kind,
      live enemies of either kind, live or dead wave bosses (every boss but the
      stationary one), and the dead stationary boss. */
  datatype Tally =
    | LiveOf(kind: Kind)
    | LiveEnemy
    | LiveWaveBoss(stationary: Option<EntityId>)
    | DeadWaveBoss(stationary: Option<EntityId>)
    | DeadStationary(stationary: Option<EntityId>)

  predicate Tallied(e: Entity, t: Tally) {
    match t
    case LiveOf(kind) => e.kind == kind && !e.dead
    case LiveEnemy => IsLiveEnemy(e)
    case DeadStationary(st) => e.kind.Boss? && st == Some(e.id) && e.dead
    case LiveWaveBoss(st) => e.kind.Boss? && st != Some(e.id) && !e.dead
    case DeadWaveBoss(st) => e.kind.Boss? && st != Some(e.id) && e.dead
  }

  /** The number of objects of one class. */
  function Count(s: seq<Entity>, t: Tally): nat
    decreases |s|
  {
    if |s| == 0 then 0
    else Count(s[..|s| - 1], t) + (if Tallied(s[|s| - 1], t) then 1 else 0)
  }

  /** Replacing one object changes the count by what the old object and the new
      one contribute. */
  lemma {:induction false} CountUpdate(s: seq<Entity>, k: nat, e: Entity, t: Tally)
    requires k < |s|
    ensures Count(s[k := e], t)
            == Count(s, t) - (if Tallied(s[k], t) then 1 else 0) + (if Tallied(e, t) then 1 else 0)
    decreases |s|
  {
    var n := |s|;
    if k == n - 1 {
      assert s[k := e][..n - 1] == s[..n - 1];
    } else {
      assert s[k := e][..n - 1] == s[..n - 1][k := e];
      CountUpdate(s[..n - 1], k, e, t);
    }
  }

  /** Counting a list joined from two is adding the two counts. */
  lemma {:induction false} CountAppend(a: seq<Entity>, b: seq<Entity>, t: Tally)
    ensures Count(a + b, t) == Count(a, t) + Count(b, t)
    decreases |b|
  {
    if |b| == 0 {
      assert a + b == a;
    } else {
      assert (a + b)[..|a + b| - 1] == a + b[..|b| - 1];
      CountAppend(a, b[..|b| - 1], t);
    }
  }

  /** `after` is `before` with some objects marked dead and nothing else changed. */
  predicate OnlyKills(before: seq<Entity>, after: seq<Entity>) {
    |before| == |after| && forall k :: 0 <= k < |before| ==> after[k] == before[k] || after[k] == Killed(before[k])
  }
}
