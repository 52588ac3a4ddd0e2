/** The end of each frame in SpaceShooter: checkEntitiesOutOfBounds, which
    kills what left the screen and charges lives for escaping enemies; the sweep
    of updateGame, which moves the new objects into the list, removes the dead
    ones and pays for dead bosses; and restartGameMechanics. */
module Cleanup {
  import opened Common
  import opened Entities
  import opened PlayerShip
  import opened ShooterState
  import opened Waves

  // ---------------------------------------------------------------- leaving the screen

  /** The test checkEntitiesOutOfBounds applies to a live object: an enemy, an
      enemy shot or a power-up whose top edge is below the bottom of the screen,
      or a player shot whose bottom edge is above the top. Anything else never
      leaves. */
  predicate Escaping(e: Entity) {
    if IsEnemy(e) || e.kind.EnemyShot? || e.kind.Item? then e.y - e.height / 2.0 > ScreenHeight
    else if e.kind.PlayerShot? then e.y + e.height / 2.0 < 0.0
    else false
  }

  /** What checkEntitiesOutOfBounds updates: the list, the lives, the defeat
      count and the player's dead flag. */
  datatype Escapes = Escapes(objects: seq<Entity>, lives: int, defeated: int, heroDead: bool)

  /** What an escaping enemy costs: a normal enemy one life; a boss other than
      the stationary one two lives and, while a boss fight is on, one defeat;
      afterwards the player dies once no life is left. */
  function EscapeCharge(s: Escapes, e: Entity, fight: bool, stationary: Option<EntityId>): Escapes {
    var charged :=
      if !e.kind.Boss? then s.(lives := s.lives - EnemyEscapeCost)
      else if stationary != Some(e.id) then
        s.(defeated := if fight then s.defeated + 1 else s.defeated, lives := s.lives - BossEscapeCost)
      else s;
    if charged.lives <= 0 then charged.(heroDead := true) else charged
  }

  /** One step of checkEntitiesOutOfBounds, for the object at i: an escaping
      object is marked dead, and an escaping enemy is charged for. */
  function EscapeStep(s: Escapes, i: nat, fight: bool, stationary: Option<EntityId>): (r: Escapes)
    requires i < |s.objects|
    ensures |r.objects| == |s.objects|
  {
    var e := s.objects[i];
    if e.dead then s
    else if IsEnemy(e) then
      if e.y - e.height / 2.0 > ScreenHeight then
        EscapeCharge(s.(objects := s.objects[i := Killed(e)]), e, fight, stationary)
      else s
    else if e.kind.PlayerShot? && e.y + e.height / 2.0 < 0.0 then s.(objects := s.objects[i := Killed(e)])
    else if (e.kind.EnemyShot? || e.kind.Item?) && e.y - e.height / 2.0 > ScreenHeight then
      s.(objects := s.objects[i := Killed(e)])
    else s
  }

  /** checkEntitiesOutOfBounds from position i of the object list on. */
  function EscapesFrom(s: Escapes, i: nat, fight: bool, stationary: Option<EntityId>): (r: Escapes)
    ensures |r.objects| == |s.objects|
    decreases |s.objects| - i
  {
    if i >= |s.objects| then s else EscapesFrom(EscapeStep(s, i, fight, stationary), i + 1, fight, stationary)
  }

  /** checkEntitiesOutOfBounds on the game. */
  function OutOfBounds(g: Game): Game {
    var r := EscapesFrom(Escapes(g.objects, g.lives, g.defeated, g.hero.dead), 0,
                         g.waveFight || g.finalFight, g.stationary);
    g.(objects := r.objects, lives := r.lives, defeated := r.defeated, hero := g.hero.(dead := r.heroDead))
  }

  /** What charging one escaped enemy does: a normal enemy costs one life, a
      moving boss two and, during a fight, counts as defeated; the stationary boss
      costs nothing; the player dies once the lives reach zero. */
  lemma ChargeFacts(s: Escapes, e: Entity, fight: bool, st: Option<EntityId>)
    ensures var r := EscapeCharge(s, e, fight, st);
      var cost := if !e.kind.Boss? then EnemyEscapeCost else if st != Some(e.id) then BossEscapeCost else 0;
      && r.objects == s.objects
      && r.lives == s.lives - cost
      && r.defeated == s.defeated + (if fight && e.kind.Boss? && st != Some(e.id) then 1 else 0)
      && (r.heroDead <==> s.heroDead || r.lives <= 0)
  {
  }

  /** What one step does, in terms of counts: it kills at most the object at i,
      and only if it is live and escaping; it charges lives and defeats for the
      enemies it kills; and it kills the player only after an escaping enemy
      when no life is left. */
  lemma EscapeStepCharged(s: Escapes, i: nat, fight: bool, st: Option<EntityId>)
    requires i < |s.objects|
    ensures var r := EscapeStep(s, i, fight, st);
      var e := s.objects[i];
      var lostEnemy := Count(s.objects, LiveEnemy) - Count(r.objects, LiveEnemy);
      var lostWaveBoss := Count(s.objects, LiveWaveBoss(st)) - Count(r.objects, LiveWaveBoss(st));
      var lostNormal := Count(s.objects, LiveOf(NormalEnemy)) - Count(r.objects, LiveOf(NormalEnemy));
      && r.objects == (if !e.dead && Escaping(e) then s.objects[i := Killed(e)] else s.objects)
      && r.lives == s.lives - EnemyEscapeCost * lostNormal - BossEscapeCost * lostWaveBoss
      && r.defeated == s.defeated + (if fight then lostWaveBoss else 0)
      && 0 <= lostNormal <= lostEnemy <= 1 && 0 <= lostWaveBoss <= lostEnemy
      && (r.heroDead <==> s.heroDead || (r.lives <= 0 && lostEnemy == 1))
  {
    var e := s.objects[i];
    var r := EscapeStep(s, i, fight, st);
    if e.dead || !Escaping(e) {
      assert r == s;
    } else {
      var k := s.(objects := s.objects[i := Killed(e)]);
      CountUpdate(s.objects, i, Killed(e), LiveOf(NormalEnemy));
      CountUpdate(s.objects, i, Killed(e), LiveWaveBoss(st));
      CountUpdate(s.objects, i, Killed(e), LiveEnemy);
      if !IsEnemy(e) {
        assert r == k;
      } else {
        assert r == EscapeCharge(k, e, fight, st);
        ChargeFacts(k, e, fight, st);
      }
    }
  }

  /** checkEntitiesOutOfBounds kills exactly the live objects from position i on
      that have left the screen. */
  lemma {:induction false} EscapesKillTheEscaped(s: Escapes, i: nat, fight: bool, st: Option<EntityId>)
    ensures var r := EscapesFrom(s, i, fight, st);
      && OnlyKills(s.objects, r.objects)
      && (forall k :: 0 <= k < |s.objects| ==>
            (r.objects[k] != s.objects[k] <==> i <= k && !s.objects[k].dead && Escaping(s.objects[k])))
    decreases |s.objects| - i
  {
    if i < |s.objects| {
      EscapeStepCharged(s, i, fight, st);
      EscapesKillTheEscaped(EscapeStep(s, i, fight, st), i + 1, fight, st);
    }
  }

  /** Lives fall by one per escaped normal enemy and by two per escaped wave
      boss (the stationary boss escapes for free); during a boss fight each
      escaped wave boss counts as defeated. The player dies exactly when it was
      dead already or an enemy escaped and no life is left. */
  lemma {:induction false} EscapesCharged(s: Escapes, i: nat, fight: bool, st: Option<EntityId>)
    ensures var r := EscapesFrom(s, i, fight, st);
      var lostEnemy := Count(s.objects, LiveEnemy) - Count(r.objects, LiveEnemy);
      var lostWaveBoss := Count(s.objects, LiveWaveBoss(st)) - Count(r.objects, LiveWaveBoss(st));
      var lostNormal := Count(s.objects, LiveOf(NormalEnemy)) - Count(r.objects, LiveOf(NormalEnemy));
      && r.lives == s.lives - EnemyEscapeCost * lostNormal - BossEscapeCost * lostWaveBoss
      && r.defeated == s.defeated + (if fight then lostWaveBoss else 0)
      && 0 <= lostNormal <= lostEnemy && 0 <= lostWaveBoss <= lostEnemy
      && (r.heroDead <==> s.heroDead || (r.lives <= 0 && lostEnemy > 0))
    decreases |s.objects| - i
  {
    if i < |s.objects| {
      EscapeStepCharged(s, i, fight, st);
      EscapesCharged(EscapeStep(s, i, fight, st), i + 1, fight, st);
    }
  }

  // ---------------------------------------------------------------- the sweep

  /** gameObjects.addAll(newObjects) followed by newObjects.clear(). */
  function Merged(g: Game): Game {
    g.(objects := g.objects + g.spawned, spawned := [])
  }

  /** The live objects of a list, in their order. */
  function Survivors(s: seq<Entity>): seq<Entity>
    decreases |s|
  {
    if |s| == 0 then []
    else Survivors(s[..|s| - 1]) + (if s[|s| - 1].dead then [] else [s[|s| - 1]])
  }

  /** A live class of objects: what the sweep must not lose. */
  predicate LiveTally(t: Tally) {
    t.LiveOf? || t.LiveEnemy? || t.LiveWaveBoss?
  }

  /** The sweep keeps exactly the live objects: every kept object is live and
      was in the list, every live object is kept, every live count is the same
      afterwards, and no dead wave boss remains. */
  lemma {:induction false} SurvivorsAreTheLiveOnes(s: seq<Entity>)
    ensures forall e :: e in Survivors(s) <==> e in s && !e.dead
    ensures forall t :: LiveTally(t) ==> Count(Survivors(s), t) == Count(s, t)
    ensures forall st :: Count(Survivors(s), DeadWaveBoss(st)) == 0
    decreases |s|
  {
    if |s| > 0 {
      var n := |s|;
      var init := s[..n - 1];
      var tail := if s[n - 1].dead then [] else [s[n - 1]];
      SurvivorsAreTheLiveOnes(init);
      assert s == init + [s[n - 1]];
      forall t ensures Count(Survivors(s), t) == Count(Survivors(init), t) + Count(tail, t) {
        CountAppend(Survivors(init), tail, t);
      }
      forall t ensures Count(tail, t) == (if Tallied(s[n - 1], t) && !s[n - 1].dead then 1 else 0) {
        if !s[n - 1].dead {
          assert tail[..0] == [];
        }
      }
    }
  }

  /** The points the sweep pays for the dead bosses of a list: 50 each, or 150
      for the stationary boss once it has been spawned. */
  function BossRewards(s: seq<Entity>, stationary: Option<EntityId>, stationarySpawned: bool): int {
    RewardPerBoss * Count(s, DeadWaveBoss(stationary))
    + (if stationarySpawned then RewardStationaryBoss else RewardPerBoss) * Count(s, DeadStationary(stationary))
  }

  /** The defeats the sweep counts: the dead wave bosses, while a fight is on. */
  function FightDefeats(s: seq<Entity>, stationary: Option<EntityId>, fight: bool): int {
    if fight then Count(s, DeadWaveBoss(stationary)) else 0
  }

  /** The sweep of updateGame over the merged list: the dead objects go, the
      dead bosses are paid for, and during a fight the dead wave bosses count as
      defeated. */
  function Swept(g: Game): Game {
    g.(objects := Survivors(g.objects),
       score := g.score + BossRewards(g.objects, g.stationary, g.stationarySpawned),
       defeated := g.defeated + FightDefeats(g.objects, g.stationary, g.waveFight || g.finalFight))
  }

  /** Swapping live objects for dead ones in place adds as many dead wave
      bosses as it loses live ones. */
  lemma {:induction false} KillsBalance(a: seq<Entity>, b: seq<Entity>, st: Option<EntityId>)
    requires OnlyKills(a, b)
    ensures Count(b, DeadWaveBoss(st)) - Count(a, DeadWaveBoss(st)) == Count(a, LiveWaveBoss(st)) - Count(b, LiveWaveBoss(st))
    decreases |a|
  {
    if |a| > 0 {
      var n := |a|;
      assert OnlyKills(a[..n - 1], b[..n - 1]);
      KillsBalance(a[..n - 1], b[..n - 1], st);
    }
  }

  /** A wave boss that leaves the screen during a boss fight is counted as
      defeated twice: once by checkEntitiesOutOfBounds, and once more when the
      sweep removes it as a dead boss (which also pays 50 points for it). */
  lemma EscapedWaveBossCountsTwice(g: Game)
    requires g.waveFight || g.finalFight
    requires Count(g.objects, DeadWaveBoss(g.stationary)) == 0
    requires Count(g.spawned, DeadWaveBoss(g.stationary)) == 0
    ensures var e := OutOfBounds(g);
      var s := Swept(Merged(e));
      var escaped := Count(g.objects, LiveWaveBoss(g.stationary)) - Count(e.objects, LiveWaveBoss(g.stationary));
      && s.defeated == g.defeated + 2 * escaped
      && s.lives <= g.lives - BossEscapeCost * escaped
  {
    var start := Escapes(g.objects, g.lives, g.defeated, g.hero.dead);
    var fight := g.waveFight || g.finalFight;
    var e := OutOfBounds(g);
    EscapesCharged(start, 0, fight, g.stationary);
    EscapesKillTheEscaped(start, 0, fight, g.stationary);
    KillsBalance(g.objects, e.objects, g.stationary);
    CountAppend(e.objects, e.spawned, DeadWaveBoss(g.stationary));
  }

  /** In wave 2, one boss leaving the screen ends the wave while the other is
      still alive on the screen: the double count reaches the two defeats the
      wave asks for. */
  lemma OneEscapeEndsWaveTwo(g: Game, a: Entity, b: Entity)
    requires g.wave == 2 && g.waveFight && !g.finalFight && g.toDefeat == 2 && g.defeated == 0
    requires g.stationary.None? && !g.stationarySpawned
    requires g.objects == [a, b] && g.spawned == []
    requires IsLiveBoss(a) && a.y - a.height / 2.0 > ScreenHeight
    requires IsLiveBoss(b) && b.y - b.height / 2.0 <= ScreenHeight
    ensures var r := ManageWave(Swept(Merged(OutOfBounds(g))));
      r.wave == 3 && !r.waveFight && b in r.objects
  {
    var e := OutOfBounds(g);
    CountPair(a, b, DeadWaveBoss(None));
    EscapedWaveBossCountsTwice(g);
    EscapesKillTheEscaped(Escapes(g.objects, g.lives, g.defeated, g.hero.dead), 0, true, None);
    assert e.objects == [Killed(a), b];
    CountPair(a, b, LiveWaveBoss(None));
    CountPair(Killed(a), b, LiveWaveBoss(None));
    SurvivorsAreTheLiveOnes(Merged(e).objects);
    assert b in Merged(e).objects;
  }

  /** Counting a two-object list. */
  lemma CountPair(a: Entity, b: Entity, t: Tally)
    ensures Count([a, b], t) == (if Tallied(a, t) then 1 else 0) + (if Tallied(b, t) then 1 else 0)
  {
    assert [a, b][..1] == [a];
    assert [a][..0] == [];
    assert Count([a], t) == Count([], t) + (if Tallied(a, t) then 1 else 0);
  }

  // ---------------------------------------------------------------- restart

  /** restartGameMechanics: score, lives, timers and every wave and boss flag
      back to their start values, the difficulty recomputed, the player put back
      at (256, 680) alive with its movement flags cleared, both lists emptied.
      The running flag, the power-up effects and the id counter are left as
      they are. */
  function Restarted(g: Game): Game {
    var reset := g.(score := 0, lives := StartLives, enemyTimer := 0, powerUpTimer := 0,
                    wave := 1, waveFight := false, toDefeat := 0, defeated := 0,
                    stationary := None, stationarySpawned := false, stationaryDefeated := false,
                    finalTriggered := false, finalFight := false);
    var tuned := Difficulty(reset);
    tuned.(hero := tuned.hero.(ship := FlagsCleared(tuned.hero.ship.(x := RespawnX, y := RespawnY)), dead := false),
           objects := [], spawned := [])
  }

  /** A restarted game is a fresh first wave: the flags are consistent, enemies
      come every 170 frames, the wave machine has nothing to do, the player is
      alive at the respawn point, and restarting again changes nothing. */
  lemma RestartStartsFresh(g: Game)
    ensures var r := Restarted(g);
      && Consistent(r)
      && r.spawnInterval == BaseSpawnInterval
      && r.score == 0 && r.lives == StartLives && r.wave == 1 && r.objects == [] && r.spawned == []
      && ManageWave(r) == r
      && !r.hero.dead && r.hero.ship.x == RespawnX && r.hero.ship.y == RespawnY
      && !r.hero.ship.left && !r.hero.ship.right && !r.hero.ship.forward && !r.hero.ship.backward
      && Restarted(r) == r
  {
    assert JavaDiv(0, ScorePerSpawnStep) == 0;
  }
}
