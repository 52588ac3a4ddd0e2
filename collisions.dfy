/** The life and score bookkeeping of SpaceShooter.checkCollisions: player
    shots against enemies, the player against enemy hulls and enemy shots, and
    power-up pickups. Each phase is one scan over the object list, written here
    as a function of the list and the counters from a scan position on. */
module Collisions {
  import opened Common
  import opened Entities
  import opened AIConstants
  import opened PlayerShip
  import opened ShooterState

  /** The player's 40 x 40 box meets the object's box. */
  predicate Touches(h: Hero, e: Entity) {
    Overlaps(h.ship.x, h.ship.y, PlayerWidth, PlayerHeight, e)
  }

  // ---------------------------------------------------------------- player shots

  /** The inner scan for the live player shot at i from position j on: every
      live enemy the shot's box meets marks the shot dead; a normal enemy dies
      and is worth 10 points, a boss is left as it is. The scan goes on after
      the shot is dead. */
  function ShotScan(objs: seq<Entity>, score: int, i: nat, j: nat): (r: (seq<Entity>, int))
    requires i < |objs|
    ensures |r.0| == |objs|
    decreases |objs| - j
  {
    if j >= |objs| then (objs, score)
    else
      var e := objs[j];
      if IsLiveEnemy(e) && Overlaps(objs[i].x, objs[i].y, objs[i].width, objs[i].height, e) then
        var shotSpent := objs[i := Killed(objs[i])];
        if e.kind.Boss? then ShotScan(shotSpent, score, i, j + 1)
        else ShotScan(shotSpent[j := Killed(e)], score + RewardPerEnemy, i, j + 1)
      else ShotScan(objs, score, i, j + 1)
  }

  /** The outer scan over the live player shots from position i on. */
  function ShotsScan(objs: seq<Entity>, score: int, i: nat): (r: (seq<Entity>, int))
    ensures |r.0| == |objs|
    decreases |objs| - i
  {
    if i >= |objs| then (objs, score)
    else if objs[i].kind.PlayerShot? && !objs[i].dead then
      var inner := ShotScan(objs, score, i, 0);
      ShotsScan(inner.0, inner.1, i + 1)
    else ShotsScan(objs, score, i + 1)
  }

  /** What a scan of player shots may do to one object: kill a player shot or a
      normal enemy, nothing else. */
  predicate ShotEffect(before: seq<Entity>, after: seq<Entity>) {
    && OnlyKills(before, after)
    && forall k :: 0 <= k < |before| && after[k] != before[k] ==>
         before[k].kind.PlayerShot? || before[k].kind.NormalEnemy?
  }

  /** The inner scan kills only player shots and normal enemies, and adds 10
      points for each normal enemy it kills. */
  lemma {:induction false} ShotScanScores(objs: seq<Entity>, score: int, i: nat, j: nat)
    requires i < |objs| && objs[i].kind.PlayerShot?
    ensures var r := ShotScan(objs, score, i, j);
      && ShotEffect(objs, r.0)
      && r.1 == score + RewardPerEnemy * (Count(objs, LiveOf(NormalEnemy)) - Count(r.0, LiveOf(NormalEnemy)))
    decreases |objs| - j
  {
    if j < |objs| {
      var e := objs[j];
      if IsLiveEnemy(e) && Overlaps(objs[i].x, objs[i].y, objs[i].width, objs[i].height, e) {
        var shotSpent := objs[i := Killed(objs[i])];
        CountUpdate(objs, i, Killed(objs[i]), LiveOf(NormalEnemy));
        if e.kind.Boss? {
          ShotScanScores(shotSpent, score, i, j + 1);
        } else {
          var both := shotSpent[j := Killed(e)];
          CountUpdate(shotSpent, j, Killed(e), LiveOf(NormalEnemy));
          ShotScanScores(both, score + RewardPerEnemy, i, j + 1);
        }
      } else {
        ShotScanScores(objs, score, i, j + 1);
      }
    }
  }

  /** Player shots kill only player shots and normal enemies (a boss's health
      is not part of this model), and the score grows by exactly 10 for each
      normal enemy killed. */
  lemma {:induction false} ShotsScore(objs: seq<Entity>, score: int, i: nat)
    ensures var r := ShotsScan(objs, score, i);
      && ShotEffect(objs, r.0)
      && r.1 == score + RewardPerEnemy * (Count(objs, LiveOf(NormalEnemy)) - Count(r.0, LiveOf(NormalEnemy)))
    decreases |objs| - i
  {
    if i < |objs| {
      if objs[i].kind.PlayerShot? && !objs[i].dead {
        var inner := ShotScan(objs, score, i, 0);
        ShotScanScores(objs, score, i, 0);
        ShotsScore(inner.0, inner.1, i + 1);
      } else {
        ShotsScore(objs, score, i + 1);
      }
    }
  }

  // ---------------------------------------------------------------- hits on the player

  /** One contact with an enemy hull or shot: without a shield or temporary
      invincibility it costs a life, clears the movement flags and puts the
      player back at (256, 680), which then dies at zero lives or else turns
      temporarily invincible; with protection nothing happens to the player. */
  function Struck(h: Hero, lives: int): (r: (Hero, int)) {
    if !h.shield && !h.tempInvincible then
      var l := lives - 1;
      var ship := FlagsCleared(h.ship).(x := RespawnX, y := RespawnY);
      if l <= 0 then (h.(ship := ship, dead := true), l)
      else (h.(ship := ship, tempInvincible := true), l)
    else (h, lives)
  }

  /** An unprotected hit costs exactly one life and leaves the player at the
      respawn point with cleared flags, dead exactly when no life is left and
      protected otherwise; a protected hit changes nothing. */
  lemma StruckCostsOneLife(h: Hero, lives: int)
    requires !h.dead
    ensures var r := Struck(h, lives);
      if !h.shield && !h.tempInvincible then
        && r.1 == lives - 1
        && r.0.ship == FlagsCleared(h.ship).(x := RespawnX, y := RespawnY)
        && (r.0.dead <==> r.1 <= 0)
        && (!r.0.dead ==> r.0.tempInvincible)
        && r.0.shield == h.shield
      else r == (h, lives)
  {
  }

  /** The objects a contact scan is about: live enemy hulls (bosses included)
      or live enemy shots. */
  predicate ContactTarget(e: Entity, hulls: bool) {
    if hulls then IsLiveEnemy(e) else IsLiveEnemyShot(e)
  }

  /** The player-versus-hulls scan (hulls) or the player-versus-shots scan from
      position i on: each live target the player's box meets strikes the player
      and dies, except a boss hull; the scan stops once the player is dead. */
  function ContactScan(objs: seq<Entity>, h: Hero, lives: int, i: nat, hulls: bool): (r: (seq<Entity>, Hero, int))
    ensures |r.0| == |objs|
    decreases |objs| - i
  {
    if i >= |objs| then (objs, h, lives)
    else
      var e := objs[i];
      if ContactTarget(e, hulls) && Touches(h, e) then
        var hit := Struck(h, lives);
        var objs1 := if hulls && e.kind.Boss? then objs else objs[i := Killed(e)];
        if hit.0.dead then (objs1, hit.0, hit.1)
        else ContactScan(objs1, hit.0, hit.1, i + 1, hulls)
      else ContactScan(objs, h, lives, i + 1, hulls)
  }

  /** A protected player goes through a contact scan untouched. */
  lemma {:induction false} ProtectedPlayerUntouched(objs: seq<Entity>, h: Hero, lives: int, i: nat, hulls: bool)
    requires h.shield || h.tempInvincible
    requires !h.dead
    ensures var r := ContactScan(objs, h, lives, i, hulls);
      r.1 == h && r.2 == lives
    decreases |objs| - i
  {
    if i < |objs| {
      var e := objs[i];
      if ContactTarget(e, hulls) && Touches(h, e) {
        var objs1 := if hulls && e.kind.Boss? then objs else objs[i := Killed(e)];
        ProtectedPlayerUntouched(objs1, h, lives, i + 1, hulls);
      } else {
        ProtectedPlayerUntouched(objs, h, lives, i + 1, hulls);
      }
    }
  }

  /** A contact scan costs at most one life: the first unprotected hit either
      kills the player, which ends the scan, or makes it invincible for the rest
      of the scan. When it costs one, the player is dead exactly at zero lives
      and invincible otherwise. */
  lemma {:induction false} ContactCostsAtMostOneLife(objs: seq<Entity>, h: Hero, lives: int, i: nat, hulls: bool)
    requires !h.dead
    ensures var r := ContactScan(objs, h, lives, i, hulls);
      && (r.2 == lives || (r.2 == lives - 1 && !h.shield && !h.tempInvincible))
      && (r.2 == lives ==> r.1 == h)
      && (r.2 == lives - 1 ==> (r.1.dead <==> r.2 <= 0) && (!r.1.dead ==> r.1.tempInvincible))
      && r.1.shield == h.shield
    decreases |objs| - i
  {
    if i < |objs| {
      var e := objs[i];
      if ContactTarget(e, hulls) && Touches(h, e) {
        var hit := Struck(h, lives);
        var objs1 := if hulls && e.kind.Boss? then objs else objs[i := Killed(e)];
        if !hit.0.dead {
          if !h.shield && !h.tempInvincible {
            ProtectedPlayerUntouched(objs1, hit.0, hit.1, i + 1, hulls);
          } else {
            ContactCostsAtMostOneLife(objs1, hit.0, hit.1, i + 1, hulls);
          }
        }
      } else {
        ContactCostsAtMostOneLife(objs, h, lives, i + 1, hulls);
      }
    }
  }

  /** A contact scan only kills, and only targets of its own kind that are not
      bosses. */
  lemma {:induction false} ContactKillsOnlyTargets(objs: seq<Entity>, h: Hero, lives: int, i: nat, hulls: bool)
    ensures var r := ContactScan(objs, h, lives, i, hulls);
      && OnlyKills(objs, r.0)
      && forall k :: 0 <= k < |objs| && r.0[k] != objs[k] ==> ContactTarget(objs[k], hulls) && !objs[k].kind.Boss?
    decreases |objs| - i
  {
    if i < |objs| {
      var e := objs[i];
      if ContactTarget(e, hulls) && Touches(h, e) {
        var hit := Struck(h, lives);
        var objs1 := if hulls && e.kind.Boss? then objs else objs[i := Killed(e)];
        if !hit.0.dead {
          ContactKillsOnlyTargets(objs1, hit.0, hit.1, i + 1, hulls);
        }
      } else {
        ContactKillsOnlyTargets(objs, h, lives, i + 1, hulls);
      }
    }
  }

  // ---------------------------------------------------------------- power-ups

  /** One pickup: a health pack adds a life while there are fewer than five and
      is worth 5 points; a shield or triple shot turns that effect on. */
  function PickedUp(kind: PowerUpType, h: Hero, lives: int, score: int): (r: (Hero, int, int)) {
    match kind
    case HealthPack => (h, if lives < HealthPackLifeCap then lives + 1 else lives, score + RewardHealthPack)
    case Shield => (h.(shield := true), lives, score)
    case TripleShot => (h.(tripleShot := true), lives, score)
  }

  /** The pickup scan from position i on: every live power-up the player's box
      meets takes effect and dies. */
  function PickupScan(objs: seq<Entity>, h: Hero, lives: int, score: int, i: nat): (r: (seq<Entity>, Hero, int, int))
    ensures |r.0| == |objs|
    decreases |objs| - i
  {
    if i >= |objs| then (objs, h, lives, score)
    else
      var e := objs[i];
      if e.kind.Item? && !e.dead && Touches(h, e) then
        var p := PickedUp(e.kind.powerUp, h, lives, score);
        PickupScan(objs[i := Killed(e)], p.0, p.1, p.2, i + 1)
      else PickupScan(objs, h, lives, score, i + 1)
  }

  /** Pickups never take lives, raise them past five only if they were already
      past five, and add exactly 5 points per health pack collected; the
      player's position, life and invincibility are left alone. */
  lemma {:induction false} PickupsBounded(objs: seq<Entity>, h: Hero, lives: int, score: int, i: nat)
    ensures var r := PickupScan(objs, h, lives, score, i);
      && lives <= r.2 && (lives <= HealthPackLifeCap ==> r.2 <= HealthPackLifeCap)
      && (lives >= HealthPackLifeCap ==> r.2 == lives)
      && r.3 == score + RewardHealthPack * (Count(objs, LiveOf(Item(HealthPack))) - Count(r.0, LiveOf(Item(HealthPack))))
      && r.1.dead == h.dead && r.1.ship == h.ship && r.1.tempInvincible == h.tempInvincible
    decreases |objs| - i
  {
    if i < |objs| {
      var e := objs[i];
      if e.kind.Item? && !e.dead && Touches(h, e) {
        var p := PickedUp(e.kind.powerUp, h, lives, score);
        var rest := objs[i := Killed(e)];
        CountUpdate(objs, i, Killed(e), LiveOf(Item(HealthPack)));
        assert Count(rest, LiveOf(Item(HealthPack)))
               == Count(objs, LiveOf(Item(HealthPack))) - (if e.kind.powerUp.HealthPack? then 1 else 0);
        PickupsBounded(rest, p.0, p.1, p.2, i + 1);
      } else {
        PickupsBounded(objs, h, lives, score, i + 1);
      }
    }
  }

  /** The pickup scan kills power-ups and nothing else. */
  lemma {:induction false} PickupsKillOnlyItems(objs: seq<Entity>, h: Hero, lives: int, score: int, i: nat)
    ensures var r := PickupScan(objs, h, lives, score, i);
      && OnlyKills(objs, r.0)
      && (forall k :: 0 <= k < |objs| && r.0[k] != objs[k] ==> objs[k].kind.Item?)
    decreases |objs| - i
  {
    if i < |objs| {
      var e := objs[i];
      if e.kind.Item? && !e.dead && Touches(h, e) {
        var p := PickedUp(e.kind.powerUp, h, lives, score);
        PickupsKillOnlyItems(objs[i := Killed(e)], p.0, p.1, p.2, i + 1);
      } else {
        PickupsKillOnlyItems(objs, h, lives, score, i + 1);
      }
    }
  }

  // ---------------------------------------------------------------- the whole check

  /** checkCollisions: the shot scan, then, while the player lives, the hull
      scan, the enemy-shot scan and the pickup scan. */
  function Collided(g: Game): Game {
    var a := ShotsScan(g.objects, g.score, 0);
    var g1 := g.(objects := a.0, score := a.1);
    if g1.hero.dead then g1
    else
      var b := ContactScan(g1.objects, g1.hero, g1.lives, 0, true);
      var g2 := g1.(objects := b.0, hero := b.1, lives := b.2);
      if g2.hero.dead then g2
      else
        var c := ContactScan(g2.objects, g2.hero, g2.lives, 0, false);
        var g3 := g2.(objects := c.0, hero := c.1, lives := c.2);
        if g3.hero.dead then g3
        else
          var d := PickupScan(g3.objects, g3.hero, g3.lives, g3.score, 0);
          g3.(objects := d.0, hero := d.1, lives := d.2, score := d.3)
  }

  /** One collision check costs at most one life however many hulls and shots
      touch the player, and leaves the wave bookkeeping alone. */
  lemma CollisionsCostAtMostOneLife(g: Game)
    ensures var r := Collided(g);
      && r.lives >= g.lives - 1
      && r.wave == g.wave && r.defeated == g.defeated && r.toDefeat == g.toDefeat
      && r.spawned == g.spawned
  {
    var a := ShotsScan(g.objects, g.score, 0);
    var g1 := g.(objects := a.0, score := a.1);
    if !g1.hero.dead {
      ContactCostsAtMostOneLife(g1.objects, g1.hero, g1.lives, 0, true);
      var b := ContactScan(g1.objects, g1.hero, g1.lives, 0, true);
      var g2 := g1.(objects := b.0, hero := b.1, lives := b.2);
      if !g2.hero.dead {
        ContactCostsAtMostOneLife(g2.objects, g2.hero, g2.lives, 0, false);
        var c := ContactScan(g2.objects, g2.hero, g2.lives, 0, false);
        var g3 := g2.(objects := c.0, hero := c.1, lives := c.2);
        if b.2 == g.lives - 1 && !b.1.dead {
          ProtectedPlayerUntouched(g2.objects, g2.hero, g2.lives, 0, false);
        }
        if !g3.hero.dead {
          PickupsBounded(g3.objects, g3.hero, g3.lives, g3.score, 0);
        }
      }
    }
  }
}
