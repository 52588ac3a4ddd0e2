/** Whom the pilot attacks and what it collects: findBestEnemyTargetToAttack scores
    normal enemies (skipping those shot at in the last 150 ms) and prefers the last
    live boss of the scan when that boss scores higher or no normal enemy is left;
    findBestPowerUpTarget scores reachable power-ups by type, lives left and
    distance. Both keep the first entry of highest score, which is the first entry
    of least negated score, so the scans are Selection.FirstMin again. */
module Targeting {
  import opened Common
  import opened Entities
  import opened Selection
  import opened AIConstants

  // ---------------------------------------------------------------- enemies

  const DeepEnemyBonus: real := 11000.0
  const VeryDeepEnemyBonus: real := 16000.0

  /** Score of a normal enemy: close in x and in y to the preferred position is
      better, deep enemies get a bonus, enemies far up the screen a penalty. */
  function NormalEnemyScore(e: Entity, px: real): real {
    var base := 1000.0 - Abs(px - e.x) * 2.8 - Abs(PreferredY - e.y) * 0.15;
    var bonus := if e.y > ScreenHeight * 0.75 then VeryDeepEnemyBonus * 0.7
                 else if e.y > ScreenHeight * 0.60 then DeepEnemyBonus * 0.7
                 else 0.0;
    var penalty := if e.y < PreferredY - ScreenHeight * 0.70 then 6000.0 else 0.0;
    base + bonus - penalty
  }

  /** Score of a boss, on the same pattern with larger weights. */
  function BossScore(e: Entity, px: real): real {
    var base := 28000.0 - Abs(px - e.x) * 2.2 - Abs(PreferredY - e.y) * 0.1;
    var bonus := if e.y > ScreenHeight * 0.75 then VeryDeepEnemyBonus
                 else if e.y > ScreenHeight * 0.60 then DeepEnemyBonus
                 else 0.0;
    var penalty := if e.y < PreferredY - ScreenHeight * 0.75 then 9000.0 else 0.0;
    base + bonus - penalty
  }

  /** The pilot shot at this enemy less than 150 ms ago. */
  predicate RecentlyShot(memory: map<EntityId, int>, id: EntityId, now: int) {
    id in memory && now - memory[id] < ShotExpiryMs
  }

  /** A live normal enemy not recently shot at competes with its negated score
      (the scan starts from -Double.MAX_VALUE and needs a strictly higher score). */
  function NormalTargetCost(e: Entity, px: real, memory: map<EntityId, int>, now: int): (c: Option<real>)
    ensures c.Some? ==> e.kind.NormalEnemy? && !e.dead && !RecentlyShot(memory, e.id, now)
    ensures c.Some? ==> c.value == -NormalEnemyScore(e, px)
  {
    if e.dead || !e.kind.NormalEnemy? || RecentlyShot(memory, e.id, now) then None
    else if NormalEnemyScore(e, px) > -DoubleMax then Some(-NormalEnemyScore(e, px))
    else None
  }

  function NormalTargetCosts(view: seq<Entity>, px: real, memory: map<EntityId, int>, now: int): (costs: Costs)
    ensures |costs| == |view|
  {
    seq(|view|, k requires 0 <= k < |view| => NormalTargetCost(view[k], px, memory, now))
  }

  function BestNormalEnemy(view: seq<Entity>, px: real, memory: map<EntityId, int>, now: int): (c: Option<nat>)
    ensures c.Some? ==> c.value < |view| && NormalTargetCost(view[c.value], px, memory, now).Some?
  {
    FirstMinIsFirstMin(NormalTargetCosts(view, px, memory, now));
    FirstMin(NormalTargetCosts(view, px, memory, now))
  }

  /** The last live boss of the snapshot: every boss the scan meets overwrites the
      one it remembered. */
  function LastLiveBoss(view: seq<Entity>): (r: Option<nat>)
    ensures r.Some? ==> r.value < |view| && IsLiveBoss(view[r.value])
    ensures r.Some? ==> forall k :: r.value < k < |view| ==> !IsLiveBoss(view[k])
    ensures r.None? ==> forall k :: 0 <= k < |view| ==> !IsLiveBoss(view[k])
  {
    if |view| == 0 then None
    else if IsLiveBoss(view[|view| - 1]) then Some(|view| - 1)
    else LastLiveBoss(view[..|view| - 1])
  }

  /** What findBestEnemyTargetToAttack settles on. */
  function EnemyTarget(view: seq<Entity>, px: real, memory: map<EntityId, int>, now: int): (c: Option<nat>)
    ensures c.Some? ==> c.value < |view|
  {
    var normal := BestNormalEnemy(view, px, memory, now);
    match LastLiveBoss(view)
    case None => normal
    case Some(b) =>
      if normal.None? || BossScore(view[b], px) > NormalEnemyScore(view[normal.value], px) then Some(b)
      else normal
  }

  /** The enemy target: it is a live enemy; a normal enemy shot at in the last
      150 ms is never chosen; the only boss ever chosen is the last live one; a
      live boss guarantees a target; a chosen normal enemy scores at least as much
      as every eligible normal enemy, strictly more than those before it, and at
      least as much as the last live boss. */
  lemma EnemyTargetIsBest(view: seq<Entity>, px: real, memory: map<EntityId, int>, now: int)
    ensures var c := EnemyTarget(view, px, memory, now);
      && (c.Some? ==> IsLiveEnemy(view[c.value]))
      && (c.Some? && view[c.value].kind.NormalEnemy? ==> !RecentlyShot(memory, view[c.value].id, now))
      && (c.Some? && view[c.value].kind.Boss? ==> c == LastLiveBoss(view))
      && ((exists k :: 0 <= k < |view| && IsLiveBoss(view[k])) ==> c.Some?)
    ensures var c := EnemyTarget(view, px, memory, now);
      c.Some? && view[c.value].kind.NormalEnemy? ==>
        var s := NormalEnemyScore(view[c.value], px);
        && (forall k :: 0 <= k < |view| && NormalTargetCost(view[k], px, memory, now).Some? ==>
              NormalEnemyScore(view[k], px) <= s)
        && (forall k :: 0 <= k < c.value && NormalTargetCost(view[k], px, memory, now).Some? ==>
              NormalEnemyScore(view[k], px) < s)
        && (LastLiveBoss(view).Some? ==> BossScore(view[LastLiveBoss(view).value], px) <= s)
  {
    var costs := NormalTargetCosts(view, px, memory, now);
    FirstMinIsFirstMin(costs);
    var c := EnemyTarget(view, px, memory, now);
    if c.Some? && view[c.value].kind.NormalEnemy? {
      var m := c.value;
      assert c == BestNormalEnemy(view, px, memory, now);
      forall k | 0 <= k < |view| && NormalTargetCost(view[k], px, memory, now).Some?
        ensures NormalEnemyScore(view[k], px) <= NormalEnemyScore(view[m], px)
      {
        assert costs[k].Some? && costs[m].Some?;
      }
      forall k | 0 <= k < m && NormalTargetCost(view[k], px, memory, now).Some?
        ensures NormalEnemyScore(view[k], px) < NormalEnemyScore(view[m], px)
      {
        assert costs[k].Some?;
      }
    }
  }

  /** A boss on screen always outscores every normal enemy (at most 12200 against
      at least 17802), so while one is alive the pilot attacks the last of them. */
  lemma BossOnScreenIsTheTarget(view: seq<Entity>, px: real, memory: map<EntityId, int>, now: int)
    requires 0.0 <= px <= ScreenWidth
    requires forall k :: 0 <= k < |view| && IsLiveBoss(view[k]) ==>
               0.0 <= view[k].x <= ScreenWidth && 0.0 <= view[k].y <= ScreenHeight
    requires exists k :: 0 <= k < |view| && IsLiveBoss(view[k])
    ensures EnemyTarget(view, px, memory, now) == LastLiveBoss(view)
  {
    var b := LastLiveBoss(view).value;
    var normal := BestNormalEnemy(view, px, memory, now);
    if normal.Some? {
      NormalScoreAtMost(view[normal.value], px);
      BossScoreAtLeast(view[b], px);
    }
  }

  lemma NormalScoreAtMost(e: Entity, px: real)
    ensures NormalEnemyScore(e, px) <= 12200.0
  {
  }

  lemma BossScoreAtLeast(e: Entity, px: real)
    requires 0.0 <= px <= ScreenWidth && 0.0 <= e.x <= ScreenWidth && 0.0 <= e.y <= ScreenHeight
    ensures BossScore(e, px) >= 17802.0
  {
  }

  /** AIPlayerController.isTargetAligned: the target is more than a quarter of the
      player's height above it, less than 720 pixels above it, and within the
      tolerance in x. */
  predicate IsTargetAligned(target: Option<Entity>, px: real, py: real, tolerance: real) {
    && target.Some?
    && target.value.y < py - PlayerHeight * 0.25
    && target.value.y > py - ScreenHeight * 0.90
    && Abs(px - target.value.x) < tolerance
  }

  /** Alignment only gets easier with a wider tolerance, and an aligned target is
      always above the player. */
  lemma AlignmentMonotoneInTolerance(target: Option<Entity>, px: real, py: real, tolerance: real, wider: real)
    requires tolerance <= wider
    requires IsTargetAligned(target, px, py, tolerance)
    ensures IsTargetAligned(target, px, py, wider)
    ensures target.value.y < py
  {
  }

  // ---------------------------------------------------------------- power-ups

  const PowerUpHighPenalty: real := 700.0

  /** Base value of a power-up type given the lives left: a shield is worth more
      on the last life; a health pack is worth most on the last life and little
      with three or more. */
  function PowerUpBaseScore(t: PowerUpType, lives: int): real {
    match t
    case Shield => if lives <= 1 then 1350.0 + 1250.0 else 1350.0
    case TripleShot => 750.0
    case HealthPack => if lives == 1 then 1950.0 else if lives == 2 then 850.0 else 250.0
  }

  /** The ranking of the types at equal position, for every count of lives. */
  lemma PowerUpTypeRanking(lives: int)
    ensures PowerUpBaseScore(Shield, lives) > PowerUpBaseScore(HealthPack, lives)
    ensures PowerUpBaseScore(Shield, lives) > PowerUpBaseScore(TripleShot, lives)
    ensures 1 <= lives <= 2 ==> PowerUpBaseScore(HealthPack, lives) > PowerUpBaseScore(TripleShot, lives)
    ensures lives >= 3 || lives <= 0 ==> PowerUpBaseScore(HealthPack, lives) < PowerUpBaseScore(TripleShot, lives)
  {
  }

  /** Score of a power-up: the type's value, less 0.8 per unit of distance from the
      preferred position (`dist` is the Euclidean distance, left uninterpreted),
      less a penalty when high up the screen and another when far to the side. */
  function PowerUpScore(e: Entity, px: real, lives: int, dist: (real, real, real, real) -> real): real
    requires e.kind.Item?
  {
    var base := PowerUpBaseScore(e.kind.powerUp, lives) - dist(px, PreferredY, e.x, e.y) * 0.8;
    var heightPenalty := if e.y < PreferredY - PlayerHeight * 3.0 then PowerUpHighPenalty * 1.8
                         else if e.y < PreferredY - PlayerHeight * 1.5 then PowerUpHighPenalty * 0.6
                         else 0.0;
    var sidePenalty := if Abs(px - e.x) > ScreenWidth * 0.40 then 400.0 else 0.0;
    base - heightPenalty - sidePenalty
  }

  /** A power-up the pilot could pick up without leaving the bottom rows: within
      three player heights of the preferred y, or below it and still on screen. */
  predicate ReachableY(e: Entity, rangeInHeights: real) {
    || Abs(e.y - PreferredY) < PlayerHeight * rangeInHeights
    || (e.y > PreferredY && e.y < ScreenHeight - e.height / 2.0)
  }

  function PowerUpCost(e: Entity, px: real, lives: int, dist: (real, real, real, real) -> real): (c: Option<real>)
    ensures c.Some? ==> e.kind.Item? && !e.dead && ReachableY(e, 3.0)
    ensures c.Some? ==> c.value == -PowerUpScore(e, px, lives, dist)
  {
    if e.dead || !e.kind.Item? || !ReachableY(e, 3.0) then None
    else if PowerUpScore(e, px, lives, dist) > -DoubleMax then Some(-PowerUpScore(e, px, lives, dist))
    else None
  }

  function PowerUpCosts(view: seq<Entity>, px: real, lives: int, dist: (real, real, real, real) -> real): (costs: Costs)
    ensures |costs| == |view|
  {
    seq(|view|, k requires 0 <= k < |view| => PowerUpCost(view[k], px, lives, dist))
  }

  /** What findBestPowerUpTarget settles on. */
  function BestPowerUp(view: seq<Entity>, px: real, lives: int, dist: (real, real, real, real) -> real): (c: Option<nat>)
    ensures c.Some? ==> c.value < |view| && PowerUpCost(view[c.value], px, lives, dist).Some?
  {
    FirstMinIsFirstMin(PowerUpCosts(view, px, lives, dist));
    FirstMin(PowerUpCosts(view, px, lives, dist))
  }

  /** The power-up target is a live, reachable power-up with the highest score
      among the live reachable ones, the first of them on ties; there is none only
      when no live power-up is reachable (or every score is below the sentinel). */
  lemma BestPowerUpIsBest(view: seq<Entity>, px: real, lives: int, dist: (real, real, real, real) -> real)
    ensures BestPowerUp(view, px, lives, dist).None? <==>
            (forall k :: 0 <= k < |view| ==> PowerUpCost(view[k], px, lives, dist).None?)
    ensures BestPowerUp(view, px, lives, dist).Some? ==>
      var m := BestPowerUp(view, px, lives, dist).value;
      && view[m].kind.Item? && !view[m].dead && ReachableY(view[m], 3.0)
      && (forall k :: 0 <= k < |view| && PowerUpCost(view[k], px, lives, dist).Some? ==>
            PowerUpScore(view[k], px, lives, dist) <= PowerUpScore(view[m], px, lives, dist))
      && (forall k :: 0 <= k < m && PowerUpCost(view[k], px, lives, dist).Some? ==>
            PowerUpScore(view[k], px, lives, dist) < PowerUpScore(view[m], px, lives, dist))
  {
    var costs := PowerUpCosts(view, px, lives, dist);
    FirstMinIsFirstMin(costs);
    var c := BestPowerUp(view, px, lives, dist);
    if c.None? {
      forall k | 0 <= k < |view| ensures PowerUpCost(view[k], px, lives, dist).None? {
        assert costs[k].None?;
      }
    } else {
      var m := c.value;
      forall k | 0 <= k < |view| && PowerUpCost(view[k], px, lives, dist).Some?
        ensures PowerUpScore(view[k], px, lives, dist) <= PowerUpScore(view[m], px, lives, dist)
      {
        assert costs[k].Some? && costs[m].Some?;
      }
      forall k | 0 <= k < m && PowerUpCost(view[k], px, lives, dist).Some?
        ensures PowerUpScore(view[k], px, lives, dist) < PowerUpScore(view[m], px, lives, dist)
      {
        assert costs[k].Some?;
      }
    }
  }
}
