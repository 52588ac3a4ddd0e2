/** What the pilot considers dangerous: the enemy shot that will reach the player's
    height soonest inside the reaction window (assessThreateningBullets), the enemy
    hull that is nearest among those too close (assessProximityThreats), and the shot
    whose sampled path soonest crosses the player's box at the preferred height
    (findClosestBulletThreateningPosition). Each is a first-minimum scan; here each
    entry's cost is a function, and the scan is Selection.FirstMin. */
module Threats {
  import opened Common
  import opened Entities
  import opened Selection
  import opened AIConstants

  // ---------------------------------------------------------------- bullet threats

  /** Time until shot b reaches the player's current height py, or None when the
      shot is skipped; Double.MAX_VALUE stands for "never". A shot moving upward and
      already more than 1.5 player heights below is skipped; a shot with almost no
      vertical speed counts as an immediate 0.02 s threat when level with the player
      and is skipped otherwise. */
  function ImpactTime(b: Entity, py: real): Option<real> {
    if b.vy < -0.1 && b.y > py + PlayerHeight * 1.5 then None
    else if b.vy > 0.01 then Some(if b.y < py then (py - b.y) / b.vy else DoubleMax)
    else if b.vy < -0.01 then Some(if b.y > py then (b.y - py) / (-b.vy) else DoubleMax)
    else if Abs(b.y - py) < PlayerHeight / 2.0 + b.height / 2.0 + 5.0 then Some(0.02)
    else None
  }

  /** The shot's time-to-impact when it is a threat to a player at (px, py): a live
      enemy shot whose time-to-impact lies in [0, 1.5) and whose x, extrapolated to
      that time, lies within the player's half width plus 10 of px. */
  function ThreatTime(b: Entity, px: real, py: real): (t: Option<real>)
    ensures t.Some? ==> IsLiveEnemyShot(b) && 0.0 <= t.value < ReactionWindow
    ensures t.Some? ==> px - PlayerWidth / 2.0 - XDetectionBuffer <= b.x + b.vx * t.value
                        <= px + PlayerWidth / 2.0 + XDetectionBuffer
    // the time is when the shot's centre reaches the player's height
    ensures t.Some? && Abs(b.vy) > 0.01 ==> b.y + b.vy * t.value == py
    ensures t.Some? && Abs(b.vy) <= 0.01 ==> t.value == 0.02
  {
    if !IsLiveEnemyShot(b) then None
    else
      match ImpactTime(b, py)
      case None => None
      case Some(tti) =>
        var predictedX := b.x + b.vx * tti;
        if 0.0 <= tti < ReactionWindow
           && px - PlayerWidth / 2.0 - XDetectionBuffer <= predictedX <= px + PlayerWidth / 2.0 + XDetectionBuffer
        then Some(tti)
        else None
  }

  function ThreatCosts(view: seq<Entity>, px: real, py: real): (costs: Costs)
    ensures |costs| == |view|
  {
    seq(|view|, k requires 0 <= k < |view| => ThreatTime(view[k], px, py))
  }

  /** What assessThreateningBullets settles on: the first shot of least
      time-to-impact among those that threaten. */
  function ThreatChoice(view: seq<Entity>, px: real, py: real): (c: Option<nat>)
    ensures c.Some? ==> c.value < |view| && ThreatTime(view[c.value], px, py).Some?
  {
    FirstMinIsFirstMin(ThreatCosts(view, px, py));
    FirstMin(ThreatCosts(view, px, py))
  }

  /** The recorded time-to-impact: the chosen shot's, or the sentinel. */
  function ThreatTti(view: seq<Entity>, px: real, py: real): real {
    match ThreatChoice(view, px, py)
    case None => DoubleMax
    case Some(m) => ThreatTime(view[m], px, py).value
  }

  /** The threat assessment: nothing is chosen exactly when no shot threatens, and
      then the sentinel is recorded; otherwise the chosen shot is live, threatens
      within [0, 1.5) inside the detection band, no threatening shot is sooner, and
      every threatening shot before it is strictly later. */
  lemma ThreatChoiceIsSoonest(view: seq<Entity>, px: real, py: real)
    ensures ThreatChoice(view, px, py).None? <==>
            (forall k :: 0 <= k < |view| ==> ThreatTime(view[k], px, py).None?)
    ensures ThreatChoice(view, px, py).None? ==> ThreatTti(view, px, py) == DoubleMax
    ensures ThreatChoice(view, px, py).Some? ==>
      var m := ThreatChoice(view, px, py).value;
      var t := ThreatTti(view, px, py);
      && IsLiveEnemyShot(view[m]) && 0.0 <= t < ReactionWindow
      && px - PlayerWidth / 2.0 - XDetectionBuffer <= view[m].x + view[m].vx * t
         <= px + PlayerWidth / 2.0 + XDetectionBuffer
      && (forall k :: 0 <= k < |view| && ThreatTime(view[k], px, py).Some? ==> t <= ThreatTime(view[k], px, py).value)
      && (forall k :: 0 <= k < m && ThreatTime(view[k], px, py).Some? ==> t < ThreatTime(view[k], px, py).value)
  {
    var costs := ThreatCosts(view, px, py);
    FirstMinIsFirstMin(costs);
    if ThreatChoice(view, px, py).None? {
      forall k | 0 <= k < |view| ensures ThreatTime(view[k], px, py).None? {
        assert costs[k].None?;
      }
    } else {
      var m := ThreatChoice(view, px, py).value;
      forall k | 0 <= k < |view| && ThreatTime(view[k], px, py).Some?
        ensures ThreatTti(view, px, py) <= ThreatTime(view[k], px, py).value
      {
        assert costs[k].Some? && costs[m].Some?;
      }
      forall k | 0 <= k < m && ThreatTime(view[k], px, py).Some?
        ensures ThreatTti(view, px, py) < ThreatTime(view[k], px, py).value
      {
        assert costs[k].Some?;
      }
    }
  }

  // ---------------------------------------------------------------- hull proximity

  /** Effective distance to a live enemy hull that is within 22 pixels of touching
      the player at (px, py): the gap along x plus the gap along y, each clamped at
      zero. None for anything else. */
  function ProximityCost(e: Entity, px: real, py: real): (d: Option<real>)
    ensures d.Some? ==> IsLiveEnemy(e)
    ensures d.Some? ==>
              && Abs(px - e.x) < (PlayerWidth + e.width) / 2.0 + ProximityThreshold * 0.4
              && Abs(py - e.y) < (PlayerHeight + e.height) / 2.0 + ProximityThreshold * 0.4
    // the distance is zero exactly when the boxes touch or overlap
    ensures d.Some? ==> d.value >= 0.0 && (d.value == 0.0 <==> Overlaps(px, py, PlayerWidth, PlayerHeight, e))
  {
    if !IsLiveEnemy(e) then None
    else
      var halfWidths := (PlayerWidth + e.width) / 2.0;
      var halfHeights := (PlayerHeight + e.height) / 2.0;
      var deltaX := Abs(px - e.x);
      var deltaY := Abs(py - e.y);
      if deltaX < halfWidths + ProximityThreshold * 0.4 && deltaY < halfHeights + ProximityThreshold * 0.4
      then Some(MaxReal(0.0, deltaX - halfWidths) + MaxReal(0.0, deltaY - halfHeights))
      else None
  }

  function ProximityCosts(view: seq<Entity>, px: real, py: real): (costs: Costs)
    ensures |costs| == |view|
  {
    seq(|view|, k requires 0 <= k < |view| => ProximityCost(view[k], px, py))
  }

  function ProximityChoice(view: seq<Entity>, px: real, py: real): (c: Option<nat>)
    ensures c.Some? ==> c.value < |view| && ProximityCost(view[c.value], px, py).Some?
  {
    FirstMinIsFirstMin(ProximityCosts(view, px, py));
    FirstMin(ProximityCosts(view, px, py))
  }

  /** assessProximityThreats: nothing is chosen exactly when no live enemy is close;
      otherwise the chosen hull is a live enemy with the least effective distance,
      the first one on ties, and an overlapping hull always beats one that is not. */
  lemma ProximityChoiceIsNearest(view: seq<Entity>, px: real, py: real)
    ensures ProximityChoice(view, px, py).None? <==>
            (forall k :: 0 <= k < |view| ==> ProximityCost(view[k], px, py).None?)
    ensures ProximityChoice(view, px, py).Some? ==>
      var m := ProximityChoice(view, px, py).value;
      var d := ProximityCost(view[m], px, py).value;
      && IsLiveEnemy(view[m])
      && (forall k :: 0 <= k < |view| && ProximityCost(view[k], px, py).Some? ==> d <= ProximityCost(view[k], px, py).value)
      && (forall k :: 0 <= k < m && ProximityCost(view[k], px, py).Some? ==> d < ProximityCost(view[k], px, py).value)
      && ((exists k :: 0 <= k < |view| && IsLiveEnemy(view[k]) && Overlaps(px, py, PlayerWidth, PlayerHeight, view[k]))
          ==> Overlaps(px, py, PlayerWidth, PlayerHeight, view[m]))
  {
    var costs := ProximityCosts(view, px, py);
    FirstMinIsFirstMin(costs);
    if ProximityChoice(view, px, py).None? {
      forall k | 0 <= k < |view| ensures ProximityCost(view[k], px, py).None? {
        assert costs[k].None?;
      }
    } else {
      var m := ProximityChoice(view, px, py).value;
      forall k | 0 <= k < |view| && ProximityCost(view[k], px, py).Some?
        ensures ProximityCost(view[m], px, py).value <= ProximityCost(view[k], px, py).value
      {
        assert costs[k].Some? && costs[m].Some?;
      }
      forall k | 0 <= k < m && ProximityCost(view[k], px, py).Some?
        ensures ProximityCost(view[m], px, py).value < ProximityCost(view[k], px, py).value
      {
        assert costs[k].Some?;
      }
      if k :| 0 <= k < |view| && IsLiveEnemy(view[k]) && Overlaps(px, py, PlayerWidth, PlayerHeight, view[k]) {
        OverlappingHullIsClose(view[k], px, py);
        assert ProximityCost(view[k], px, py).value == 0.0;
      }
    }
  }

  /** A live hull that overlaps the player is always close enough to be considered. */
  lemma OverlappingHullIsClose(e: Entity, px: real, py: real)
    requires IsLiveEnemy(e) && Overlaps(px, py, PlayerWidth, PlayerHeight, e)
    ensures ProximityCost(e, px, py) == Some(0.0)
  {
  }

  // ------------------------------------------------------ closest sampled bullet

  /** Sample j of findClosestBulletThreateningPosition's time grid. */
  function ClosestSample(j: nat): real {
    0.01 + 0.02 * (j as real)
  }

  /** How many samples fit in the horizon: those with time at most the horizon. */
  function ClosestSampleCount(horizon: real): (n: nat)
    ensures forall j: nat :: j < n <==> ClosestSample(j) <= horizon
  {
    if horizon < 0.01 then 0
    else
      var q := (horizon - 0.01) / 0.02;
      q.Floor + 1
  }

  /** The y test at a sample: a shot above the player's centre is unsafe within
      0.7 of the safe distance above, one at or below within 0.7 of the safe
      distance below. */
  predicate YUnsafe(yDiff: real) {
    if yDiff > 0.0 then yDiff < SafeYAbove * 0.7 else Abs(yDiff) < SafeYBelow * 0.7
  }

  /** Shot b, extrapolated t seconds ahead, overlaps the player's box centred at
      (px, pyPos) and is unsafe in y. */
  predicate SampleHits(b: Entity, px: real, pyPos: real, t: real) {
    SampleOverlaps(b, px, pyPos, t) && YUnsafe(pyPos - (b.y + b.vy * t))
  }

  /** Shot b, extrapolated t seconds ahead, overlaps the player's box centred at
      (px, pyPos). */
  predicate SampleOverlaps(b: Entity, px: real, pyPos: real, t: real) {
    && Abs(b.x + b.vx * t - px) < PlayerWidth / 2.0 + b.width / 2.0
    && Abs(b.y + b.vy * t - pyPos) < PlayerHeight / 2.0 + b.height / 2.0
  }

  /** The first hitting sample among t, t + 0.02, ... up to the horizon. `fuel`
      bounds the number of samples left; started at 0.01 with the sample count of
      the horizon, it never runs out before the time passes the horizon. */
  function FirstHitFrom(b: Entity, px: real, pyPos: real, horizon: real, t: real, fuel: nat): (r: Option<real>)
    ensures r.Some? ==> t <= r.value <= horizon && SampleHits(b, px, pyPos, r.value)
    ensures SampleHits(b, px, pyPos, t) && t <= horizon && fuel > 0 ==> r == Some(t)
    decreases fuel
  {
    if fuel == 0 || t > horizon then None
    else if SampleHits(b, px, pyPos, t) then Some(t)
    else FirstHitFrom(b, px, pyPos, horizon, t + 0.02, fuel - 1)
  }

  lemma FirstHitSkipsMiss(b: Entity, px: real, pyPos: real, horizon: real, t: real, fuel: nat)
    requires !SampleHits(b, px, pyPos, t) && t <= horizon && fuel > 0
    ensures FirstHitFrom(b, px, pyPos, horizon, t, fuel) == FirstHitFrom(b, px, pyPos, horizon, t + 0.02, fuel - 1)
  {
  }

  /** Started at the first sample, the sample count outlasts the horizon. */
  lemma SampleCountCoversHorizon(horizon: real)
    ensures ClosestSample(0) + 0.02 * (ClosestSampleCount(horizon) as real) > horizon
  {
    assert !(ClosestSample(ClosestSampleCount(horizon)) <= horizon);
  }

  /** The time of the shot's first hitting sample. */
  function FirstHit(b: Entity, px: real, pyPos: real, horizon: real): Option<real> {
    FirstHitFrom(b, px, pyPos, horizon, ClosestSample(0), ClosestSampleCount(horizon))
  }

  /** A live shot's cost is the time of its first hitting sample, when that is
      strictly before the horizon (the scan starts from the horizon as its bound). */
  function ClosestCost(b: Entity, px: real, pyPos: real, horizon: real): (t: Option<real>)
    ensures t.Some? ==> IsLiveEnemyShot(b) && t.value < horizon && SampleHits(b, px, pyPos, t.value)
  {
    if !IsLiveEnemyShot(b) then None
    else
      match FirstHit(b, px, pyPos, horizon)
      case None => None
      case Some(t) => if t < horizon then Some(t) else None
  }

  function ClosestCosts(view: seq<Entity>, px: real, pyPos: real, horizon: real): (costs: Costs)
    ensures |costs| == |view|
  {
    seq(|view|, k requires 0 <= k < |view| => ClosestCost(view[k], px, pyPos, horizon))
  }

  function ClosestChoice(view: seq<Entity>, px: real, pyPos: real, horizon: real): (c: Option<nat>)
    ensures c.Some? ==> c.value < |view| && ClosestCost(view[c.value], px, pyPos, horizon).Some?
  {
    FirstMinIsFirstMin(ClosestCosts(view, px, pyPos, horizon));
    FirstMin(ClosestCosts(view, px, pyPos, horizon))
  }

  /** The inner loop of findClosestBulletThreateningPosition: step through the
      samples 0.01, 0.03, ... up to the horizon and stop at the first one where the
      shot overlaps the player's box and is unsafe in y (SampleHits holds the two
      nested tests). */
  method FirstHittingSample(bullet: Entity, playerCurrentX: real, playerYPos: real, reactionHorizon: real)
    returns (hitTime: Option<real>)
    ensures hitTime == FirstHit(bullet, playerCurrentX, playerYPos, reactionHorizon)
  {
    var t := 0.01;
    ghost var fuel := ClosestSampleCount(reactionHorizon);
    ghost var firstHit := FirstHit(bullet, playerCurrentX, playerYPos, reactionHorizon);
    SampleCountCoversHorizon(reactionHorizon);
    while t <= reactionHorizon
      invariant t + 0.02 * (fuel as real) > reactionHorizon
      invariant firstHit == FirstHitFrom(bullet, playerCurrentX, playerYPos, reactionHorizon, t, fuel)
      decreases fuel
    {
      if SampleHits(bullet, playerCurrentX, playerYPos, t) {
        return Some(t);
      }
      FirstHitSkipsMiss(bullet, playerCurrentX, playerYPos, reactionHorizon, t, fuel);
      t := t + 0.02;
      fuel := fuel - 1;
    }
    assert FirstHitFrom(bullet, playerCurrentX, playerYPos, reactionHorizon, t, fuel) == None;
    return None;
  }

  /** AIPlayerController.findClosestBulletThreateningPosition: each live shot is
      sampled until its first hitting sample, and the shot whose first hit is
      soonest (and before the horizon) is kept; the first such shot wins ties. */
  method FindClosestBulletThreateningPosition(view: seq<Entity>, playerCurrentX: real, playerYPos: real,
                                              reactionHorizon: real) returns (closestThreat: Option<Entity>)
    ensures closestThreat == Pick(view, ClosestChoice(view, playerCurrentX, playerYPos, reactionHorizon))
    ensures closestThreat.Some? ==> IsLiveEnemyShot(closestThreat.value)
  {
    ghost var costs := ClosestCosts(view, playerCurrentX, playerYPos, reactionHorizon);
    ghost var best: Option<nat> := None;
    closestThreat := None;
    var minTimeToActualCollision := reactionHorizon;
    for k := 0 to |view|
      invariant best.Some? ==> best.value < k && costs[best.value].Some?
      invariant MinFrom(costs, k, best) == FirstMin(costs)
      invariant closestThreat == Pick(view, best)
      invariant minTimeToActualCollision == if best.Some? then costs[best.value].value else reactionHorizon
    {
      var bullet := view[k];
      if bullet.kind.EnemyShot? && !bullet.dead {
        var hitTime := FirstHittingSample(bullet, playerCurrentX, playerYPos, reactionHorizon);
        if hitTime.Some? && hitTime.value < minTimeToActualCollision {
          minTimeToActualCollision := hitTime.value;
          closestThreat := Some(bullet);
          best := Some(k);
        }
      }
    }
  }
}
