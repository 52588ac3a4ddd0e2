/** How the pilot gets out of the way: the edge guards canMoveLeftSafely and
    canMoveRightSafely, the sidestep away from an enemy hull (performEnemyBodyDodge),
    the teleport search (findAndExecuteShortestTeleport), the layered bullet dodge
    (performStrategicDodge: ideal, then panic, then micro, then teleport) and the
    return to the preferred height (adjustYToPreferredPosition). Each decision is a
    function of the snapshot, stated with the safety oracle's ZoneClear. */
module Evasion {
  import opened Common
  import opened Entities
  import opened SafetyOracle
  import opened Threats
  import opened AIConstants

  /** The horizontal intent a decision writes to the player, or a teleport. */
  datatype Move = Stay | GoLeft | GoRight | Teleport(x: real)

  /** Which part of the strategic dodge produced the move. */
  datatype Tier = BodyTier | IdealTier | PanicTier | MicroTier | TeleportTier

  datatype Dodge = Dodge(tier: Tier, move: Move)

  /** The player's box keeps more than a pixel off the left edge. */
  predicate CanMoveLeftSafely(px: real) {
    px - PlayerWidth / 2.0 > 1.0
  }

  /** The player's box keeps more than a pixel off the right edge. */
  predicate CanMoveRightSafely(px: real) {
    px + PlayerWidth / 2.0 < ScreenWidth - 1.0
  }

  /** The zone around x at the preferred height is clear of shots for the horizon. */
  predicate ClearAt(view: seq<Entity>, x: real, horizon: real) {
    ZoneClear(view, x, PreferredY, SafeZoneRadius, horizon)
  }

  // ---------------------------------------------------------------- hull dodge

  const BodyDodgeOffset: real := StrategicDodgeDistance * 0.6

  predicate BodyLeftOk(view: seq<Entity>, px: real) {
    CanMoveLeftSafely(px) && ClearAt(view, px - BodyDodgeOffset, ReactionWindow)
  }

  predicate BodyRightOk(view: seq<Entity>, px: real) {
    CanMoveRightSafely(px) && ClearAt(view, px + BodyDodgeOffset, ReactionWindow)
  }

  /** performEnemyBodyDodge: step away from the hull when that side is allowed and
      clear for 1.5 s, otherwise toward the other side if that one is, otherwise
      stay. */
  function BodyDodge(view: seq<Entity>, px: real, enemyX: real): (m: Move)
    ensures m == Stay || m == GoLeft || m == GoRight
    ensures m == GoLeft ==> BodyLeftOk(view, px)
    ensures m == GoRight ==> BodyRightOk(view, px)
    ensures m == Stay <==> !BodyLeftOk(view, px) && !BodyRightOk(view, px)
    // the side away from the hull is preferred
    ensures px > enemyX && BodyRightOk(view, px) ==> m == GoRight
    ensures px <= enemyX && BodyLeftOk(view, px) ==> m == GoLeft
  {
    if px - enemyX > 0.0 then
      if BodyRightOk(view, px) then GoRight
      else if BodyLeftOk(view, px) then GoLeft
      else Stay
    else
      if BodyLeftOk(view, px) then GoLeft
      else if BodyRightOk(view, px) then GoRight
      else Stay
  }

  // ---------------------------------------------------------------- teleport

  /** The search steps by a fifth of the player's width, 40 * 0.20 = 8 pixels, out
      to 512 / 2.5 = 204.8 pixels: candidates k = 1 .. 25. */
  const MaxTeleportRadius: real := ScreenWidth / 2.5
  const TeleportCandidates: nat := 25

  /** Distance of candidate k from the player. */
  function Offset(k: nat): real {
    8.0 * (k as real)
  }

  predicate RightSpotOk(view: seq<Entity>, cx: real, k: nat) {
    cx + Offset(k) + PlayerWidth / 2.0 < ScreenWidth
    && ClearAt(view, cx + Offset(k), ReactionWindow)
  }

  predicate LeftSpotOk(view: seq<Entity>, cx: real, k: nat) {
    cx - Offset(k) - PlayerWidth / 2.0 > 0.0
    && ClearAt(view, cx - Offset(k), ReactionWindow)
  }

  /** No candidate from k up to hi is usable, on either side. */
  predicate NoSpotBetween(view: seq<Entity>, cx: real, lo: nat, hi: nat) {
    forall i :: lo <= i < hi ==> !RightSpotOk(view, cx, i) && !LeftSpotOk(view, cx, i)
  }

  /** x is candidate k: the right one if usable, else the left one. */
  predicate SpotChosenAt(view: seq<Entity>, cx: real, k: nat, x: real) {
    || (RightSpotOk(view, cx, k) && x == cx + Offset(k))
    || (!RightSpotOk(view, cx, k) && LeftSpotOk(view, cx, k) && x == cx - Offset(k))
  }

  /** The loop runs while the offset is within 204.8 pixels; that is exactly k <= 25. */
  lemma TeleportRadiusBound(k: nat)
    ensures Offset(k) <= MaxTeleportRadius <==> k <= TeleportCandidates
  {
    if k <= TeleportCandidates {
      assert Offset(k) <= 200.0;
    } else {
      assert Offset(k) >= 208.0;
    }
  }

  /** Candidate k on its own: the right spot if usable, else the left one. */
  function Candidate(view: seq<Entity>, cx: real, k: nat): (spot: Option<real>)
    ensures spot.Some? <==> RightSpotOk(view, cx, k) || LeftSpotOk(view, cx, k)
    ensures spot.Some? ==> SpotChosenAt(view, cx, k, spot.value)
  {
    if RightSpotOk(view, cx, k) then Some(cx + Offset(k))
    else if LeftSpotOk(view, cx, k) then Some(cx - Offset(k))
    else None
  }

  /** The search from candidate k on: the nearest usable spot, right before left. */
  function TeleportFrom(view: seq<Entity>, cx: real, k: nat): Option<real>
    requires 1 <= k <= TeleportCandidates + 1
    decreases TeleportCandidates + 1 - k
  {
    if k > TeleportCandidates then None
    else if Candidate(view, cx, k).Some? then Candidate(view, cx, k)
    else TeleportFrom(view, cx, k + 1)
  }

  /** The search from k finds nothing only when no candidate from k on is usable,
      and otherwise finds the spot chosen at the first usable candidate. */
  lemma {:induction false} TeleportFromFinds(view: seq<Entity>, cx: real, k: nat)
    requires 1 <= k <= TeleportCandidates + 1
    ensures TeleportFrom(view, cx, k).None? ==> NoSpotBetween(view, cx, k, TeleportCandidates + 1)
    ensures TeleportFrom(view, cx, k).Some? ==>
              exists i :: k <= i <= TeleportCandidates && NoSpotBetween(view, cx, k, i)
                          && SpotChosenAt(view, cx, i, TeleportFrom(view, cx, k).value)
    decreases TeleportCandidates + 1 - k
  {
    if k > TeleportCandidates {
    } else if RightSpotOk(view, cx, k) {
      assert NoSpotBetween(view, cx, k, k) && SpotChosenAt(view, cx, k, cx + Offset(k));
    } else if LeftSpotOk(view, cx, k) {
      assert NoSpotBetween(view, cx, k, k) && SpotChosenAt(view, cx, k, cx - Offset(k));
    } else {
      TeleportFromFinds(view, cx, k + 1);
      var r := TeleportFrom(view, cx, k + 1);
      if r.Some? {
        var i :| k + 1 <= i <= TeleportCandidates && NoSpotBetween(view, cx, k + 1, i) && SpotChosenAt(view, cx, i, r.value);
        assert NoSpotBetween(view, cx, k, i);
      }
    }
  }

  /** Where findAndExecuteShortestTeleport puts the player, if anywhere. */
  function TeleportSpot(view: seq<Entity>, cx: real): Option<real> {
    TeleportFrom(view, cx, 1)
  }

  /** What being candidate i means for the spot x. */
  lemma ChosenSpotFacts(view: seq<Entity>, cx: real, i: nat, x: real)
    requires i >= 1 && SpotChosenAt(view, cx, i, x)
    ensures Abs(x - cx) == Offset(i)
    ensures ClearAt(view, x, ReactionWindow)
    ensures x >= cx ==> x + PlayerWidth / 2.0 < ScreenWidth
    ensures x < cx ==> x - PlayerWidth / 2.0 > 0.0
  {
  }

  /** The teleport lands at most 204.8 pixels away, with the player's box inside
      the screen on the side it moved to, in a zone clear for 1.5 s, and no nearer
      candidate was usable. */
  lemma {:induction false} TeleportSpotIsNearestClear(view: seq<Entity>, cx: real)
    ensures TeleportSpot(view, cx).Some? ==>
      var x := TeleportSpot(view, cx).value;
      && Abs(x - cx) <= MaxTeleportRadius
      && (x >= cx ==> x + PlayerWidth / 2.0 < ScreenWidth)
      && (x < cx ==> x - PlayerWidth / 2.0 > 0.0)
      && ClearAt(view, x, ReactionWindow)
      && (forall k :: 1 <= k <= TeleportCandidates && Offset(k) < Abs(x - cx) ==>
            !RightSpotOk(view, cx, k) && !LeftSpotOk(view, cx, k))
    ensures TeleportSpot(view, cx).None? ==> NoSpotBetween(view, cx, 1, TeleportCandidates + 1)
  {
    TeleportFromFinds(view, cx, 1);
    if TeleportSpot(view, cx).Some? {
      var x := TeleportSpot(view, cx).value;
      var i :| 1 <= i <= TeleportCandidates && NoSpotBetween(view, cx, 1, i) && SpotChosenAt(view, cx, i, x);
      ChosenSpotFacts(view, cx, i, x);
      TeleportRadiusBound(i);
      forall k | 1 <= k <= TeleportCandidates && Offset(k) < Abs(x - cx)
        ensures !RightSpotOk(view, cx, k) && !LeftSpotOk(view, cx, k)
      {
        assert k < i;
      }
    }
  }

  function TeleportMove(view: seq<Entity>, cx: real): (m: Move)
    ensures m.Teleport? ==> ClearAt(view, m.x, ReactionWindow)
    ensures m.Teleport? <==> TeleportSpot(view, cx).Some?
    ensures m.Teleport? ==> m.x == TeleportSpot(view, cx).value && Abs(m.x - cx) <= MaxTeleportRadius
  {
    TeleportSpotIsNearestClear(view, cx);
    match TeleportSpot(view, cx)
    case None => Stay
    case Some(x) => Teleport(x)
  }

  // ---------------------------------------------------------------- strategic dodge

  /** A threat more than 0.0336 s away is traded for the shot whose sampled path
      soonest crosses the player's box within 0.0336 s, if any. */
  const CloseThreatWindow: real := ImmediateDodgeThreshold * 1.2

  function BulletToDodge(view: seq<Entity>, px: real, threat: Option<Entity>, tti: real): Option<Entity> {
    if threat.None? || tti > CloseThreatWindow then Pick(view, ClosestChoice(view, px, PreferredY, CloseThreatWindow))
    else threat
  }

  /** min(0.2, tti > 0 ? 0.4 * tti : 0.1), raised to 0.05 if below. */
  function PanicHorizon(tti: real): (h: real)
    ensures 0.05 <= h <= 0.20
    ensures tti > 0.0 ==> h == MaxReal(0.05, MinReal(0.20, tti * 0.4))
  {
    var h := MinReal(0.20, if tti > 0.0 then tti * 0.4 else 0.1);
    if h < 0.05 then 0.05 else h
  }

  /** Dodge target on one side at the given distance: allowed by the edge guard,
      on screen, and clear for the horizon. */
  predicate SideClear(view: seq<Entity>, px: real, goLeft: bool, distance: real, horizon: real) {
    if goLeft then CanMoveLeftSafely(px) && px - distance >= 0.0 && ClearAt(view, px - distance, horizon)
    else CanMoveRightSafely(px) && px + distance <= ScreenWidth && ClearAt(view, px + distance, horizon)
  }

  /** The side rule of the ideal and panic tiers: with both sides clear, move away
      from where the shot will be, or toward the centre when it is within 2 pixels. */
  function PickSide(leftOk: bool, rightOk: bool, predictedX: real, px: real): (m: Move)
    requires leftOk || rightOk
    ensures m == GoLeft ==> leftOk
    ensures m == GoRight ==> rightOk
    ensures m == GoLeft || m == GoRight
    ensures leftOk && rightOk && predictedX > px + PlayerWidth * 0.05 ==> m == GoLeft
    ensures leftOk && rightOk && predictedX < px - PlayerWidth * 0.05 ==> m == GoRight
  {
    if leftOk && rightOk then
      if predictedX > px + PlayerWidth * 0.05 then GoLeft
      else if predictedX < px - PlayerWidth * 0.05 then GoRight
      else if px < ScreenWidth / 2.0 then GoRight else GoLeft
    else if leftOk then GoLeft
    else GoRight
  }

  /** The horizon a tier's target was checked for. */
  function TierHorizon(tier: Tier, tti: real): real {
    match tier
    case PanicTier => PanicHorizon(tti)
    case MicroTier => PanicHorizon(tti)
    case _ => ReactionWindow
  }

  /** How far a tier's sidestep goes. */
  function TierDistance(tier: Tier): real {
    match tier
    case BodyTier => BodyDodgeOffset
    case MicroTier => StrategicDodgeDistance * 0.5
    case _ => StrategicDodgeDistance
  }

  /** The 17-pixel sidestep clear for the panic horizon, if either side is: away
      from the shot's predicted x when both are. */
  function MicroStep(view: seq<Entity>, px: real, predictedX: real, horizon: real): (m: Option<Move>)
    ensures m.None? <==> !SideClear(view, px, true, StrategicDodgeDistance * 0.5, horizon)
                         && !SideClear(view, px, false, StrategicDodgeDistance * 0.5, horizon)
    ensures m == Some(GoLeft) || m == Some(GoRight) || m.None?
    ensures m == Some(GoLeft) ==> SideClear(view, px, true, StrategicDodgeDistance * 0.5, horizon)
    ensures m == Some(GoRight) ==> SideClear(view, px, false, StrategicDodgeDistance * 0.5, horizon)
    ensures SideClear(view, px, true, StrategicDodgeDistance * 0.5, horizon)
            && SideClear(view, px, false, StrategicDodgeDistance * 0.5, horizon)
            ==> m == Some(if predictedX > px then GoLeft else GoRight)
  {
    var microLeft := SideClear(view, px, true, StrategicDodgeDistance * 0.5, horizon);
    var microRight := SideClear(view, px, false, StrategicDodgeDistance * 0.5, horizon);
    if microLeft && microRight then Some(if predictedX > px then GoLeft else GoRight)
    else if microLeft then Some(GoLeft)
    else if microRight then Some(GoRight)
    else None
  }

  /** The micro sidestep, or the shortest teleport when neither side is clear. */
  function MicroOrTeleport(view: seq<Entity>, px: real, predictedX: real, horizon: real): Move {
    match MicroStep(view, px, predictedX, horizon)
    case Some(m) => m
    case None => TeleportMove(view, px)
  }

  /** Where the dodged shot will be, horizontally, when it reaches the player: its x
      advanced by its velocity over the main threat's time to impact, at most 0.25 s. */
  function PredictedX(b: Entity, tti: real): real {
    b.x + b.vx * MinReal(tti, 0.25)
  }

  /** The dodge of one shot: a 34-pixel sidestep clear for 1.5 s, else the same
      sidestep clear for the panic horizon, else a 17-pixel one clear for the panic
      horizon, else a teleport. */
  function ShotDodge(view: seq<Entity>, px: real, b: Entity, tti: real): (d: Dodge)
    ensures d.tier != BodyTier
    ensures d.tier != TeleportTier ==> d.move == GoLeft || d.move == GoRight
    // a sidestep always goes to a spot its tier checked clear
    ensures d.move == GoLeft ==> SideClear(view, px, true, TierDistance(d.tier), TierHorizon(d.tier, tti))
    ensures d.move == GoRight ==> SideClear(view, px, false, TierDistance(d.tier), TierHorizon(d.tier, tti))
    // each tier is reached only when every sidestep of the tiers before it is blocked
    ensures d.tier != IdealTier ==>
              && !SideClear(view, px, true, StrategicDodgeDistance, ReactionWindow)
              && !SideClear(view, px, false, StrategicDodgeDistance, ReactionWindow)
    ensures d.tier == MicroTier || d.tier == TeleportTier ==>
              && !SideClear(view, px, true, StrategicDodgeDistance, PanicHorizon(tti))
              && !SideClear(view, px, false, StrategicDodgeDistance, PanicHorizon(tti))
    ensures d.tier == TeleportTier ==>
              && MicroStep(view, px, PredictedX(b, tti), PanicHorizon(tti)).None?
              && d.move == TeleportMove(view, px)
    ensures d.tier == MicroTier ==> Some(d.move) == MicroStep(view, px, PredictedX(b, tti), PanicHorizon(tti))
  {
    var predictedX := PredictedX(b, tti);
    var idealLeft := SideClear(view, px, true, StrategicDodgeDistance, ReactionWindow);
    var idealRight := SideClear(view, px, false, StrategicDodgeDistance, ReactionWindow);
    if idealLeft || idealRight then Dodge(IdealTier, PickSide(idealLeft, idealRight, predictedX, px))
    else
      var horizon := PanicHorizon(tti);
      var panicLeft := SideClear(view, px, true, StrategicDodgeDistance, horizon);
      var panicRight := SideClear(view, px, false, StrategicDodgeDistance, horizon);
      if panicLeft || panicRight then Dodge(PanicTier, PickSide(panicLeft, panicRight, predictedX, px))
      else
        match MicroStep(view, px, predictedX, horizon)
        case Some(m) => Dodge(MicroTier, m)
        case None => Dodge(TeleportTier, TeleportMove(view, px))
  }

  /** performStrategicDodge, given the shot it chose to dodge (BulletToDodge).
      Without one it sidesteps the threatening hull, or teleports when there is
      none; with one it is ShotDodge. */
  function StrategicDodge(view: seq<Entity>, px: real, bullet: Option<Entity>, tti: real,
                          body: Option<Entity>): (d: Dodge)
    ensures d.tier == BodyTier <==> bullet.None? && body.Some?
    ensures d.tier == BodyTier ==> d.move == BodyDodge(view, px, body.value.x)
    ensures bullet.None? && body.None? ==> d == Dodge(TeleportTier, TeleportMove(view, px))
    ensures bullet.Some? ==> d == ShotDodge(view, px, bullet.value, tti)
    // whatever the tier, a teleport lands on a spot clear for 1.5 s
    ensures d.move.Teleport? ==> d.tier == TeleportTier && d.move == TeleportMove(view, px)
                                 && ClearAt(view, d.move.x, ReactionWindow)
  {
    match bullet
    case None =>
      if body.Some? then Dodge(BodyTier, BodyDodge(view, px, body.value.x))
      else Dodge(TeleportTier, TeleportMove(view, px))
    case Some(b) =>
      ShotDodge(view, px, b, tti)
  }

  /** Every sidestep the strategic dodge chooses starts with the player's box more
      than a pixel off the edge it moves toward (centre strictly between 21 and
      491 on that side), and a shot-dodge sidestep also aims at a point on the
      screen. */
  lemma DodgeSidestepsStayOnScreen(view: seq<Entity>, px: real, bullet: Option<Entity>, tti: real,
                                   body: Option<Entity>)
    ensures var d := StrategicDodge(view, px, bullet, tti, body);
      && (d.move == GoLeft ==> px > 21.0)
      && (d.move == GoRight ==> px < 491.0)
      && (d.tier != BodyTier && d.move == GoLeft ==> px - TierDistance(d.tier) >= 0.0)
      && (d.tier != BodyTier && d.move == GoRight ==> px + TierDistance(d.tier) <= ScreenWidth)
  {
  }

  /** With both ideal sidesteps clear, the dodge moves away from the shot's
      predicted x; with one clear it takes that one. */
  lemma IdealDodgeMovesAwayFromShot(view: seq<Entity>, px: real, b: Entity, tti: real)
    requires SideClear(view, px, true, StrategicDodgeDistance, ReactionWindow)
             || SideClear(view, px, false, StrategicDodgeDistance, ReactionWindow)
    ensures var d := ShotDodge(view, px, b, tti);
            && d.tier == IdealTier
            && ((SideClear(view, px, true, StrategicDodgeDistance, ReactionWindow)
                 && SideClear(view, px, false, StrategicDodgeDistance, ReactionWindow)
                 && PredictedX(b, tti) > px + PlayerWidth * 0.05) ==> d.move == GoLeft)
            && ((SideClear(view, px, true, StrategicDodgeDistance, ReactionWindow)
                 && SideClear(view, px, false, StrategicDodgeDistance, ReactionWindow)
                 && PredictedX(b, tti) < px - PlayerWidth * 0.05) ==> d.move == GoRight)
            && (!SideClear(view, px, false, StrategicDodgeDistance, ReactionWindow) ==> d.move == GoLeft)
            && (!SideClear(view, px, true, StrategicDodgeDistance, ReactionWindow) ==> d.move == GoRight)
  {
  }

  // ---------------------------------------------------------------- height

  datatype VerticalMove = Hold | Forward | Backward

  /** adjustYToPreferredPosition: more than 5 pixels off the preferred y, move back
      toward it unless the player's box is within 2 pixels of the screen edge. */
  function AdjustY(py: real): (v: VerticalMove)
    ensures v == Forward <==> py > PreferredY + YTolerance && py - PlayerHeight / 2.0 > 2.0
    ensures v == Backward <==> py < PreferredY - YTolerance && py + PlayerHeight / 2.0 < ScreenHeight - 2.0
  {
    if Abs(py - PreferredY) > YTolerance then
      if py > PreferredY then
        if py - PlayerHeight / 2.0 > 2.0 then Forward else Hold
      else
        if py + PlayerHeight / 2.0 < ScreenHeight - 2.0 then Backward else Hold
    else Hold
  }
}
