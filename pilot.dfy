/** One tick of the AI pilot (AIPlayerController.updateAI) as a function of the
    pilot's state before the tick, the snapshot of the game objects, the clock and
    the random draws. The controller class in module Controller is proved to
    compute exactly this; the lemmas below state what the tick guarantees. */
module Pilot {
  import opened Common
  import opened Entities
  import opened SafetyOracle
  import opened AIConstants
  import opened Threats
  import opened Targeting
  import opened Evasion
  import opened PlayerShip

  /** Euclidean distance, supplied from outside (the source calls Math.sqrt). */
  type Distance = (real, real, real, real) -> real

  /** Everything updateAI reads and writes besides the snapshot: the player's
      state and the controller's fields. */
  datatype AIState = AIState(
    ship: Ship,
    threat: Option<Entity>,
    tti: real,
    body: Option<Entity>,
    target: Option<Entity>,
    powerUp: Option<Entity>,
    lastShotDecision: int,
    lastTriedShoot: int,
    memory: map<EntityId, int>)

  // ---------------------------------------------------------------- constants of updateAI

  /** |dx| above 40 * 0.75 * 0.05 = 1.5 pixels needs aligning. */
  const AlignThreshold: real := PlayerWidth * AlignmentToleranceFactor * 0.05
  /** The aligning step probed for safety: 40 * 0.35 = 14 pixels. */
  const AlignStep: real := PlayerWidth * 0.35
  /** Firing needs the target within 40 * 0.75 = 30 pixels in x. */
  const FiringTolerance: real := PlayerWidth * AlignmentToleranceFactor
  /** 0.020 s to shoot, 0.028 + 0.001 s to react after the pause, 0.12 s margin. */
  const ShotReadyTime: real := (ShootCooldownMs as real) / 1000.0
                               + (ImmediateDodgeThreshold + (PostShotPauseMs as real) / 1000.0) + 0.12
  /** A power-up is chased within 2.8 player heights in y and 512 / 1.8 in x. */
  const PowerUpChaseHeights: real := 2.8
  const PowerUpChaseWidth: real := ScreenWidth / 1.8
  /** Closer than 40 * 0.08 = 3.2 pixels the pilot stops chasing in x. */
  const PowerUpArrived: real := PlayerWidth * 0.08
  /** The idle drift: 16 * 0.6 = 9.6 pixels, one tick in 280. */
  const DriftShift: real := RepositionShift * 0.6
  const DriftOdds: int := 280

  // ---------------------------------------------------------------- pieces of the tick

  /** The cleanup at the start of updateAI: an entry stays while its enemy is alive
      and it was made at most 150 ms ago. */
  function CleanMemory(memory: map<EntityId, int>, view: seq<Entity>, now: int): (m: map<EntityId, int>)
    ensures forall id :: id in m <==> id in memory && LiveIn(view, id) && now - memory[id] <= ShotExpiryMs
    ensures forall id :: id in m ==> m[id] == memory[id]
  {
    map id | id in memory && LiveIn(view, id) && now - memory[id] <= ShotExpiryMs :: memory[id]
  }

  /** A horizontal decision applied to the player. */
  function ApplyMove(ship: Ship, m: Move): (r: Ship)
    ensures r.forward == ship.forward && r.backward == ship.backward && r.wantsToShoot == ship.wantsToShoot
    ensures r.left && r.right ==> ship.left || ship.right
    ensures r.left == (ship.left || m == GoLeft) && r.right == (ship.right || m == GoRight)
    ensures if m.Teleport? then r.x == m.x && r.y == PreferredY else r.x == ship.x && r.y == ship.y
  {
    match m
    case Stay => ship
    case GoLeft => ship.(left := true)
    case GoRight => ship.(right := true)
    case Teleport(x) => ship.(x := x, y := PreferredY)
  }

  /** A vertical decision applied to the player. */
  function ApplyVertical(ship: Ship, v: VerticalMove): (r: Ship)
    ensures r.x == ship.x && r.y == ship.y && r.wantsToShoot == ship.wantsToShoot
    ensures r.left == ship.left && r.right == ship.right
    ensures r.forward && r.backward ==> ship.forward || ship.backward
  {
    match v
    case Hold => ship
    case Forward => ship.(forward := true)
    case Backward => ship.(backward := true)
  }

  /** Flags reset, stale memory dropped, bullet and hull threats assessed at the
      player's current position. */
  function Prepared(s: AIState, view: seq<Entity>, now: int): AIState {
    var ship := FlagsCleared(s.ship);
    s.(ship := ship,
       memory := CleanMemory(s.memory, view, now),
       threat := Pick(view, ThreatChoice(view, ship.x, ship.y)),
       tti := ThreatTti(view, ship.x, ship.y),
       body := Pick(view, ProximityChoice(view, ship.x, ship.y)))
  }

  /** adjustYToPreferredPosition. */
  function Adjusted(s: AIState): AIState {
    s.(ship := ApplyVertical(s.ship, AdjustY(s.ship.y)))
  }

  /** performStrategicDodge. */
  function Dodged(s: AIState, view: seq<Entity>): AIState {
    var bullet := BulletToDodge(view, s.ship.x, s.threat, s.tti);
    s.(ship := ApplyMove(s.ship, StrategicDodge(view, s.ship.x, bullet, s.tti, s.body).move))
  }

  /** performEnemyBodyDodge. */
  function BodyDodged(s: AIState, view: seq<Entity>, enemy: Entity): AIState {
    s.(ship := ApplyMove(s.ship, BodyDodge(view, s.ship.x, enemy.x)))
  }

  /** The step toward the target's x: taken only when more than 1.5 pixels off,
      when the zone 14 pixels that way is clear for 1.5 s, and when the edge guard
      of that side allows it. */
  function AlignMove(view: seq<Entity>, px: real, tx: real): (m: Move)
    ensures m == Stay || m == GoLeft || m == GoRight
    ensures m == GoRight ==> px + AlignThreshold < tx && CanMoveRightSafely(px)
                             && ClearAt(view, px + AlignStep, ReactionWindow)
    ensures m == GoLeft ==> tx < px - AlignThreshold && CanMoveLeftSafely(px)
                            && ClearAt(view, px - AlignStep, ReactionWindow)
  {
    if Abs(px - tx) > AlignThreshold then
      // the sign of tx - px is never zero here
      var nextStepX := if tx > px then px + AlignStep else px - AlignStep;
      if ClearAt(view, nextStepX, ReactionWindow) then
        if px < tx && CanMoveRightSafely(px) then GoRight
        else if px > tx && CanMoveLeftSafely(px) then GoLeft
        else Stay
      else Stay
    else Stay
  }

  /** There is time to shoot and still dodge the main threat. */
  predicate CanShootAndStillDodge(s: AIState) {
    s.threat.None? || s.tti >= ShotReadyTime
  }

  /** tryToShoot: the wish to shoot is raised at most once every 20 ms. */
  function TriedToShoot(s: AIState, now: int): AIState {
    if now - s.lastTriedShoot > ShootCooldownMs
    then s.(ship := s.ship.(wantsToShoot := true), lastTriedShoot := now)
    else s
  }

  /** tryToShoot followed by the bookkeeping of updateAI when the wish is up: the
      decision time is stamped and a normal enemy target is remembered. */
  function Fired(s: AIState, now: int): AIState {
    var t := TriedToShoot(s, now);
    if t.ship.wantsToShoot then
      var memory := if t.target.Some? && t.target.value.kind.NormalEnemy?
                    then t.memory[t.target.value.id := now] else t.memory;
      t.(lastShotDecision := now, memory := memory)
    else t
  }

  /** performStrategicDodge from the firing step, which then drops the wish to shoot. */
  function DodgedInstead(s: AIState, view: seq<Entity>): AIState {
    var d := Dodged(s, view);
    d.(ship := d.ship.(wantsToShoot := false))
  }

  /** What the attack step leaves behind, and whether it moved or fired. */
  datatype Engagement = Engagement(state: AIState, moving: bool, shot: bool)

  /** The firing step once the pilot is aligned with its target and not moving:
      fire when there is time and the spot is clear, otherwise dodge. */
  function ShotOrDodged(s: AIState, view: seq<Entity>, now: int): Engagement {
    var canShoot := CanShootAndStillDodge(s);
    var clear := ZoneClear(view, s.ship.x, PreferredY, FiringRadius, ReactionWindow);
    if canShoot && clear then
      var f := Fired(s, now);
      Engagement(f, false, f.ship.wantsToShoot)
    else if !canShoot && s.threat.Some? then Engagement(DodgedInstead(s, view), false, false)
    else if !clear then Engagement(DodgedInstead(s, view), false, false)
    else Engagement(s, false, false)
  }

  /** The attack step of updateAI for the chosen target. */
  function Attacked(s: AIState, view: seq<Entity>, now: int): Engagement {
    match s.target
    case None => Engagement(s, false, false)
    case Some(t) =>
      var m := AlignMove(view, s.ship.x, t.x);
      var s1 := s.(ship := ApplyMove(s.ship, m));
      var moving := m != Stay;
      if !IsTargetAligned(s.target, s1.ship.x, s1.ship.y, FiringTolerance) || moving then Engagement(s1, moving, false)
      else ShotOrDodged(s1, view, now)
  }


  /** The power-up step: with no other move made this tick, head for the best
      power-up when it is near enough and its zone is clear for 1.5 s; otherwise
      forget it. The flag says whether the player moved for it. */
  function PowerUpChase(s: AIState, view: seq<Entity>, lives: int, dist: Distance): (r: (AIState, bool))
    ensures r.1 ==> r.0.ship.left || r.0.ship.right
  {
    var pick := Pick(view, BestPowerUp(view, s.ship.x, lives, dist));
    match pick
    case None => (s.(powerUp := None), false)
    case Some(p) =>
      if ReachableY(p, PowerUpChaseHeights) && Abs(p.x - s.ship.x) < PowerUpChaseWidth then
        if ClearAt(view, p.x, ReactionWindow) then
          if Abs(s.ship.x - p.x) > PowerUpArrived then
            (s.(powerUp := pick, ship := ApplyMove(s.ship, if s.ship.x < p.x then GoRight else GoLeft)), true)
          else (s.(powerUp := pick), false)
        else (s.(powerUp := None), false)
      else (s.(powerUp := None), false)
  }

  /** The idle drift: when nothing else moved the player, it stands at the
      preferred height and its zone is clear for 0.4 s, one tick in 280 it shifts
      9.6 pixels to a side chosen by a coin, if that side is allowed and clear. */
  function Drifted(s: AIState, view: seq<Entity>, busy: bool, roll: int, coin: bool): AIState {
    if !busy && !s.ship.left && !s.ship.right
       && ClearAt(view, s.ship.x, IdleHorizon) && Abs(s.ship.y - PreferredY) < YTolerance
    then
      if roll < 1 then
        if coin then
          if CanMoveRightSafely(s.ship.x) && ClearAt(view, s.ship.x + DriftShift, IdleHorizon)
          then s.(ship := s.ship.(right := true)) else s
        else
          if CanMoveLeftSafely(s.ship.x) && ClearAt(view, s.ship.x - DriftShift, IdleHorizon)
          then s.(ship := s.ship.(left := true)) else s
      else s
    else s
  }

  /** The rest of the tick when the player is safe, not pausing and not dodging a
      hull: choose a target and attack it, chase a power-up, settle the height and
      maybe drift. */
  function Engaged(s: AIState, view: seq<Entity>, now: int, lives: int, dist: Distance,
                   roll: int, coin: bool): AIState {
    var t := s.(target := Pick(view, EnemyTarget(view, s.ship.x, s.memory, now)));
    var a := Attacked(t, view, now);
    var chase := if !a.moving && !a.shot && !(a.state.ship.left || a.state.ship.right)
                 then PowerUpChase(a.state, view, lives, dist) else (a.state, false);
    Drifted(Adjusted(chase.0), view, a.moving || chase.1 || a.shot, roll, coin)
  }

  /** updateAI. `roll` is the draw of nextInt(280) and `coin` that of nextBoolean;
      `now` is the clock for the whole tick; `lives` is the game's life count. */
  function Tick(s: AIState, view: seq<Entity>, now: int, lives: int, dist: Distance,
                roll: int, coin: bool): AIState {
    var p := Prepared(s, view, now);
    if !ClearAt(view, p.ship.x, ReactionWindow) then Adjusted(Dodged(p, view))
    else
      var q := p.(ship := p.ship.(wantsToShoot := false));
      if now - p.lastShotDecision < PostShotPauseMs then
        if q.threat.Some? && q.tti < ImmediateDodgeThreshold * 1.1 then Adjusted(Dodged(q, view))
        else if q.body.Some? then Adjusted(BodyDodged(q, view, q.body.value))
        else Adjusted(q)
      else if q.body.Some? && !(q.ship.left || q.ship.right)
              && BodyDodge(view, q.ship.x, q.body.value.x) != Stay then
        Adjusted(BodyDodged(q, view, q.body.value))
      else Engaged(q, view, now, lives, dist, roll, coin)
  }

  // ---------------------------------------------------------------- what a tick guarantees

  /** The flags of a player that pushes at most one way on each axis. */
  predicate OneWay(ship: Ship) {
    !(ship.left && ship.right) && !(ship.forward && ship.backward)
  }

  /** A move from `from` to `to` in x is a teleport the shortest-teleport search
      allows: at most 512 / 2.5 pixels, to the preferred y, onto a spot clear for
      1.5 s. */
  predicate Teleported(view: seq<Entity>, from: Ship, to: Ship) {
    && Abs(to.x - from.x) <= MaxTeleportRadius
    && to.y == PreferredY
    && ClearAt(view, to.x, ReactionWindow)
  }

  /** An entry of the new memory was in the old one with the same stamp, or is the
      current normal-enemy target stamped now. */
  predicate Remembered(before: AIState, after: AIState, id: EntityId, now: int)
    requires id in after.memory
  {
    || (id in before.memory && after.memory[id] == before.memory[id])
    || (after.memory[id] == now && before.target.Some? && before.target.value.id == id
        && before.target.value.kind.NormalEnemy?)
  }

  /** tryToShoot and its bookkeeping change only the wish to shoot, the two
      timers and the memory: the attempt timer moves only after the 20 ms
      cooldown, and only a normal-enemy target is stamped. */
  lemma FiredFacts(s: AIState, now: int)
    ensures var f := Fired(s, now);
      && f == s.(ship := f.ship, lastTriedShoot := f.lastTriedShoot,
                 lastShotDecision := f.lastShotDecision, memory := f.memory)
      && f.ship == s.ship.(wantsToShoot := f.ship.wantsToShoot)
      && (f.lastTriedShoot != s.lastTriedShoot ==>
            f.lastTriedShoot == now && now - s.lastTriedShoot > ShootCooldownMs && f.ship.wantsToShoot)
      && (f.ship.wantsToShoot && !s.ship.wantsToShoot ==> f.lastTriedShoot != s.lastTriedShoot)
      && (f.ship.wantsToShoot ==> f.lastShotDecision == now)
      && (f.lastShotDecision != s.lastShotDecision ==> f.lastShotDecision == now)
      && (forall id :: id in f.memory ==> Remembered(s, f, id, now))
  {
  }

  /** The firing step keeps the target and the power-up, sets no flag but the
      wish to shoot, moves the player only by a teleport, remembers only the
      target, and moves the attempt timer only for a shot it was allowed. */
  lemma ShotOrDodgedFacts(s: AIState, view: seq<Entity>, now: int)
    ensures var a := ShotOrDodged(s, view, now);
      && !a.moving
      && a.state.target == s.target && a.state.powerUp == s.powerUp
      && a.state.ship.forward == s.ship.forward && a.state.ship.backward == s.ship.backward
      && (a.state.ship.left && a.state.ship.right ==> s.ship.left || s.ship.right)
      && (a.shot ==> a.state.ship.wantsToShoot)
      && (a.state.ship.x != s.ship.x ==> Teleported(view, s.ship, a.state.ship))
      && (a.state.ship.y != s.ship.y ==> a.state.ship.y == PreferredY)
    ensures var a := ShotOrDodged(s, view, now);
      forall id :: id in a.state.memory ==> Remembered(s, a.state, id, now)
    ensures var a := ShotOrDodged(s, view, now);
      a.state.lastTriedShoot != s.lastTriedShoot ==>
        && a.shot && a.state.lastTriedShoot == now && a.state.lastShotDecision == now
        && now - s.lastTriedShoot > ShootCooldownMs
        && ClearAt(view, s.ship.x, ReactionWindow)
        && CanShootAndStillDodge(s)
    ensures var a := ShotOrDodged(s, view, now);
      && (a.state.ship.wantsToShoot && !s.ship.wantsToShoot ==> a.state.lastTriedShoot != s.lastTriedShoot)
      && (a.state.lastShotDecision != s.lastShotDecision ==> a.state.lastShotDecision == now && a.state.ship.wantsToShoot)
  {
    var canShoot := CanShootAndStillDodge(s);
    var clear := ZoneClear(view, s.ship.x, PreferredY, FiringRadius, ReactionWindow);
    if canShoot && clear {
      var f := Fired(s, now);
      assert ShotOrDodged(s, view, now) == Engagement(f, false, f.ship.wantsToShoot);
      assert ClearAt(view, s.ship.x, ReactionWindow);
      FiredFacts(s, now);
    } else if (!canShoot && s.threat.Some?) || !clear {
      assert ShotOrDodged(s, view, now) == Engagement(DodgedInstead(s, view), false, false);
      DodgedFacts(s, view);
    }
  }

  /** What the attack step may change: the flags it sets, the wish to shoot and
      the two timers only through tryToShoot from a safe, aligned position, and the
      memory only by stamping the target. */
  lemma AttackedFacts(s: AIState, view: seq<Entity>, now: int)
    ensures var a := Attacked(s, view, now);
      && a.state.target == s.target && a.state.powerUp == s.powerUp
      && a.state.ship.forward == s.ship.forward && a.state.ship.backward == s.ship.backward
      && (a.state.ship.left && a.state.ship.right ==> s.ship.left || s.ship.right)
      && (a.moving ==> a.state.ship.left || a.state.ship.right)
      && (a.shot ==> a.state.ship.wantsToShoot)
      && (a.state.ship.x != s.ship.x ==> Teleported(view, s.ship, a.state.ship))
      && (a.state.ship.y != s.ship.y ==> a.state.ship.y == PreferredY)
    ensures var a := Attacked(s, view, now);
      forall id :: id in a.state.memory ==> Remembered(s, a.state, id, now)
    ensures var a := Attacked(s, view, now);
      a.state.lastTriedShoot != s.lastTriedShoot ==>
        && a.shot && a.state.lastTriedShoot == now && a.state.lastShotDecision == now
        && now - s.lastTriedShoot > ShootCooldownMs
        && ClearAt(view, s.ship.x, ReactionWindow)
        && IsTargetAligned(s.target, s.ship.x, s.ship.y, FiringTolerance)
        && CanShootAndStillDodge(s)
    ensures var a := Attacked(s, view, now);
      && (a.state.ship.wantsToShoot && !s.ship.wantsToShoot ==> a.state.lastTriedShoot != s.lastTriedShoot)
      && (a.state.lastShotDecision != s.lastShotDecision ==> a.state.lastShotDecision == now && a.state.ship.wantsToShoot)
  {
    match s.target
    case None =>
    case Some(t) =>
      var m := AlignMove(view, s.ship.x, t.x);
      var s1 := s.(ship := ApplyMove(s.ship, m));
      if !IsTargetAligned(s.target, s1.ship.x, s1.ship.y, FiringTolerance) || m != Stay {
        assert Attacked(s, view, now) == Engagement(s1, m != Stay, false);
      } else {
        assert s1 == s;
        assert Attacked(s, view, now) == ShotOrDodged(s, view, now);
        ShotOrDodgedFacts(s, view, now);
      }
  }

  /** performStrategicDodge changes only the player: it sets at most one
      horizontal flag, or teleports to a spot clear for 1.5 s at the preferred y. */
  lemma DodgedFacts(s: AIState, view: seq<Entity>)
    ensures var d := Dodged(s, view);
      && d == s.(ship := d.ship)
      && d.ship.wantsToShoot == s.ship.wantsToShoot
      && d.ship.forward == s.ship.forward && d.ship.backward == s.ship.backward
      && (d.ship.left && d.ship.right ==> s.ship.left || s.ship.right)
      && (d.ship.x != s.ship.x ==> Teleported(view, s.ship, d.ship))
      && (d.ship.y != s.ship.y ==> d.ship.y == PreferredY)
  {
    var bullet := BulletToDodge(view, s.ship.x, s.threat, s.tti);
    var m := StrategicDodge(view, s.ship.x, bullet, s.tti, s.body).move;
    if m.Teleport? {
      assert ClearAt(view, m.x, ReactionWindow);
    }
  }

  /** The power-up step changes only the power-up and at most one horizontal
      flag. */
  lemma ChaseFacts(s: AIState, view: seq<Entity>, lives: int, dist: Distance)
    ensures var c := PowerUpChase(s, view, lives, dist).0;
      && c == s.(ship := c.ship, powerUp := c.powerUp)
      && c.ship.x == s.ship.x && c.ship.y == s.ship.y && c.ship.wantsToShoot == s.ship.wantsToShoot
      && c.ship.forward == s.ship.forward && c.ship.backward == s.ship.backward
      && (c.ship.left && c.ship.right ==> s.ship.left || s.ship.right)
  {
  }

  /** The drift changes at most one horizontal flag, and only when none is set. */
  lemma DriftedFacts(s: AIState, view: seq<Entity>, busy: bool, roll: int, coin: bool)
    ensures var d := Drifted(s, view, busy, roll, coin);
      && d == s.(ship := d.ship)
      && d.ship == s.ship.(left := d.ship.left, right := d.ship.right)
      && (d.ship.left && d.ship.right ==> s.ship.left && s.ship.right)
  {
  }

  /** A tick that reaches the attack step ends with what the attack step left in
      the timers, the target and the wish to shoot, and with the flags it set plus
      at most one more. */
  lemma EngagedFacts(s: AIState, view: seq<Entity>, now: int, lives: int, dist: Distance, roll: int, coin: bool)
    ensures var e := Engaged(s, view, now, lives, dist, roll, coin);
      var a := Attacked(s.(target := Pick(view, EnemyTarget(view, s.ship.x, s.memory, now))), view, now).state;
      && e.lastTriedShoot == a.lastTriedShoot && e.lastShotDecision == a.lastShotDecision
      && e.target == a.target && e.ship.wantsToShoot == a.ship.wantsToShoot
      && e.memory == a.memory
      && (e.ship.left && e.ship.right ==> a.ship.left || a.ship.right)
      && (e.ship.forward && e.ship.backward ==> a.ship.forward || a.ship.backward)
      && e.ship.x == a.ship.x && e.ship.y == a.ship.y
  {
    var t := s.(target := Pick(view, EnemyTarget(view, s.ship.x, s.memory, now)));
    var a := Attacked(t, view, now);
    var chase := if !a.moving && !a.shot && !(a.state.ship.left || a.state.ship.right)
                 then PowerUpChase(a.state, view, lives, dist) else (a.state, false);
    if !a.moving && !a.shot && !(a.state.ship.left || a.state.ship.right) {
      ChaseFacts(a.state, view, lives, dist);
    }
    var adj := Adjusted(chase.0);
    DriftedFacts(adj, view, a.moving || chase.1 || a.shot, roll, coin);
  }

  /** A tick never sets both horizontal flags, nor both vertical ones: every
      branch of updateAI starts from cleared flags and sets at most one of each. */
  lemma TickMovesOneWay(s: AIState, view: seq<Entity>, now: int, lives: int, dist: Distance, roll: int, coin: bool)
    ensures OneWay(Tick(s, view, now, lives, dist, roll, coin).ship)
  {
    var p := Prepared(s, view, now);
    if !ClearAt(view, p.ship.x, ReactionWindow) {
      DodgedFacts(p, view);
    } else {
      var q := p.(ship := p.ship.(wantsToShoot := false));
      if now - p.lastShotDecision < PostShotPauseMs {
        if q.threat.Some? && q.tti < ImmediateDodgeThreshold * 1.1 {
          DodgedFacts(q, view);
        }
      } else if q.body.Some? && !(q.ship.left || q.ship.right)
                && BodyDodge(view, q.ship.x, q.body.value.x) != Stay {
      } else {
        var t := q.(target := Pick(view, EnemyTarget(view, q.ship.x, q.memory, now)));
        AttackedFacts(t, view, now);
        EngagedFacts(q, view, now, lives, dist, roll, coin);
      }
    }
  }

  /** A tick raises the wish to shoot only from a position clear for 1.5 s, with
      the target aligned, no threat sooner than 0.169 s, the post-shot pause and
      the 20 ms attempt cooldown both over; it then stamps both timers with now.
      The only other way to end a tick wanting to shoot is to keep an earlier wish
      while dodging from an unsafe position. */
  lemma TickFiresOnlyWhenSafe(s: AIState, view: seq<Entity>, now: int, lives: int, dist: Distance, roll: int, coin: bool)
    ensures var t := Tick(s, view, now, lives, dist, roll, coin);
      t.lastTriedShoot != s.lastTriedShoot ==>
        && t.lastTriedShoot == now && t.lastShotDecision == now && t.ship.wantsToShoot
        && now - s.lastTriedShoot > ShootCooldownMs
        && now - s.lastShotDecision >= PostShotPauseMs
        && ClearAt(view, s.ship.x, ReactionWindow)
        && IsTargetAligned(t.target, s.ship.x, s.ship.y, FiringTolerance)
        && CanShootAndStillDodge(Prepared(s, view, now))
    ensures var t := Tick(s, view, now, lives, dist, roll, coin);
      t.ship.wantsToShoot ==>
        || t.lastTriedShoot != s.lastTriedShoot
        || (!ClearAt(view, s.ship.x, ReactionWindow) && s.ship.wantsToShoot)
  {
    var p := Prepared(s, view, now);
    if !ClearAt(view, p.ship.x, ReactionWindow) {
      DodgedFacts(p, view);
    } else {
      var q := p.(ship := p.ship.(wantsToShoot := false));
      if now - p.lastShotDecision < PostShotPauseMs {
        if q.threat.Some? && q.tti < ImmediateDodgeThreshold * 1.1 {
          DodgedFacts(q, view);
        }
      } else if q.body.Some? && !(q.ship.left || q.ship.right)
                && BodyDodge(view, q.ship.x, q.body.value.x) != Stay {
      } else {
        var t := q.(target := Pick(view, EnemyTarget(view, q.ship.x, q.memory, now)));
        AttackedFacts(t, view, now);
        EngagedFacts(q, view, now, lives, dist, roll, coin);
      }
    }
  }

  /** A tick moves the player in x only by a teleport the shortest-teleport search
      allows; otherwise x and y stay where they were. */
  lemma TickTeleportsSafely(s: AIState, view: seq<Entity>, now: int, lives: int, dist: Distance, roll: int, coin: bool)
    ensures var t := Tick(s, view, now, lives, dist, roll, coin);
      t.ship.x != s.ship.x ==> Teleported(view, s.ship, t.ship)
    ensures var t := Tick(s, view, now, lives, dist, roll, coin);
      t.ship.y != s.ship.y ==> t.ship.y == PreferredY
  {
    var p := Prepared(s, view, now);
    var r := Tick(s, view, now, lives, dist, roll, coin);
    assert p.ship.x == s.ship.x && p.ship.y == s.ship.y;
    if !ClearAt(view, p.ship.x, ReactionWindow) {
      assert r == Adjusted(Dodged(p, view));
      DodgedFacts(p, view);
    } else {
      var q := p.(ship := p.ship.(wantsToShoot := false));
      if now - p.lastShotDecision < PostShotPauseMs {
        if q.threat.Some? && q.tti < ImmediateDodgeThreshold * 1.1 {
          assert r == Adjusted(Dodged(q, view));
          DodgedFacts(q, view);
        } else if q.body.Some? {
          assert r == Adjusted(BodyDodged(q, view, q.body.value));
        } else {
          assert r == Adjusted(q);
        }
      } else if q.body.Some? && !(q.ship.left || q.ship.right)
                && BodyDodge(view, q.ship.x, q.body.value.x) != Stay {
        assert r == Adjusted(BodyDodged(q, view, q.body.value));
      } else {
        assert r == Engaged(q, view, now, lives, dist, roll, coin);
        var t := q.(target := Pick(view, EnemyTarget(view, q.ship.x, q.memory, now)));
        AttackedFacts(t, view, now);
        EngagedFacts(q, view, now, lives, dist, roll, coin);
      }
    }
  }

  /** After a tick the engagement memory holds only entries that survived the
      cleanup (live enemy, at most 150 ms old) with their stamps, and possibly the
      normal enemy targeted this tick stamped now; a boss is never remembered. */
  lemma TickMemoryIsFresh(s: AIState, view: seq<Entity>, now: int, lives: int, dist: Distance, roll: int, coin: bool)
    ensures var t := Tick(s, view, now, lives, dist, roll, coin);
      forall id :: id in t.memory ==>
        || (id in s.memory && t.memory[id] == s.memory[id] && LiveIn(view, id) && now - s.memory[id] <= ShotExpiryMs)
        || (t.memory[id] == now && t.target.Some? && t.target.value.id == id && t.target.value.kind.NormalEnemy?)
  {
    var p := Prepared(s, view, now);
    if !ClearAt(view, p.ship.x, ReactionWindow) {
      DodgedFacts(p, view);
    } else {
      var q := p.(ship := p.ship.(wantsToShoot := false));
      if now - p.lastShotDecision < PostShotPauseMs {
        if q.threat.Some? && q.tti < ImmediateDodgeThreshold * 1.1 {
          DodgedFacts(q, view);
        }
      } else if q.body.Some? && !(q.ship.left || q.ship.right)
                && BodyDodge(view, q.ship.x, q.body.value.x) != Stay {
      } else {
        var t := q.(target := Pick(view, EnemyTarget(view, q.ship.x, q.memory, now)));
        AttackedFacts(t, view, now);
        EngagedFacts(q, view, now, lives, dist, roll, coin);
      }
    }
  }

  /** A tick that finds the player's position unsafe only dodges: the target, the
      power-up and both timers are those of the tick before. */
  lemma UnsafeTickOnlyDodges(s: AIState, view: seq<Entity>, now: int, lives: int, dist: Distance, roll: int, coin: bool)
    requires !ClearAt(view, s.ship.x, ReactionWindow)
    ensures var t := Tick(s, view, now, lives, dist, roll, coin);
      && t.target == s.target && t.powerUp == s.powerUp
      && t.lastShotDecision == s.lastShotDecision && t.lastTriedShoot == s.lastTriedShoot
      && t.ship.wantsToShoot == s.ship.wantsToShoot
      && t.memory == CleanMemory(s.memory, view, now)
  {
    DodgedFacts(Prepared(s, view, now), view);
  }
}
