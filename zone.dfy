/** The safety oracle `isZoneAroundXClear`: every live enemy shot is extrapolated in
    a straight line and sampled on a grid over the horizon; the zone is clear when no
    sample falls strictly inside the disc of radius `safeRadius + width / 2` around
    the centre. Every movement the controller makes is gated by it. */
module SafetyOracle {
  import opened Common
  import opened Entities

  /** Spacing of the sample grid, in seconds. */
  const SampleSpacing: real := 0.025
  /** Smallest positive sample time. */
  const MinSampleTime: real := 0.001

  /** `Math.max(1, (int) (horizon / 0.025))`: the cast truncates toward zero. */
  function NumSteps(horizon: real): (n: int)
    ensures n >= 1
    ensures horizon < 2.0 * SampleSpacing ==> n == 1
    ensures horizon >= SampleSpacing ==> (n as real) <= horizon / SampleSpacing < (n as real) + 1.0
  {
    var q := horizon / SampleSpacing;
    var truncated := if q >= 0.0 then q.Floor else -((-q).Floor);
    if truncated < 1 then 1 else truncated
  }

  /** Sample i of n over the horizon; a positive sample below 1 ms is raised to 1 ms. */
  function SampleTime(i: int, n: int, horizon: real): real
    requires n >= 1
  {
    var t := ((i as real) / (n as real)) * horizon;
    if t < MinSampleTime && i > 0 then MinSampleTime else t
  }

  /** Shot b, extrapolated t seconds ahead, lies strictly inside the disc of radius
      r + width / 2 around (cx, cy). */
  predicate Intrudes(b: Entity, cx: real, cy: real, r: real, t: real) {
    var px := b.x + b.vx * t;
    var py := b.y + b.vy * t;
    var reach := r + b.width / 2.0;
    (cx - px) * (cx - px) + (cy - py) * (cy - py) < reach * reach
  }

  /** Some sample of shot b over the horizon intrudes. */
  predicate ShotIntrudes(b: Entity, cx: real, cy: real, r: real, horizon: real) {
    var n := NumSteps(horizon);
    exists i :: 0 <= i <= n && Intrudes(b, cx, cy, r, SampleTime(i, n, horizon))
  }

  /** No live enemy shot of the snapshot intrudes on the zone within the horizon. */
  predicate ZoneClear(view: seq<Entity>, cx: real, cy: real, r: real, horizon: real) {
    forall k :: 0 <= k < |view| && IsLiveEnemyShot(view[k]) ==> !ShotIntrudes(view[k], cx, cy, r, horizon)
  }

  predicate NoLiveShots(view: seq<Entity>) {
    forall k :: 0 <= k < |view| ==> !IsLiveEnemyShot(view[k])
  }

  /** Shot sizes are never negative (the game makes them 8 or 10 pixels wide). */
  predicate ShotWidthsNonNegative(view: seq<Entity>) {
    forall k :: 0 <= k < |view| && IsLiveEnemyShot(view[k]) ==> view[k].width >= 0.0
  }

  /** AIPlayerController.isZoneAroundXClear: the nested scan, returning false at the
      first intruding sample (SampleTime holds the sample-time computation and
      Intrudes the distance test). */
  method IsZoneAroundXClear(view: seq<Entity>, checkX: real, playerY: real, safeRadius: real,
                            projectionHorizon: real) returns (clear: bool)
    ensures clear <==> ZoneClear(view, checkX, playerY, safeRadius, projectionHorizon)
    ensures NoLiveShots(view) ==> clear
  {
    var k := 0;
    while k < |view|
      invariant 0 <= k <= |view|
      invariant forall j :: 0 <= j < k && IsLiveEnemyShot(view[j]) ==>
                  !ShotIntrudes(view[j], checkX, playerY, safeRadius, projectionHorizon)
    {
      var bullet := view[k];
      if bullet.kind.EnemyShot? && !bullet.dead {
        var numSteps := NumSteps(projectionHorizon);
        var i := 0;
        while i <= numSteps
          invariant 0 <= i <= numSteps + 1
          invariant forall j :: 0 <= j < i ==>
                      !Intrudes(bullet, checkX, playerY, safeRadius, SampleTime(j, numSteps, projectionHorizon))
        {
          var t := SampleTime(i, numSteps, projectionHorizon);
          if Intrudes(bullet, checkX, playerY, safeRadius, t) {
            return false;
          }
          i := i + 1;
        }
      }
      k := k + 1;
    }
    return true;
  }

  /** A zone clear for a radius is clear for every smaller radius, at the same horizon. */
  lemma ZoneClearForSmallerRadius(view: seq<Entity>, cx: real, cy: real, r: real, r': real, horizon: real)
    requires 0.0 <= r' <= r
    requires ShotWidthsNonNegative(view)
    requires ZoneClear(view, cx, cy, r, horizon)
    ensures ZoneClear(view, cx, cy, r', horizon)
  {
    var n := NumSteps(horizon);
    forall k | 0 <= k < |view| && IsLiveEnemyShot(view[k])
      ensures !ShotIntrudes(view[k], cx, cy, r', horizon)
    {
      var b := view[k];
      SquareMonotone(r' + b.width / 2.0, r + b.width / 2.0);
      forall i | 0 <= i <= n
        ensures !Intrudes(b, cx, cy, r', SampleTime(i, n, horizon))
      {
        assert !Intrudes(b, cx, cy, r, SampleTime(i, n, horizon));
      }
    }
  }

  lemma SquareMonotone(a: real, b: real)
    requires 0.0 <= a <= b
    ensures a * a <= b * b
  {
    assert a * a <= a * b;
    assert a * b <= b * b;
  }

  /** Sample 0 is at t = 0 whatever the horizon, so a shot already inside the disc
      makes the zone unclear for every horizon. */
  lemma ZoneUnclearWhenShotAlreadyInside(view: seq<Entity>, k: nat, cx: real, cy: real, r: real, horizon: real)
    requires k < |view| && IsLiveEnemyShot(view[k])
    requires Intrudes(view[k], cx, cy, r, 0.0)
    ensures !ZoneClear(view, cx, cy, r, horizon)
  {
    var n := NumSteps(horizon);
    assert SampleTime(0, n, horizon) == 0.0;
    assert Intrudes(view[k], cx, cy, r, SampleTime(0, n, horizon));
  }

  /** The sample grid depends on the horizon, so a shorter horizon is not always
      safer: a fast shot that passes the centre between the samples 0.025 s apart of
      a 0.05 s horizon is caught by the 0.0375 s sample of a 0.0375 s horizon. */
  lemma ClearanceNotMonotoneInHorizon()
    ensures var shot := Entity(0, EnemyShot, 0.0, -37.5, 8.0, 8.0, 0.0, 1000.0, false);
            ZoneClear([shot], 0.0, 0.0, 0.0, 0.05) && !ZoneClear([shot], 0.0, 0.0, 0.0, 0.0375)
  {
    var shot := Entity(0, EnemyShot, 0.0, -37.5, 8.0, 8.0, 0.0, 1000.0, false);
    assert NumSteps(0.05) == 2;
    forall i | 0 <= i <= 2
      ensures !Intrudes(shot, 0.0, 0.0, 0.0, SampleTime(i, 2, 0.05))
    {
      assert i == 0 || i == 1 || i == 2;
    }
    assert [shot][0] == shot;
    assert NumSteps(0.0375) == 1;
    assert SampleTime(1, 1, 0.0375) == 0.0375;
    assert Intrudes(shot, 0.0, 0.0, 0.0, SampleTime(1, 1, 0.0375));
  }
}
