/** EnemyBullet: a round enemy shot that moves by its velocity once per frame and
    is dropped once it leaves the screen at the bottom or at a side. It also
    supplies the position, velocity and width that the pilot's trajectory
    prediction reads (module Entities holds that view of it). */
module EnemyBullets {
  import opened Common

  /** EnemyBullet.DIAMETER and EnemyBullet.BOSS_BULLET_DIAMETER. */
  const Diameter: real := 8.0
  const BossDiameter: real := 10.0

  /** The fields of an EnemyBullet; the colour is left out. */
  datatype ShotState = ShotState(
    x: real, y: real,
    width: real, height: real,
    vx: real, vy: real,
    isBoss: bool,
    dead: bool)

  /** The screen test of update: the shot's top edge is below the bottom of the
      screen, or it lies wholly left or wholly right of the screen. The top edge
      is not tested. */
  predicate GoneOff(s: ShotState) {
    || s.y - s.height / 2.0 > ScreenHeight
    || s.x + s.width / 2.0 < 0.0
    || s.x - s.width / 2.0 > ScreenWidth
  }

  /** update: move by the velocity, then mark dead past the bottom, then mark
      dead past either side. */
  function Stepped(s: ShotState): ShotState {
    var moved := s.(x := s.x + s.vx, y := s.y + s.vy);
    var afterBottom := if moved.y - moved.height / 2.0 > ScreenHeight then moved.(dead := true) else moved;
    if afterBottom.x + afterBottom.width / 2.0 < 0.0 || afterBottom.x - afterBottom.width / 2.0 > ScreenWidth
    then afterBottom.(dead := true)
    else afterBottom
  }

  /** k frames of update. */
  function Flight(s: ShotState, k: nat): ShotState
    decreases k
  {
    if k == 0 then s else Stepped(Flight(s, k - 1))
  }

  /** One update moves the shot by its velocity exactly once and changes nothing
      else but the dead flag, which it sets exactly when the moved shot is off
      the screen and otherwise keeps. */
  lemma StepMovesOnceAndDiesOffScreen(s: ShotState)
    ensures var r := Stepped(s);
      && r.x == s.x + s.vx && r.y == s.y + s.vy
      && r == s.(x := r.x, y := r.y, dead := r.dead)
      && (r.dead <==> s.dead || GoneOff(r))
  {
  }

  /** A shot leaving through the top of the screen is never marked dead by update:
      moving up while still within the side edges, a live shot stays live. */
  lemma NeverDiesOffTheTop(s: ShotState)
    requires !s.dead && s.vy < 0.0
    requires s.y - s.height / 2.0 <= ScreenHeight
    requires 0.0 <= s.x + s.vx + s.width / 2.0 && s.x + s.vx - s.width / 2.0 <= ScreenWidth
    ensures !Stepped(s).dead
    ensures Stepped(s).y < s.y
  {
  }

  /** After k frames the shot has moved k velocity steps, added one per frame;
      its velocity and size are unchanged, and a dead shot is still dead (update
      still moves it). */
  lemma {:induction false} FlightSteps(s: ShotState, k: nat)
    ensures var r := Flight(s, k);
      && r.x == s.x + Steps(k, s.vx) && r.y == s.y + Steps(k, s.vy)
      && r.vx == s.vx && r.vy == s.vy && r.width == s.width && r.height == s.height
      && (s.dead ==> r.dead)
    decreases k
  {
    if k > 0 {
      var p := Flight(s, k - 1);
      assert Flight(s, k) == Stepped(p);
      StepMovesOnceAndDiesOffScreen(p);
      FlightSteps(s, k - 1);
    }
  }

  /** After k frames the shot is k times its velocity away from where it started. */
  lemma FlightIsLinear(s: ShotState, k: nat)
    ensures var r := Flight(s, k);
      && r.x == s.x + (k as real) * s.vx && r.y == s.y + (k as real) * s.vy
      && r.vx == s.vx && r.vy == s.vy && r.width == s.width && r.height == s.height
      && (s.dead ==> r.dead)
  {
    FlightSteps(s, k);
    StepsAreProduct(k, s.vx);
    StepsAreProduct(k, s.vy);
  }

  class EnemyBullet {
    var x: real
    var y: real
    var width: real
    var height: real
    var vx: real
    var vy: real
    var isBossBullet: bool
    var dead: bool

    function State(): ShotState
      reads this
    {
      ShotState(x, y, width, height, vx, vy, isBossBullet, dead)
    }

    /** A regular shot at (x0, y0), 8 pixels wide, falling one pixel per frame. */
    constructor (x0: real, y0: real)
      ensures State() == ShotState(x0, y0, Diameter, Diameter, 0.0, 1.0, false, false)
    {
      x, y := x0, y0;
      width, height := Diameter, Diameter;
      vx, vy := 0.0, 1.0;
      isBossBullet := false;
      dead := false;
    }

    /** A shot with the given velocity: 10 pixels wide for a boss, 8 otherwise. */
    constructor WithVelocity(x0: real, y0: real, vx0: real, vy0: real, isBoss: bool)
      ensures var d := if isBoss then BossDiameter else Diameter;
        State() == ShotState(x0, y0, d, d, vx0, vy0, isBoss, false)
    {
      x, y := x0, y0;
      var d := if isBoss then BossDiameter else Diameter;
      width, height := d, d;
      vx, vy := vx0, vy0;
      isBossBullet := isBoss;
      dead := false;
    }

    method SetVelocity(nvx: real, nvy: real)
      modifies this
      ensures State() == old(State()).(vx := nvx, vy := nvy)
    {
      vx := nvx;
      vy := nvy;
    }

    method Update()
      modifies this
      ensures State() == Stepped(old(State()))
    {
      x := x + vx;
      y := y + vy;
      if y - height / 2.0 > ScreenHeight {
        SetDead(true);
      }
      if x + width / 2.0 < 0.0 || x - width / 2.0 > ScreenWidth {
        SetDead(true);
      }
    }

    method IsDead() returns (d: bool)
      ensures d == State().dead
    {
      d := dead;
    }

    method SetDead(d: bool)
      modifies this
      ensures State() == old(State()).(dead := d)
    {
      dead := d;
    }

    method GetVx() returns (v: real)
      ensures v == State().vx
    {
      v := vx;
    }

    method GetVy() returns (v: real)
      ensures v == State().vy
    {
      v := vy;
    }
  }
}
