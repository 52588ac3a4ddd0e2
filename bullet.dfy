/** Bullet: the player's shot, a 4 x 15 box that moves by its velocity once per
    frame and is dropped once it lies wholly outside the screen on any side. */
module PlayerBullets {
  import opened Common

  /** Bullet.WIDTH, Bullet.HEIGHT and Bullet.DEFAULT_SPEED. */
  const BulletWidth: real := 4.0
  const BulletHeight: real := 15.0
  const DefaultSpeed: real := 5.0

  datatype BulletState = BulletState(
    x: real, y: real,
    width: real, height: real,
    vx: real, vy: real,
    dead: bool)

  /** Wholly past the top, the bottom, the left or the right edge. */
  predicate OffScreen(s: BulletState) {
    || s.y + s.height / 2.0 < 0.0
    || s.y - s.height / 2.0 > ScreenHeight
    || s.x + s.width / 2.0 < 0.0
    || s.x - s.width / 2.0 > ScreenWidth
  }

  /** update: move by the velocity, then mark dead when off the screen. */
  function Stepped(s: BulletState): BulletState {
    var moved := s.(x := s.x + s.vx, y := s.y + s.vy);
    if OffScreen(moved) then moved.(dead := true) else moved
  }

  /** k frames of update. */
  function Flight(s: BulletState, k: nat): BulletState
    decreases k
  {
    if k == 0 then s else Stepped(Flight(s, k - 1))
  }

  /** One update moves the bullet by exactly its velocity; afterwards it is dead
      exactly when it was dead before or is now wholly off one of the four edges,
      so a live bullet still at least partly on the screen stays live. */
  lemma StepMovesOnceAndDiesOffScreen(s: BulletState)
    ensures var r := Stepped(s);
      && r.x == s.x + s.vx && r.y == s.y + s.vy
      && r == s.(x := r.x, y := r.y, dead := r.dead)
      && (r.dead <==> s.dead || OffScreen(r))
    ensures !s.dead && !OffScreen(Stepped(s)) ==> !Stepped(s).dead
  {
  }

  /** After k frames the shot has moved k velocity steps, added one per frame;
      its velocity and size are unchanged, and a dead shot is still dead (update
      still moves it). */
  lemma {:induction false} FlightSteps(s: BulletState, k: nat)
    ensures var r := Flight(s, k);
      && r.x == s.x + Steps(k, s.vx) && r.y == s.y + Steps(k, s.vy)
      && r.vx == s.vx && r.vy == s.vy && r.width == s.width && r.height == s.height
      && (s.dead ==> r.dead)
    decreases k
  {
    if k > 0 {
      var p := Flight(s, k - 1);
      assert Flight(s, k) == Stepped(p);
      StepMovesOnceAndDiesOffScreen(p);
      FlightSteps(s, k - 1);
    }
  }

  /** After k frames the shot is k times its velocity away from where it started. */
  lemma FlightIsLinear(s: BulletState, k: nat)
    ensures var r := Flight(s, k);
      && r.x == s.x + (k as real) * s.vx && r.y == s.y + (k as real) * s.vy
      && r.vx == s.vx && r.vy == s.vy && r.width == s.width && r.height == s.height
      && (s.dead ==> r.dead)
  {
    FlightSteps(s, k);
    StepsAreProduct(k, s.vx);
    StepsAreProduct(k, s.vy);
  }

  /** A shot fired straight up from inside the screen is dropped on the first
      frame its bottom edge passes the top of the screen, and not before. */
  lemma {:induction false} StraightShotLeavesAtTheTop(x0: real, y0: real, k: nat)
    requires 0.0 <= x0 <= ScreenWidth && 0.0 <= y0 <= ScreenHeight
    ensures var r := Flight(BulletState(x0, y0, BulletWidth, BulletHeight, 0.0, -DefaultSpeed, false), k);
      r.dead <==> y0 - (k as real) * DefaultSpeed + BulletHeight / 2.0 < 0.0
    decreases k
  {
    var s := BulletState(x0, y0, BulletWidth, BulletHeight, 0.0, -DefaultSpeed, false);
    if k > 0 {
      StraightShotLeavesAtTheTop(x0, y0, k - 1);
      FlightIsLinear(s, k);
      FlightIsLinear(s, k - 1);
    }
  }

  class Bullet {
    var x: real
    var y: real
    var width: real
    var height: real
    var vx: real
    var vy: real
    var dead: bool

    function State(): BulletState
      reads this
    {
      BulletState(x, y, width, height, vx, vy, dead)
    }

    /** A live 4 x 15 bullet at (x0, y0) with the given velocity. */
    constructor (x0: real, y0: real, vx0: real, vy0: real)
      ensures State() == BulletState(x0, y0, BulletWidth, BulletHeight, vx0, vy0, false)
    {
      x, y := x0, y0;
      width, height := BulletWidth, BulletHeight;
      vx, vy := vx0, vy0;
      dead := false;
    }

    /** The player's default shot: straight up at 5 pixels per frame. */
    constructor Straight(x0: real, y0: real)
      ensures State() == BulletState(x0, y0, BulletWidth, BulletHeight, 0.0, -DefaultSpeed, false)
    {
      x, y := x0, y0;
      width, height := BulletWidth, BulletHeight;
      vx, vy := 0.0, -DefaultSpeed;
      dead := false;
    }

    method Update()
      modifies this
      ensures State() == Stepped(old(State()))
    {
      x := x + vx;
      y := y + vy;
      if y + height / 2.0 < 0.0
         || y - height / 2.0 > ScreenHeight
         || x + width / 2.0 < 0.0
         || x - width / 2.0 > ScreenWidth {
        dead := true;
      }
    }

    method SetDead(d: bool)
      modifies this
      ensures State() == old(State()).(dead := d)
    {
      dead := d;
    }

    method IsDead() returns (d: bool)
      ensures d == State().dead
    {
      d := dead;
    }
  }
}
