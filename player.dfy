/** The part of the Player object that the pilot drives: its centre, the four
    movement flags, the wish to shoot, and the teleport the controller asks for.
    The game's Player class keeps these as fields that setters overwrite; the
    controller reads them back within the same tick. */
module PlayerShip {
  import opened AIConstants

  /** The player's state as the pilot sees it, as a value. */
  datatype Ship = Ship(
    x: real, y: real,
    left: bool, right: bool, forward: bool, backward: bool,
    wantsToShoot: bool)

  /** The player's state with all four movement flags cleared. */
  function FlagsCleared(s: Ship): (r: Ship)
    ensures !r.left && !r.right && !r.forward && !r.backward
    ensures r.x == s.x && r.y == s.y && r.wantsToShoot == s.wantsToShoot
  {
    s.(left := false, right := false, forward := false, backward := false)
  }

  class Player {
    var x: real
    var y: real
    var moveLeft: bool
    var moveRight: bool
    var moveForward: bool
    var moveBackward: bool
    var wantsToShoot: bool

    function State(): Ship
      reads this
    {
      Ship(x, y, moveLeft, moveRight, moveForward, moveBackward, wantsToShoot)
    }

    /** A player at (x0, y0), standing still and not shooting. */
    constructor(x0: real, y0: real)
      ensures State() == Ship(x0, y0, false, false, false, false, false)
    {
      x, y := x0, y0;
      moveLeft, moveRight, moveForward, moveBackward := false, false, false, false;
      wantsToShoot := false;
    }

    method ResetMovementFlags()
      modifies this
      ensures State() == FlagsCleared(old(State()))
    {
      moveLeft, moveRight, moveForward, moveBackward := false, false, false, false;
    }

    method SetMoveLeft(b: bool)
      modifies this
      ensures State() == old(State()).(left := b)
    {
      moveLeft := b;
    }

    method SetMoveRight(b: bool)
      modifies this
      ensures State() == old(State()).(right := b)
    {
      moveRight := b;
    }

    method SetMoveForward(b: bool)
      modifies this
      ensures State() == old(State()).(forward := b)
    {
      moveForward := b;
    }

    method SetMoveBackward(b: bool)
      modifies this
      ensures State() == old(State()).(backward := b)
    {
      moveBackward := b;
    }

    method SetWantsToShoot(b: bool)
      modifies this
      ensures State() == old(State()).(wantsToShoot := b)
    {
      wantsToShoot := b;
    }

    /** Moves the centre at once; the flags are left as they are. */
    method TeleportTo(nx: real, ny: real)
      modifies this
      ensures State() == old(State()).(x := nx, y := ny)
    {
      x, y := nx, ny;
    }
  }
}
