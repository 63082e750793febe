/**
 * The older player: a turtle that starts at (0, -270) facing up, moves up by a
 * fixed step with no bound, and teleports back to the start on a level-up.
 */
module LegacyPlayer {
  /** Pixels per `move_up`. */
  const MOVE_DISTANCE: int := 10
  const START_X: int := 0
  const START_Y: int := -270

  class Player {
    var x: int
    var y: int
    const heading: int

    constructor ()
      ensures x == START_X && y == START_Y && heading == 90
    {
      x := START_X;
      y := START_Y;
      heading := 90;
    }

    /** `move_up`: ten pixels up, x unchanged, no upper limit. */
    method MoveUp()
      modifies this`y
      ensures y == old(y) + MOVE_DISTANCE
    {
      y := y + MOVE_DISTANCE;
    }

    /** `level_up`: back to the start from anywhere. */
    method LevelUp()
      modifies this`x, this`y
      ensures x == START_X && y == START_Y
    {
      x := START_X;
      y := START_Y;
    }
  }

  /**
   * `n` presses of the up key from the start put the player at
   * `-270 + 10 * n` above x = 0; a level-up then brings it back to the start.
   */
  method Climb(n: nat) returns (climbedX: int, climbedY: int, backX: int, backY: int)
    ensures climbedX == 0 && climbedY == -270 + 10 * n
    ensures backX == 0 && backY == -270
  {
    var p := new Player();
    for i := 0 to n
      invariant p.x == 0 && p.y == -270 + 10 * i
    {
      p.MoveUp();
    }
    climbedX, climbedY := p.x, p.y;
    p.LevelUp();
    backX, backY := p.x, p.y;
  }
}
