/**
 * The player of the current game: a car sprite with a position, a start
 * position it returns to, a size, a step length, and the four field boundaries
 * copied from the screen. Moving up is never refused (crossing the top is how a
 * level is won); moving down, left or right is refused, with no change at all,
 * when the centre would pass the boundary shrunk by half the sprite.
 */
module Players {
  import opened Screen

  /** The player's default start, size and step. */
  const START_X: int := 0
  const START_Y: int := -265
  const PLAYER_WIDTH: int := 15
  const PLAYER_HEIGHT: int := 30
  const PLAYER_STEP: int := 10

  /** The two sprites the player can show. */
  datatype Shape = CarShape | ExplosionShape

  /** Lowest centre y a downward move may reach: the bottom boundary plus half the height. */
  function Floor(bottom: int, height: int): real {
    bottom as real + height as real / 2.0
  }

  /** Leftmost centre x a move left may reach: the left boundary plus half the width. */
  function LeftLimit(left: int, width: int): real {
    left as real + width as real / 2.0
  }

  /** Rightmost centre x a move right may reach: the right boundary minus half the width. */
  function RightLimit(right: int, width: int): real {
    right as real - width as real / 2.0
  }

  /** Where a downward move from `y` ends: one step lower, or unchanged when that would pass the floor. */
  function StepDown(y: int, d: int, bottom: int, height: int): (ny: int)
    ensures ny == y - d || ny == y
    ensures ny == y || ny as real >= Floor(bottom, height)
    ensures (y - d) as real >= Floor(bottom, height) ==> ny == y - d
  {
    var newY := y - d;
    if newY as real >= Floor(bottom, height) then newY else y
  }

  /** Where a move right from `x` ends: one step right, or unchanged past the right limit. */
  function StepRight(x: int, d: int, right: int, width: int): (nx: int)
    ensures nx == x + d || nx == x
    ensures nx == x || nx as real <= RightLimit(right, width)
    ensures (x + d) as real <= RightLimit(right, width) ==> nx == x + d
  {
    var newX := x + d;
    if newX as real <= RightLimit(right, width) then newX else x
  }

  /** Where a move left from `x` ends: one step left, or unchanged past the left limit. */
  function StepLeft(x: int, d: int, left: int, width: int): (nx: int)
    ensures nx == x - d || nx == x
    ensures nx == x || nx as real >= LeftLimit(left, width)
    ensures (x - d) as real >= LeftLimit(left, width) ==> nx == x - d
  {
    var newX := x - d;
    if newX as real >= LeftLimit(left, width) then newX else x
  }

  /** A horizontal move with a non-negative step keeps a centre that starts between the limits between them. */
  lemma HorizontalMovesStayInside(x: int, d: int, left: int, right: int, width: int)
    requires d >= 0
    requires LeftLimit(left, width) <= x as real <= RightLimit(right, width)
    ensures LeftLimit(left, width) <= StepRight(x, d, right, width) as real <= RightLimit(right, width)
    ensures LeftLimit(left, width) <= StepLeft(x, d, left, width) as real <= RightLimit(right, width)
  {
  }

  /** A downward move never takes a centre that is on or above the floor below it. */
  lemma DownMoveStaysAboveFloor(y: int, d: int, bottom: int, height: int)
    requires y as real >= Floor(bottom, height)
    ensures StepDown(y, d, bottom, height) as real >= Floor(bottom, height)
  {
  }

  /**
   * The refusals on the default 600x600 field with a 15x30 sprite and step 10:
   * down from the start y -265, right from x = 296 and left from x = -298.
   * The moves the program's tests accept go through.
   */
  lemma DefaultFieldGuards()
    ensures StepDown(-265, 10, -240, 30) == -265
    ensures StepRight(296, 10, 296, 15) == 296
    ensures StepLeft(-298, 10, -298, 15) == -298
    ensures StepDown(10, 10, -240, 30) == 0 && StepRight(0, 10, 296, 15) == 10 && StepLeft(10, 10, -298, 15) == 0
  {
  }

  class Player {
    var x: int
    var y: int
    var shape: Shape
    const startX: int
    const startY: int
    const width: int
    const height: int
    const heading: int
    const moveDistance: int
    const top: int
    const bottom: int
    const right: int
    const left: int

    /** The player starts at its start position, as a car, with the screen's boundaries. */
    constructor (screen: GameScreen, startX: int := START_X, startY: int := START_Y, width: int := PLAYER_WIDTH,
                 height: int := PLAYER_HEIGHT, direction: int := 90, moveDistance: int := PLAYER_STEP)
      ensures x == startX && y == startY && shape == CarShape
      ensures this.startX == startX && this.startY == startY && this.width == width
      ensures this.height == height && heading == direction && this.moveDistance == moveDistance
      ensures top == screen.top && bottom == screen.bottom && right == screen.right && left == screen.left
    {
      x, y, shape := startX, startY, CarShape;
      this.startX, this.startY := startX, startY;
      this.width, this.height, this.moveDistance := width, height, moveDistance;
      heading := direction;
      top, bottom, right, left := screen.top, screen.bottom, screen.right, screen.left;
    }

    function GetX(): int reads this { x }
    function GetY(): int reads this { y }
    function GetWidth(): int { width }
    function GetHeight(): int { height }

    /** Never refused: the top is handled by the game's level-up teleport. */
    method MoveUp()
      modifies this`y
      ensures y == old(y) + moveDistance
    {
      y := y + moveDistance;
    }

    method MoveDown()
      modifies this`y
      ensures y == StepDown(old(y), moveDistance, bottom, height)
    {
      var newY := y - moveDistance;
      if newY as real >= bottom as real + height as real / 2.0 {
        y := newY;
      }
    }

    method MoveRight()
      modifies this`x
      ensures x == StepRight(old(x), moveDistance, right, width)
    {
      var newX := x + moveDistance;
      if newX as real <= right as real - width as real / 2.0 {
        x := newX;
      }
    }

    method MoveLeft()
      modifies this`x
      ensures x == StepLeft(old(x), moveDistance, left, width)
    {
      var newX := x - moveDistance;
      if newX as real >= left as real + width as real / 2.0 {
        x := newX;
      }
    }

    /** Teleport back to the start, from anywhere. */
    method ResetPosition()
      modifies this`x, this`y
      ensures x == startX && y == startY
    {
      x, y := startX, startY;
    }

    /** Back to the start and back to the car sprite, after a collision. */
    method Reset()
      modifies this`x, this`y, this`shape
      ensures x == startX && y == startY && shape == CarShape
    {
      ResetPosition();
      shape := CarShape;
    }

    method UpdateShape(s: Shape)
      modifies this`shape
      ensures shape == s
    {
      shape := s;
    }
  }

  /**
   * A default player on the default field cannot move down from its start:
   * it stays at (0, -265).
   */
  method DownFromStartIsRefused() returns (x: int, y: int)
    ensures x == 0 && y == -265
  {
    DefaultBoundaries();
    var p := new Player(DefaultScreen());
    p.MoveDown();
    x, y := p.x, p.y;
  }
}
