/**
 * The play field. `GameScreen` keeps the dimensions and title it was given and
 * derives four boundaries from them; everything else it does (window set-up,
 * shapes, drawing, key binding, prompts) is rendering and is not modelled.
 */
module Screen {

  /** Constants of the older screen module, used by the older managers and helpers. */
  const SCREEN_WIDTH: int := 600
  const SCREEN_HEIGHT: int := 600
  const TOP_BOUNDARY: int := 250
  const BOTTOM_BOUNDARY: int := -240

  /** Python's `int()` on a float: truncation toward zero. */
  function Trunc(r: real): (n: int)
    ensures r >= 0.0 ==> n as real <= r < n as real + 1.0
    ensures r < 0.0 ==> n as real - 1.0 < r <= n as real
  {
    if r >= 0.0 then r.Floor else -((-r).Floor)
  }

  datatype GameScreen = GameScreen(width: int, height: int, title: string,
                                   top: int, bottom: int, left: int, right: int)

  /**
   * The constructor's boundary arithmetic. The boundaries are the truncations
   * of `height/2 - 50`, `-height/2 + 60`, `-width/2` (plus 2) and `width/2`
   * (minus 4); for even dimensions they are exact.
   */
  function NewGameScreen(width: int, height: int, title: string): (s: GameScreen)
    ensures s.width == width && s.height == height && s.title == title
    ensures s.top == Trunc(height as real / 2.0 - 50.0)
    ensures s.bottom == Trunc(-(height as real / 2.0) + 60.0)
    ensures s.left == Trunc(-(width as real / 2.0)) + 2
    ensures s.right == Trunc(width as real / 2.0) - 4
    ensures height % 2 == 0 ==> s.top == height / 2 - 50 && s.bottom == 60 - height / 2
    ensures width % 2 == 0 ==> s.left == 2 - width / 2 && s.right == width / 2 - 4
  {
    GameScreen(width, height, title,
               Trunc(height as real / 2.0 - 50.0),
               Trunc(-(height as real / 2.0) + 60.0),
               Trunc(-(width as real / 2.0)) + 2,
               Trunc(width as real / 2.0) - 4)
  }

  /** The screen the game builds when given no arguments. */
  function DefaultScreen(): GameScreen {
    NewGameScreen(600, 600, "ROAD RAGE ROYAL")
  }

  /** The default 600x600 field: top 250, bottom -240, left -298, right 296. */
  lemma DefaultBoundaries()
    ensures var s := DefaultScreen();
      s.width == 600 && s.height == 600 && s.title == "ROAD RAGE ROYAL" &&
      s.top == 250 && s.bottom == -240 && s.left == -298 && s.right == 296
  {
  }

  /** The field has a start zone below the finish line exactly when it is at least 111 px high. */
  lemma VerticalOrder(width: int, height: int, title: string)
    ensures var s := NewGameScreen(width, height, title);
      s.bottom < s.top <==> height >= 111
  {
  }

  /** The left boundary lies left of the right one exactly when the field is at least 8 px wide. */
  lemma HorizontalOrder(width: int, height: int, title: string)
    ensures var s := NewGameScreen(width, height, title);
      s.left < s.right <==> width >= 8
  {
  }
}
