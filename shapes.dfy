/**
 * Geometry shared by the collision tests of both helper modules and by the
 * block and car managers: a block is a 40x20 rectangle known by its centre,
 * and the player's box is shrunk by an overlap margin before it is compared.
 */
module Shapes {

  /** Every block (and every car of the older manager) is 40 px wide and 20 px high. */
  const BLOCK_WIDTH: int := 40
  const BLOCK_HEIGHT: int := 20
  /** Pixels taken off every side of the player's box, so that grazes do not count. */
  const OVERLAP_MARGIN: int := 2

  /** A block is identified by its centre; it has no other state the game logic reads. */
  datatype Block = Block(x: int, y: int)

  /** An RGB colour as returned by `random_color`. */
  datatype Color = Color(r: int, g: int, b: int)

  /** An axis-aligned box given by its four edges. */
  datatype Box = Box(left: real, right: real, bottom: real, top: real)

  function AbsR(r: real): (a: real)
    ensures a >= 0.0 && (a == r || a == -r)
  {
    if r < 0.0 then -r else r
  }

  function Abs(n: int): (a: nat)
    ensures a == n || a == -n
  {
    if n < 0 then -n else n
  }

  /** The player's box: centre plus or minus half the extent, shrunk by the margin on all four sides. */
  function PlayerBox(x: int, y: int, width: int, height: int): Box {
    var m := OVERLAP_MARGIN as real;
    Box(x as real - width as real / 2.0 + m, x as real + width as real / 2.0 - m,
        y as real - height as real / 2.0 + m, y as real + height as real / 2.0 - m)
  }

  function BlockBox(b: Block): Box {
    Box(b.x as real - BLOCK_WIDTH as real / 2.0, b.x as real + BLOCK_WIDTH as real / 2.0,
        b.y as real - BLOCK_HEIGHT as real / 2.0, b.y as real + BLOCK_HEIGHT as real / 2.0)
  }

  /** Strict overlap: boxes that only share an edge do not overlap. */
  predicate Overlap(a: Box, b: Box) {
    a.right > b.left && a.left < b.right && a.top > b.bottom && a.bottom < b.top
  }

  lemma OverlapSymmetric(a: Box, b: Box)
    ensures Overlap(a, b) <==> Overlap(b, a)
  {
  }

  /**
   * A player of the given size centred at (px, py) hits block `b` exactly when
   * the centres are closer than the summed half extents, less the margin, on both axes.
   */
  function Hits(px: int, py: int, pw: int, ph: int, b: Block): (r: bool)
    ensures r <==> (AbsR((px - b.x) as real) < pw as real / 2.0 - 2.0 + 20.0 &&
                    AbsR((py - b.y) as real) < ph as real / 2.0 - 2.0 + 10.0)
  {
    Overlap(PlayerBox(px, py, pw, ph), BlockBox(b))
  }

  /** Some block of the container overlaps the player. */
  predicate Collides(px: int, py: int, pw: int, ph: int, blocks: seq<Block>) {
    exists i :: 0 <= i < |blocks| && Hits(px, py, pw, ph, blocks[i])
  }

  /** The positions `[(x, y) for y in ys]`: one coordinate pair per y-value, all at x. */
  function Column(x: int, ys: seq<int>): (ps: seq<(int, int)>)
    ensures |ps| == |ys|
    ensures forall i :: 0 <= i < |ys| ==> ps[i] == (x, ys[i])
  {
    seq(|ys|, i requires 0 <= i < |ys| => (x, ys[i]))
  }

  /**
   * The cases the program's own collision tests rely on, for a 15x30 player:
   * an empty field never collides; at the start position (0, -265) a block at
   * the same spot hits while blocks at (0, 0) and (50, 100) do not; a player
   * at the origin hits a block at (5, 5).
   */
  lemma DocumentedCollisionCases()
    ensures !Collides(0, -265, 15, 30, [])
    ensures Collides(0, -265, 15, 30, [Block(0, -265), Block(50, 100)])
    ensures !Collides(0, -265, 15, 30, [Block(0, 0), Block(50, 100)])
    ensures Collides(0, 0, 15, 30, [Block(5, 5), Block(50, 100)])
  {
    var hit := [Block(0, -265), Block(50, 100)];
    assert Hits(0, -265, 15, 30, hit[0]);
    var near := [Block(5, 5), Block(50, 100)];
    assert Hits(0, 0, 15, 30, near[0]);
    var clear := [Block(0, 0), Block(50, 100)];
    assert !Hits(0, -265, 15, 30, clear[0]) && !Hits(0, -265, 15, 30, clear[1]);
  }
}
