/**
 * The older helpers: an unfiltered random colour, a batch of y-values found by
 * a rejection loop that keeps drawing until enough strictly spaced values were
 * accepted, and the same shrunk-box collision test written as a loop.
 */
module LegacyHelpers {
  import opened Wrappers
  import opened Seqs
  import opened Random
  import opened Shapes
  import Screen

  /** The band the rejection loop draws from: 12 px inside the bottom and top boundaries, both ends included. */
  const Y_LOW: int := Screen.BOTTOM_BOUNDARY + 12
  const Y_HIGH: int := Screen.TOP_BOUNDARY - 12

  /** `random_color`: three `randint(0, 255)` draws, nothing rejected. */
  function RandomColor(d: (int, int, int)): (c: Color)
    ensures 0 <= c.r <= 255 && 0 <= c.g <= 255 && 0 <= c.b <= 255
  {
    Color(RandInt(0, 255, d.0), RandInt(0, 255, d.1), RandInt(0, 255, d.2))
  }

  /** Every colour, white included, is a possible outcome: there is no rejection. */
  lemma RandomColorCoversAll(c: Color)
    requires 0 <= c.r <= 255 && 0 <= c.g <= 255 && 0 <= c.b <= 255
    ensures RandomColor((c.r, c.g, c.b)) == c
  {
  }

  /**
   * The random inputs of one batch: the draw for the batch size and the
   * sequence of y-draws the loop consumes, in order.
   */
  datatype Spawn = Spawn(amountDraw: int, yDraws: seq<int>)

  /** `abs(y - e) > gap` for every value `e` accepted so far. */
  predicate FarFromAll(y: int, acc: seq<int>, gap: real) {
    forall e :: e in acc ==> Abs(y - e) as real > gap
  }

  /** Any two values are strictly more than `gap` apart. */
  predicate Spaced(s: seq<int>, gap: real) {
    forall i, j :: 0 <= i < j < |s| ==> Abs(s[i] - s[j]) as real > gap
  }

  predicate InBand(s: seq<int>) {
    forall i :: 0 <= i < |s| ==> Y_LOW <= s[i] <= Y_HIGH
  }

  /** The y-value a raw draw stands for. */
  function DrawnY(d: int): int {
    RandInt(Y_LOW, Y_HIGH, d)
  }

  function DrawnYs(draws: seq<int>): (ys: seq<int>)
    ensures |ys| == |draws| && forall i :: 0 <= i < |draws| ==> ys[i] == DrawnY(draws[i])
  {
    seq(|draws|, i requires 0 <= i < |draws| => DrawnY(draws[i]))
  }

  /**
   * The rejection loop as a function: starting from the accepted values `acc`,
   * consume draws until `amount` values are accepted. `None` when the draws run
   * out first, where the program would go on drawing.
   */
  function Accept(acc: seq<int>, draws: seq<int>, amount: int, gap: real): Option<seq<int>>
    decreases |draws|
  {
    if |acc| >= amount then Some(acc)
    else if draws == [] then None
    else
      var y := DrawnY(draws[0]);
      if FarFromAll(y, acc, gap) then Accept(acc + [y], draws[1..], amount, gap)
      else Accept(acc, draws[1..], amount, gap)
  }

  /** A value far from all the accepted ones keeps them spaced when appended. */
  lemma SpacedSnoc(acc: seq<int>, y: int, gap: real)
    requires Spaced(acc, gap) && FarFromAll(y, acc, gap)
    ensures Spaced(acc + [y], gap)
  {
    var acc' := acc + [y];
    forall i, j | 0 <= i < j < |acc'| ensures Abs(acc'[i] - acc'[j]) as real > gap {
      if j == |acc| {
        assert acc'[i] in acc;
      }
    }
  }

  /**
   * What the loop delivers when it finishes: it extends the accepted values,
   * stops at exactly `amount` of them (or takes none when there is nothing to
   * take), keeps them spaced and in the band, and adds them in the order drawn.
   */
  lemma AcceptSound(acc: seq<int>, draws: seq<int>, amount: int, gap: real)
    requires Spaced(acc, gap) && InBand(acc)
    requires Accept(acc, draws, amount, gap).Some?
    ensures var r := Accept(acc, draws, amount, gap).value;
      |r| == Max(|acc|, amount) && r[..|acc|] == acc &&
      Spaced(r, gap) && InBand(r) && IsSubsequence(r[|acc|..], DrawnYs(draws))
  {
    AcceptExtends(acc, draws, amount, gap);
    AcceptKeepsSpaced(acc, draws, amount, gap);
    AcceptKeepsOrder(acc, draws, amount, gap);
  }

  /** Values accepted into a spaced, in-band sequence keep it spaced and in the band. */
  lemma {:induction false} AcceptKeepsSpaced(acc: seq<int>, draws: seq<int>, amount: int, gap: real)
    requires Spaced(acc, gap) && InBand(acc)
    requires Accept(acc, draws, amount, gap).Some?
    ensures var r := Accept(acc, draws, amount, gap).value;
      Spaced(r, gap) && InBand(r)
    decreases |draws|
  {
    if |acc| < amount {
      var y := DrawnY(draws[0]);
      if FarFromAll(y, acc, gap) {
        SpacedSnoc(acc, y, gap);
        AcceptKeepsSpaced(acc + [y], draws[1..], amount, gap);
      } else {
        AcceptKeepsSpaced(acc, draws[1..], amount, gap);
      }
    }
  }

  /** The loop appends accepted values in the order they were drawn. */
  lemma {:induction false} AcceptKeepsOrder(acc: seq<int>, draws: seq<int>, amount: int, gap: real)
    requires Accept(acc, draws, amount, gap).Some?
    ensures var r := Accept(acc, draws, amount, gap).value;
      |acc| <= |r| && IsSubsequence(r[|acc|..], DrawnYs(draws))
    decreases |draws|
  {
    AcceptExtends(acc, draws, amount, gap);
    var r := Accept(acc, draws, amount, gap).value;
    if |acc| >= amount {
      assert r[|acc|..] == [];
    } else {
      var y := DrawnY(draws[0]);
      assert DrawnYs(draws)[0] == y && DrawnYs(draws)[1..] == DrawnYs(draws[1..]);
      if FarFromAll(y, acc, gap) {
        var acc' := acc + [y];
        AcceptKeepsOrder(acc', draws[1..], amount, gap);
        AcceptExtends(acc', draws[1..], amount, gap);
        assert r[|acc|..][0] == y;
        assert r[|acc|..][1..] == r[|acc'|..];
      } else {
        AcceptKeepsOrder(acc, draws[1..], amount, gap);
        SubsequenceOfTail(r[|acc|..], DrawnYs(draws));
      }
    }
  }

  /** A finished loop extends the accepted values to exactly `amount` of them, or keeps them when there are enough. */
  lemma {:induction false} AcceptExtends(acc: seq<int>, draws: seq<int>, amount: int, gap: real)
    requires Accept(acc, draws, amount, gap).Some?
    ensures var r := Accept(acc, draws, amount, gap).value;
      |r| == Max(|acc|, amount) && r[..|acc|] == acc
    decreases |draws|
  {
    if |acc| < amount {
      var y := DrawnY(draws[0]);
      if FarFromAll(y, acc, gap) {
        var acc' := acc + [y];
        AcceptExtends(acc', draws[1..], amount, gap);
        var r := Accept(acc', draws[1..], amount, gap).value;
        assert r[..|acc|] == r[..|acc'|][..|acc|];
      } else {
        AcceptExtends(acc, draws[1..], amount, gap);
      }
    }
  }

  /** The batch the loop yields for these draws, if the draws suffice. */
  function BatchOf(batchMin: int, batchMax: int, yGap: real, xGenesis: int, spawn: Spawn): Option<seq<(int, int)>>
    requires batchMin <= batchMax
  {
    match Accept([], spawn.yDraws, RandInt(batchMin, batchMax, spawn.amountDraw), yGap)
    case None => None
    case Some(ys) => Some(Column(xGenesis, ys))
  }

  /** A batch whose drawn size is zero or less is finished at once, empty, and consumes no y-draw. */
  lemma EmptyBatchNeedsNoDraws(batchMin: int, batchMax: int, yGap: real, xGenesis: int, spawn: Spawn)
    requires batchMin <= batchMax && RandInt(batchMin, batchMax, spawn.amountDraw) <= 0
    ensures BatchOf(batchMin, batchMax, yGap, xGenesis, spawn) == Some([])
  {
  }

  /**
   * A finished batch has between `batch_min` (when that is not negative) and
   * `batch_max` positions, all at the genesis x, with y-values in the band and
   * strictly more than the gap apart.
   */
  lemma BatchOfSound(batchMin: int, batchMax: int, yGap: real, xGenesis: int, spawn: Spawn)
    requires batchMin <= batchMax
    requires BatchOf(batchMin, batchMax, yGap, xGenesis, spawn).Some?
    ensures var b := BatchOf(batchMin, batchMax, yGap, xGenesis, spawn).value;
      |b| <= Max(0, batchMax) && (batchMin >= 0 ==> batchMin <= |b|) &&
      (forall i :: 0 <= i < |b| ==> b[i].0 == xGenesis && Y_LOW <= b[i].1 <= Y_HIGH) &&
      (forall i, j :: 0 <= i < j < |b| ==> Abs(b[i].1 - b[j].1) as real > yGap)
  {
    var amount := RandInt(batchMin, batchMax, spawn.amountDraw);
    AcceptSound([], spawn.yDraws, amount, yGap);
  }

  /**
   * `create_block_batch`: draw the size in `[car_batch_min, car_batch_max]`,
   * then draw y-values in the band, keeping one only when it is strictly more
   * than the gap away from every value kept so far, until the size is reached.
   */
  method CreateBlockBatch(batchMin: int, batchMax: int, yGap: real, xGenesis: int, spawn: Spawn)
      returns (batch: Option<seq<(int, int)>>)
    requires batchMin <= batchMax
    ensures batch == BatchOf(batchMin, batchMax, yGap, xGenesis, spawn)
    ensures batch.Some? ==> |batch.value| <= Max(0, batchMax)
    ensures batch.Some? && batchMin >= 0 ==> batchMin <= |batch.value|
    ensures batch.Some? ==> forall i :: 0 <= i < |batch.value| ==>
      batch.value[i].0 == xGenesis && Y_LOW <= batch.value[i].1 <= Y_HIGH
    ensures batch.Some? ==> forall i, j :: 0 <= i < j < |batch.value| ==>
      Abs(batch.value[i].1 - batch.value[j].1) as real > yGap
  {
    var amount := RandInt(batchMin, batchMax, spawn.amountDraw);
    var draws := spawn.yDraws;
    var ys: seq<int> := [];
    var k := 0;
    while |ys| < amount && k < |draws|
      invariant 0 <= k <= |draws|
      invariant Accept(ys, draws[k..], amount, yGap) == Accept([], draws, amount, yGap)
    {
      assert draws[k..][1..] == draws[k + 1..];
      var newY := DrawnY(draws[k]);
      if FarFromAll(newY, ys, yGap) {
        ys := ys + [newY];
      }
      k := k + 1;
    }
    if |ys| < amount {
      return None;
    }
    batch := Some(Column(xGenesis, ys));
    BatchOfSound(batchMin, batchMax, yGap, xGenesis, spawn);
  }

  /**
   * `check_collision`: compute the player's shrunk box once, then test the
   * blocks in order and return at the first overlap.
   */
  method CheckCollision(px: int, py: int, pw: int, ph: int, blocks: seq<Block>) returns (hit: bool)
    ensures hit <==> Collides(px, py, pw, ph, blocks)
  {
    var playerRight := px as real + pw as real / 2.0 - OVERLAP_MARGIN as real;
    var playerLeft := px as real - pw as real / 2.0 + OVERLAP_MARGIN as real;
    var playerTop := py as real + ph as real / 2.0 - OVERLAP_MARGIN as real;
    var playerBottom := py as real - ph as real / 2.0 + OVERLAP_MARGIN as real;
    for i := 0 to |blocks|
      invariant forall j :: 0 <= j < i ==> !Hits(px, py, pw, ph, blocks[j])
    {
      var b := blocks[i];
      var blockRight := b.x as real + BLOCK_WIDTH as real / 2.0;
      var blockLeft := b.x as real - BLOCK_WIDTH as real / 2.0;
      var blockTop := b.y as real + BLOCK_HEIGHT as real / 2.0;
      var blockBottom := b.y as real - BLOCK_HEIGHT as real / 2.0;
      if playerRight > blockLeft && playerLeft < blockRight && playerTop > blockBottom && playerBottom < blockTop {
        assert Hits(px, py, pw, ph, b);
        return true;
      }
    }
    return false;
  }
}
