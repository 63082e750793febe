/**
 * The spawn and collision helpers of the current game: a rejection-sampled
 * colour, a batch of block positions drawn without replacement from evenly
 * spaced y-values, and the bounding-box collision test against the player.
 */
module Helpers {
  import opened Wrappers
  import opened Seqs
  import opened Random
  import opened Shapes
  import opened Screen
  import Players

  /** All three components at 220 or above: too bright for the light background. */
  predicate NearWhite(c: Color) {
    c.r >= 220 && c.g >= 220 && c.b >= 220
  }

  predicate InRgb(c: Color) {
    0 <= c.r <= 255 && 0 <= c.g <= 255 && 0 <= c.b <= 255
  }

  /** The colour made from one triple of `randint(0, 255)` draws. */
  function ColorOf(d: (int, int, int)): (c: Color)
    ensures InRgb(c)
  {
    Color(RandInt(0, 255, d.0), RandInt(0, 255, d.1), RandInt(0, 255, d.2))
  }

  /**
   * `random_color`: draw triples until one is not near-white. The draws are an
   * oracle; `None` means they ran out before an acceptable colour came up (the
   * program would keep drawing).
   */
  method RandomColor(draws: seq<(int, int, int)>) returns (c: Option<Color>)
    ensures c.Some? ==> InRgb(c.value) && !NearWhite(c.value)
    ensures c.Some? <==> exists i :: 0 <= i < |draws| && !NearWhite(ColorOf(draws[i]))
    ensures c.Some? ==> exists i :: 0 <= i < |draws| && c.value == ColorOf(draws[i]) &&
                                    forall j :: 0 <= j < i ==> NearWhite(ColorOf(draws[j]))
  {
    var i := 0;
    while i < |draws|
      invariant 0 <= i <= |draws|
      invariant forall j :: 0 <= j < i ==> NearWhite(ColorOf(draws[j]))
    {
      var col := ColorOf(draws[i]);
      if col.r < 220 || col.g < 220 || col.b < 220 {
        return Some(col);
      }
      i := i + 1;
    }
    return None;
  }

  /** Python's `range(start, stop, step)` for a non-zero step. */
  function Range(start: int, stop: int, step: int): (r: seq<int>)
    requires step != 0
    ensures |r| > 0 ==> r[0] == start
    ensures forall i :: 0 <= i < |r| - 1 ==> r[i + 1] == r[i] + step
    ensures forall v :: v in r ==> if step > 0 then start <= v < stop else stop < v <= start
    ensures |r| == 0 <==> (if step > 0 then start >= stop else start <= stop)
    ensures |r| > 0 ==> if step > 0 then r[|r| - 1] + step >= stop else r[|r| - 1] + step <= stop
    decreases if step > 0 then stop - start else start - stop
  {
    if (step > 0 && start < stop) || (step < 0 && start > stop) then
      [start] + Range(start + step, stop, step)
    else
      []
  }

  /** Elements of an increasing range are at least one step apart. */
  lemma {:induction false} RangeSpaced(start: int, stop: int, step: int, i: int, j: int)
    requires step > 0
    requires 0 <= i < j < |Range(start, stop, step)|
    ensures Range(start, stop, step)[j] - Range(start, stop, step)[i] >= step
    decreases j - i
  {
    var r := Range(start, stop, step);
    if j > i + 1 {
      RangeSpaced(start, stop, step, i, j - 1);
    }
  }

  lemma RangeDistinct(start: int, stop: int, step: int)
    requires step != 0
    ensures Distinct(Range(start, stop, step))
  {
    var r := Range(start, stop, step);
    forall i, j | 0 <= i < j < |r| ensures r[i] != r[j] {
      if step > 0 {
        RangeSpaced(start, stop, step, i, j);
      } else {
        RangeDescending(start, stop, step, i, j);
      }
    }
  }

  lemma {:induction false} RangeDescending(start: int, stop: int, step: int, i: int, j: int)
    requires step < 0
    requires 0 <= i < j < |Range(start, stop, step)|
    ensures Range(start, stop, step)[j] < Range(start, stop, step)[i]
    decreases j - i
  {
    if j > i + 1 {
      RangeDescending(start, stop, step, i, j - 1);
    }
  }

  /** The candidate y-values: from 12 px above the bottom to below 12 px under the top, `int(y_gap)` apart. */
  function Candidates(screen: GameScreen, yGap: real): (c: seq<int>)
    requires Trunc(yGap) != 0
    ensures Distinct(c)
  {
    RangeDistinct(screen.bottom + 12, screen.top - 12, Trunc(yGap));
    Range(screen.bottom + 12, screen.top - 12, Trunc(yGap))
  }

  /** What a sample keeps of its pool: only members, and no repeats when the pool has none. */
  lemma SampleFromPool(ys: seq<int>, pool: seq<int>)
    requires Distinct(pool)
    requires multiset(ys) <= multiset(pool)
    ensures Distinct(ys)
    ensures forall i :: 0 <= i < |ys| ==> ys[i] in pool
  {
    SubMultisetOfDistinct(ys, pool);
    forall i | 0 <= i < |ys| ensures ys[i] in pool {
      assert ys[i] in multiset(ys);
    }
  }

  /**
   * `random.sample(pool, k)`: `k` picks without replacement. Each pick is an
   * index drawn from what is left of the pool.
   */
  function Sample(pool: seq<int>, k: nat, picks: seq<int>): (r: seq<int>)
    requires k <= |pool| && k <= |picks|
    ensures |r| == k
    ensures multiset(r) <= multiset(pool)
    decreases k
  {
    if k == 0 then []
    else
      var j := RandInt(0, |pool| - 1, picks[0]);
      var rest := pool[..j] + pool[j + 1..];
      assert pool == pool[..j] + [pool[j]] + pool[j + 1..];
      [pool[j]] + Sample(rest, k - 1, picks[1..])
  }

  /**
   * `create_block_batch`: draw the batch size in `[batch_min, batch_max]`,
   * clamp it to the number of candidates, and sample that many distinct
   * candidates, all placed at the genesis x. An oversized count is clamped, not an error.
   */
  function CreateBlockBatch(batchMin: int, batchMax: int, yGap: real, xGenesis: int,
                            screen: GameScreen, amountDraw: int, picks: seq<int>): (batch: seq<(int, int)>)
    requires 0 <= batchMin <= batchMax
    requires Trunc(yGap) != 0
    requires |picks| >= batchMax
    ensures |batch| <= batchMax
    ensures |batch| >= batchMin || |batch| == |Candidates(screen, yGap)|
    ensures forall i :: 0 <= i < |batch| ==> batch[i].0 == xGenesis && batch[i].1 in Candidates(screen, yGap)
    ensures forall i, j :: 0 <= i < j < |batch| ==> batch[i].1 != batch[j].1
  {
    var amount := RandInt(batchMin, batchMax, amountDraw);
    var cands := Candidates(screen, yGap);
    var ys := Sample(cands, Min(amount, |cands|), picks);
    SampleFromPool(ys, cands);
    Column(xGenesis, ys)
  }

  /** Two different members of an increasing range are at least one step apart. */
  lemma RangeMembersSpaced(start: int, stop: int, step: int, a: int, b: int)
    requires step > 0
    requires a in Range(start, stop, step) && b in Range(start, stop, step) && a != b
    ensures Abs(a - b) >= step
  {
    var r := Range(start, stop, step);
    var p :| 0 <= p < |r| && r[p] == a;
    var q :| 0 <= q < |r| && r[q] == b;
    if p < q {
      RangeSpaced(start, stop, step, p, q);
    } else {
      RangeSpaced(start, stop, step, q, p);
    }
  }

  /** Every candidate lies in `[bottom + 12, top - 12)` and two different candidates are a step apart. */
  lemma CandidatesSpacedAndBounded(screen: GameScreen, yGap: real, a: int, b: int)
    requires Trunc(yGap) > 0
    requires a in Candidates(screen, yGap) && b in Candidates(screen, yGap)
    ensures screen.bottom + 12 <= a < screen.top - 12
    ensures a != b ==> Abs(a - b) >= Trunc(yGap)
  {
    if a != b {
      RangeMembersSpaced(screen.bottom + 12, screen.top - 12, Trunc(yGap), a, b);
    }
  }

  /**
   * With a positive step, any two y-values of a batch are at least `int(y_gap)`
   * apart and every one lies in `[bottom + 12, top - 12)`.
   */
  lemma BatchSpacedAndBounded(batchMin: int, batchMax: int, yGap: real, xGenesis: int,
                              screen: GameScreen, amountDraw: int, picks: seq<int>)
    requires 0 <= batchMin <= batchMax
    requires Trunc(yGap) > 0
    requires |picks| >= batchMax
    ensures var batch := CreateBlockBatch(batchMin, batchMax, yGap, xGenesis, screen, amountDraw, picks);
      (forall i :: 0 <= i < |batch| ==> screen.bottom + 12 <= batch[i].1 < screen.top - 12) &&
      (forall i, j :: 0 <= i < j < |batch| ==> Abs(batch[i].1 - batch[j].1) >= Trunc(yGap))
  {
    var batch := CreateBlockBatch(batchMin, batchMax, yGap, xGenesis, screen, amountDraw, picks);
    forall i, j | 0 <= i < |batch| && 0 <= j < |batch|
      ensures screen.bottom + 12 <= batch[i].1 < screen.top - 12
      ensures i != j ==> Abs(batch[i].1 - batch[j].1) >= Trunc(yGap)
    {
      CandidatesSpacedAndBounded(screen, yGap, batch[i].1, batch[j].1);
    }
  }

  /**
   * `check_collision`: scan the blocks and stop at the first one whose box
   * overlaps the player's shrunk box.
   */
  function CheckCollision(player: Players.Player, blocks: seq<Block>): (hit: bool)
    reads player
    ensures hit <==> Collides(player.x, player.y, player.width, player.height, blocks)
  {
    if blocks == [] then false
    else if Hits(player.x, player.y, player.width, player.height, blocks[0]) then true
    else
      var rest := CheckCollision(player, blocks[1..]);
      assert forall i :: 1 <= i < |blocks| ==> blocks[i] == blocks[1..][i - 1];
      rest
  }
}
