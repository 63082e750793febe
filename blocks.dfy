/**
 * The block manager: the list of live blocks and the difficulty settings.
 * Every tick it moves all blocks left, spawns a new batch at the genesis x when
 * the field is empty or the rightmost block has moved far enough away, and then
 * drops the blocks that passed the wrecking x. A level-up escalates the
 * difficulty; a restart empties the field and restores part of the settings.
 */
module Blocks {
  import opened Seqs
  import opened Shapes
  import Screen
  import LegacyHelpers

  /** New batches appear 20 px right of the screen edge; blocks 20 px left of the other edge are dropped. */
  const X_GENESIS: int := Screen.Trunc(Screen.SCREEN_WIDTH as real / 2.0 + 20.0)
  const X_WRECKING: int := Screen.Trunc(-(Screen.SCREEN_WIDTH as real / 2.0) - 20.0)
  /** Pixels every block moves left per tick. */
  const MOVE_DISTANCE: int := 5

  lemma FieldEdges()
    ensures X_GENESIS == 320 && X_WRECKING == -320
  {
  }

  /**
   * The settings a level-up changes: the tick interval (`speed`), the bounds
   * on the batch size, the x-distance a batch must travel before the next one,
   * and the y-spacing inside a batch.
   */
  datatype Difficulty = Difficulty(speed: real, batchMax: int, batchMin: int, xGap: real, yGap: real)

  const DEFAULTS: Difficulty := Difficulty(0.2, 3, 0, 80.0, 25.0)

  /** `increase_difficulty(level)`: thresholds on the absolute level, effects cumulative. */
  function Escalated(d: Difficulty, level: int): Difficulty {
    Difficulty(d.speed * 0.95,
               if level >= 3 then d.batchMax + 1 else d.batchMax,
               if level >= 7 then d.batchMin + 1 else d.batchMin,
               if level >= 5 then d.xGap * 0.95 else d.xGap,
               if level >= 5 then d.yGap * 0.95 else d.yGap)
  }

  /**
   * Escalation keeps `0 <= batch_min <= batch_max`, always shortens a positive
   * tick interval, and never widens a positive gap.
   */
  lemma EscalationKeepsInvariants(d: Difficulty, level: int)
    requires 0 <= d.batchMin <= d.batchMax
    requires d.speed > 0.0 && d.xGap > 0.0 && d.yGap > 0.0
    ensures var e := Escalated(d, level);
      0 <= e.batchMin <= e.batchMax && 0.0 < e.speed < d.speed &&
      0.0 < e.xGap <= d.xGap && 0.0 < e.yGap <= d.yGap &&
      e.batchMax - e.batchMin == d.batchMax - d.batchMin + (if 3 <= level < 7 then 1 else 0)
  {
  }

  /** One escalation from the defaults, at the four level ranges. */
  lemma EscalationFromDefaults()
    ensures Escalated(DEFAULTS, 2) == Difficulty(0.19, 3, 0, 80.0, 25.0)
    ensures Escalated(DEFAULTS, 4) == Difficulty(0.19, 4, 0, 80.0, 25.0)
    ensures Escalated(DEFAULTS, 5) == Difficulty(0.19, 4, 0, 76.0, 23.75)
    ensures Escalated(DEFAULTS, 7) == Difficulty(0.19, 4, 1, 76.0, 23.75)
    ensures Escalated(Escalated(DEFAULTS, 5), 5).xGap == 72.2
  {
  }

  /** `reset`: batch bounds and speed go back to their defaults; the two gaps keep their escalated values. */
  function Restored(d: Difficulty): Difficulty {
    Difficulty(DEFAULTS.speed, DEFAULTS.batchMax, DEFAULTS.batchMin, d.xGap, d.yGap)
  }

  /** After a level-7 escalation a reset restores 0.2, 3 and 0 but keeps the gaps at 76 and 23.75. */
  lemma ResetKeepsGaps()
    ensures Restored(Escalated(DEFAULTS, 7)) == Difficulty(0.2, 3, 0, 76.0, 23.75)
    ensures Restored(Escalated(DEFAULTS, 7)) != DEFAULTS
  {
  }

  /** One block per coordinate pair, at that pair, in order. */
  function Placed(coords: seq<(int, int)>): (r: seq<Block>)
    ensures |r| == |coords|
    ensures forall i :: 0 <= i < |coords| ==> r[i] == Block(coords[i].0, coords[i].1)
  {
    seq(|coords|, i requires 0 <= i < |coords| => Block(coords[i].0, coords[i].1))
  }

  /** Every block `d` pixels further left; y, count and order unchanged. */
  function Moved(c: seq<Block>, d: int): (r: seq<Block>)
    ensures |r| == |c|
    ensures forall i :: 0 <= i < |c| ==> r[i] == Block(c[i].x - d, c[i].y)
  {
    seq(|c|, i requires 0 <= i < |c| => Block(c[i].x - d, c[i].y))
  }

  /** The blocks that survive the wrecking line: those with `x >= w`, in their original order. */
  function Wrecked(c: seq<Block>, w: int): (r: seq<Block>)
    ensures forall i :: 0 <= i < |r| ==> r[i].x >= w
  {
    if c == [] then []
    else if c[0].x >= w then [c[0]] + Wrecked(c[1..], w)
    else Wrecked(c[1..], w)
  }

  /**
   * Wrecking keeps exactly the blocks with `x >= w`, each as often as before,
   * and keeps them in their original order.
   */
  lemma {:induction false} WreckedKeepsExactlyInOrder(c: seq<Block>, w: int)
    ensures forall b :: multiset(Wrecked(c, w))[b] == if b.x >= w then multiset(c)[b] else 0
    ensures IsSubsequence(Wrecked(c, w), c)
  {
    if c != [] {
      assert c == [c[0]] + c[1..];
      var rest := Wrecked(c[1..], w);
      WreckedKeepsExactlyInOrder(c[1..], w);
      if c[0].x >= w {
        assert ([c[0]] + rest)[1..] == rest;
      } else {
        SubsequenceOfTail(rest, c);
      }
    }
  }

  /** Nothing is dropped exactly when every block is at or right of the line. */
  lemma {:induction false} WreckedKeepsAllIffOnField(c: seq<Block>, w: int)
    ensures Wrecked(c, w) == c <==> forall i :: 0 <= i < |c| ==> c[i].x >= w
  {
    if c != [] {
      WreckedKeepsAllIffOnField(c[1..], w);
      if c[0].x < w {
        assert |Wrecked(c, w)| <= |c[1..]| by {
          WreckedKeepsExactlyInOrder(c[1..], w);
          SubsequenceShorter(Wrecked(c, w), c[1..]);
        }
      }
      assert forall i :: 1 <= i < |c| ==> c[i] == c[1..][i - 1];
    }
  }

  lemma {:induction false} SubsequenceShorter<T>(s: seq<T>, t: seq<T>)
    requires IsSubsequence(s, t)
    ensures |s| <= |t|
    decreases |t|
  {
    if s != [] {
      if s[0] == t[0] {
        SubsequenceShorter(s[1..], t[1..]);
      } else {
        SubsequenceShorter(s, t[1..]);
      }
    }
  }

  /** The wrecking line is strict: a block on it stays, one pixel past it goes. */
  lemma WreckBoundary()
    ensures Wrecked([Block(-320, 0), Block(50, 100)], -320) == [Block(-320, 0), Block(50, 100)]
    ensures Wrecked([Block(-321, 0), Block(50, 100)], -320) == [Block(50, 100)]
  {
  }

  /** `max(block.xcor() for block in container)`. */
  function RightmostX(c: seq<Block>): (m: int)
    requires c != []
    ensures exists i :: 0 <= i < |c| && c[i].x == m
    ensures forall i :: 0 <= i < |c| ==> c[i].x <= m
  {
    if |c| == 1 then c[0].x
    else
      var rest := RightmostX(c[1..]);
      assert forall i :: 1 <= i < |c| ==> c[i] == c[1..][i - 1];
      Max(c[0].x, rest)
  }

  /** Moving every block left moves the rightmost one left by the same distance. */
  lemma MovedRightmost(c: seq<Block>, d: int)
    requires c != []
    ensures RightmostX(Moved(c, d)) == RightmostX(c) - d
  {
  }

  /** A batch is due when the field is empty or the rightmost block is strictly more than the gap left of genesis. */
  predicate BatchDue(c: seq<Block>, genesis: int, gap: real) {
    c == [] || (RightmostX(c) as real) < genesis as real - gap
  }

  /** With the default gap of 80 a block at x = 240 blocks the next batch and one at 239 lets it through. */
  lemma BatchThreshold()
    ensures !BatchDue([Block(240, 0)], X_GENESIS, DEFAULTS.xGap)
    ensures BatchDue([Block(239, 0)], X_GENESIS, DEFAULTS.xGap)
    ensures BatchDue([], X_GENESIS, DEFAULTS.xGap)
  {
  }

  /** The spawn draws finish the rejection loop for these settings. */
  predicate CanSpawn(d: Difficulty, spawn: LegacyHelpers.Spawn) {
    d.batchMin <= d.batchMax &&
    LegacyHelpers.BatchOf(d.batchMin, d.batchMax, d.yGap, X_GENESIS, spawn).Some?
  }

  /** `add_blocks`: append the drawn batch when one is due, otherwise leave the field alone. */
  function AfterAdd(c: seq<Block>, d: Difficulty, spawn: LegacyHelpers.Spawn): seq<Block>
    requires BatchDue(c, X_GENESIS, d.xGap) ==> CanSpawn(d, spawn)
  {
    if BatchDue(c, X_GENESIS, d.xGap) then
      c + Placed(LegacyHelpers.BatchOf(d.batchMin, d.batchMax, d.yGap, X_GENESIS, spawn).value)
    else c
  }

  /**
   * Adding only appends: the old blocks keep their places, and a due batch
   * brings between `batch_min` and `batch_max` new blocks; when no batch is due
   * nothing changes.
   */
  lemma AddOnlyAppends(c: seq<Block>, d: Difficulty, spawn: LegacyHelpers.Spawn)
    requires 0 <= d.batchMin <= d.batchMax
    requires BatchDue(c, X_GENESIS, d.xGap) ==> CanSpawn(d, spawn)
    ensures var r := AfterAdd(c, d, spawn);
      |c| <= |r| <= |c| + d.batchMax && r[..|c|] == c &&
      (BatchDue(c, X_GENESIS, d.xGap) ==> |r| >= |c| + d.batchMin) &&
      (!BatchDue(c, X_GENESIS, d.xGap) ==> r == c)
  {
    if BatchDue(c, X_GENESIS, d.xGap) {
      var r := AfterAdd(c, d, spawn);
      var b := LegacyHelpers.BatchOf(d.batchMin, d.batchMax, d.yGap, X_GENESIS, spawn).value;
      LegacyHelpers.BatchOfSound(d.batchMin, d.batchMax, d.yGap, X_GENESIS, spawn);
      assert r == c + Placed(b);
      assert r[..|c|] == c;
    }
  }

  /** Appending a placed batch puts each of its coordinate pairs after the field, in order. */
  lemma AppendedBatch(c: seq<Block>, b: seq<(int, int)>, yGap: real)
    requires forall i :: 0 <= i < |b| ==> b[i].0 == X_GENESIS && LegacyHelpers.Y_LOW <= b[i].1 <= LegacyHelpers.Y_HIGH
    requires forall i, j :: 0 <= i < j < |b| ==> Abs(b[i].1 - b[j].1) as real > yGap
    ensures var r := c + Placed(b);
      (forall i :: |c| <= i < |r| ==> r[i].x == X_GENESIS && LegacyHelpers.Y_LOW <= r[i].y <= LegacyHelpers.Y_HIGH) &&
      (forall i, j :: |c| <= i < j < |r| ==> Abs(r[i].y - r[j].y) as real > yGap)
  {
    var r := c + Placed(b);
    forall i | |c| <= i < |r|
      ensures r[i] == Block(b[i - |c|].0, b[i - |c|].1)
    {
      assert r[i] == Placed(b)[i - |c|];
    }
    forall i, j | |c| <= i < j < |r|
      ensures Abs(r[i].y - r[j].y) as real > yGap
    {
      assert r[i].y == b[i - |c|].1 && r[j].y == b[j - |c|].1;
    }
  }

  /**
   * The blocks a due batch adds all sit at the genesis x, inside the band, and
   * strictly more than the y-gap apart.
   */
  lemma AddedBlocksSpaced(c: seq<Block>, d: Difficulty, spawn: LegacyHelpers.Spawn)
    requires 0 <= d.batchMin <= d.batchMax
    requires BatchDue(c, X_GENESIS, d.xGap) && CanSpawn(d, spawn)
    ensures var r := AfterAdd(c, d, spawn);
      (forall i :: |c| <= i < |r| ==> r[i].x == X_GENESIS && LegacyHelpers.Y_LOW <= r[i].y <= LegacyHelpers.Y_HIGH) &&
      (forall i, j :: |c| <= i < j < |r| ==> Abs(r[i].y - r[j].y) as real > d.yGap)
  {
    var b := LegacyHelpers.BatchOf(d.batchMin, d.batchMax, d.yGap, X_GENESIS, spawn).value;
    LegacyHelpers.BatchOfSound(d.batchMin, d.batchMax, d.yGap, X_GENESIS, spawn);
    AppendedBatch(c, b, d.yGap);
  }

  /** Wrecking a non-empty field decides its first block, then wrecks the rest. */
  lemma WreckedStep(c: seq<Block>, w: int)
    requires c != []
    ensures Wrecked(c, w) == (if c[0].x >= w then [c[0]] else []) + Wrecked(c[1..], w)
  {
  }

  /** Wrecking a field with one more block at the end decides that block after the others. */
  lemma {:induction false} WreckedSnoc(c: seq<Block>, b: Block, w: int)
    ensures Wrecked(c + [b], w) == Wrecked(c, w) + (if b.x >= w then [b] else [])
  {
    WreckedStep(c + [b], w);
    if c == [] {
      assert (c + [b])[1..] == [];
    } else {
      assert (c + [b])[1..] == c[1..] + [b];
      WreckedSnoc(c[1..], b, w);
      WreckedStep(c, w);
    }
  }

  /** The field after one `update_blocks`: move, then add, then wreck. */
  function AfterUpdate(c: seq<Block>, d: Difficulty, spawn: LegacyHelpers.Spawn): seq<Block>
    requires BatchDue(Moved(c, MOVE_DISTANCE), X_GENESIS, d.xGap) ==> CanSpawn(d, spawn)
  {
    Wrecked(AfterAdd(Moved(c, MOVE_DISTANCE), d, spawn), X_WRECKING)
  }

  /** An update of an empty field leaves only the new batch, all of it at the genesis x. */
  lemma UpdateOfEmptyField(d: Difficulty, spawn: LegacyHelpers.Spawn)
    requires 0 <= d.batchMin <= d.batchMax && CanSpawn(d, spawn)
    ensures var r := AfterUpdate([], d, spawn);
      forall i :: 0 <= i < |r| ==> r[i].x == X_GENESIS
  {
    assert Moved([], MOVE_DISTANCE) == [];
    AddedBlocksSpaced([], d, spawn);
    WreckedKeepsAllIffOnField(AfterAdd([], d, spawn), X_WRECKING);
  }

  /** A first block that is still on the field after its move stays first, moved. */
  lemma UpdateKeepsMovedHead(c: seq<Block>, d: Difficulty, spawn: LegacyHelpers.Spawn)
    requires c != [] && c[0].x - MOVE_DISTANCE >= X_WRECKING
    requires 0 <= d.batchMin <= d.batchMax
    requires BatchDue(Moved(c, MOVE_DISTANCE), X_GENESIS, d.xGap) ==> CanSpawn(d, spawn)
    ensures var r := AfterUpdate(c, d, spawn);
      r != [] && r[0] == Block(c[0].x - MOVE_DISTANCE, c[0].y)
  {
  }

  class BlockManager {
    var container: seq<Block>
    var speed: real
    const moveDistance: int
    var batchMax: int
    var batchMin: int
    var xGap: real
    var yGap: real
    const xGenesis: int
    const xWrecking: int

    function Settings(): Difficulty
      reads this
    {
      Difficulty(speed, batchMax, batchMin, xGap, yGap)
    }

    /** The batch bounds stay ordered and the constants are the program's. */
    ghost predicate Valid()
      reads this
    {
      0 <= batchMin <= batchMax &&
      moveDistance == MOVE_DISTANCE && xGenesis == X_GENESIS && xWrecking == X_WRECKING
    }

    /** The spawn draws suffice for an `add_blocks` now. */
    predicate SpawnReady(spawn: LegacyHelpers.Spawn)
      reads this
    {
      BatchDue(container, X_GENESIS, xGap) ==> CanSpawn(Settings(), spawn)
    }

    /** The spawn draws suffice for the `add_blocks` of an `update_blocks` now. */
    predicate TickReady(spawn: LegacyHelpers.Spawn)
      reads this
    {
      BatchDue(Moved(container, MOVE_DISTANCE), X_GENESIS, xGap) ==> CanSpawn(Settings(), spawn)
    }

    /** Default settings, then one `add_blocks` on the empty field, which always spawns. */
    constructor (spawn: LegacyHelpers.Spawn)
      requires CanSpawn(DEFAULTS, spawn)
      ensures Valid() && Settings() == DEFAULTS
      ensures container == Placed(LegacyHelpers.BatchOf(0, 3, 25.0, X_GENESIS, spawn).value)
    {
      container := [];
      speed := 0.2;
      moveDistance := 5;
      batchMax := 3;
      batchMin := 0;
      xGap := 80.0;
      yGap := 25.0;
      xGenesis := X_GENESIS;
      xWrecking := X_WRECKING;
      new;
      AddBlocks(spawn);
    }

    /** `add_blocks`: spawn a batch at the genesis x when one is due. */
    method AddBlocks(spawn: LegacyHelpers.Spawn)
      requires Valid() && SpawnReady(spawn)
      modifies this`container
      ensures Valid()
      ensures container == AfterAdd(old(container), Settings(), spawn)
    {
      if container == [] {
        var batch := LegacyHelpers.CreateBlockBatch(batchMin, batchMax, yGap, xGenesis, spawn);
        RenderBlocks(batch.value);
      } else {
        var rightmostX := RightmostX(container);
        if (rightmostX as real) < xGenesis as real - xGap {
          var batch := LegacyHelpers.CreateBlockBatch(batchMin, batchMax, yGap, xGenesis, spawn);
          RenderBlocks(batch.value);
        }
      }
    }

    /** `render_blocks`: append one block per coordinate pair, in order. */
    method RenderBlocks(coords: seq<(int, int)>)
      requires Valid()
      modifies this`container
      ensures Valid()
      ensures container == old(container) + Placed(coords)
    {
      for i := 0 to |coords|
        invariant container == old(container) + Placed(coords[..i])
      {
        assert Placed(coords[..i + 1]) == Placed(coords[..i]) + [Block(coords[i].0, coords[i].1)];
        container := container + [Block(coords[i].0, coords[i].1)];
      }
      assert coords[..|coords|] == coords;
    }

    /** `move_blocks`: every block `move_distance` to the left. */
    method MoveBlocks()
      requires Valid()
      modifies this`container
      ensures Valid()
      ensures container == Moved(old(container), moveDistance)
    {
      for i := 0 to |container|
        invariant |container| == |old(container)|
        invariant forall j :: 0 <= j < i ==> container[j] == Block(old(container)[j].x - moveDistance, old(container)[j].y)
        invariant forall j :: i <= j < |container| ==> container[j] == old(container)[j]
      {
        container := container[i := Block(container[i].x - moveDistance, container[i].y)];
      }
    }

    /** `wreck_blocks`: rebuild the list from the blocks at or right of the wrecking x. */
    method WreckBlocks()
      requires Valid()
      modifies this`container
      ensures Valid()
      ensures container == Wrecked(old(container), xWrecking)
    {
      var c := container;
      var kept: seq<Block> := [];
      for i := 0 to |c|
        invariant kept == Wrecked(c[..i], xWrecking)
      {
        assert c[..i + 1] == c[..i] + [c[i]];
        WreckedSnoc(c[..i], c[i], xWrecking);
        if c[i].x >= xWrecking {
          kept := kept + [c[i]];
        }
      }
      assert c[..|c|] == c;
      container := kept;
    }

    /** `reset`: empty the field and restore batch bounds and speed; the gaps stay. */
    method Reset()
      requires Valid()
      modifies this`container, this`batchMax, this`batchMin, this`speed
      ensures Valid()
      ensures container == [] && Settings() == Restored(old(Settings()))
    {
      container := [];
      batchMax := 3;
      batchMin := 0;
      speed := 0.2;
    }

    /** `increase_difficulty(level)`. */
    method IncreaseDifficulty(level: int)
      requires Valid()
      modifies this`speed, this`batchMax, this`batchMin, this`xGap, this`yGap
      ensures Valid()
      ensures Settings() == Escalated(old(Settings()), level)
    {
      speed := speed * 0.95;
      if level >= 3 {
        batchMax := batchMax + 1;
      }
      if level >= 5 {
        xGap := xGap * 0.95;
        yGap := yGap * 0.95;
      }
      if level >= 7 {
        batchMin := batchMin + 1;
      }
    }

    /** `update_blocks`: move, then add, then wreck; afterwards no block is left of the wrecking x. */
    method UpdateBlocks(spawn: LegacyHelpers.Spawn)
      requires Valid() && TickReady(spawn)
      modifies this`container
      ensures Valid()
      ensures container == AfterUpdate(old(container), Settings(), spawn)
      ensures forall i :: 0 <= i < |container| ==> container[i].x >= xWrecking
    {
      MoveBlocks();
      AddBlocks(spawn);
      WreckBlocks();
    }
  }

  /**
   * One escalation at level 7 from a fresh manager (whatever its first batch), then a reset: the
   * escalation gives 0.19, 4, 1, 76 and 23.75; the reset brings back 0.2, 3
   * and 0 but leaves the gaps at 76 and 23.75.
   */
  method EscalateThenReset(spawn: LegacyHelpers.Spawn) returns (escalated: Difficulty, restored: Difficulty)
    requires CanSpawn(DEFAULTS, spawn)
    ensures escalated == Difficulty(0.19, 4, 1, 76.0, 23.75)
    ensures restored == Difficulty(0.2, 3, 0, 76.0, 23.75)
  {
    var m := new BlockManager(spawn);
    m.IncreaseDifficulty(7);
    escalated := m.Settings();
    m.Reset();
    restored := m.Settings();
  }
}
