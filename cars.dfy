/**
 * The older car manager: the same spawn and move rules as the block manager,
 * with a fixed batch size and gap. Its wreck step walks the list and deletes
 * only the loop variable, so the list never shrinks.
 */
module Cars {
  import opened Shapes
  import Screen
  import Blocks

  /** `SCREEN_WIDTH / 2 + 20` and `-(SCREEN_WIDTH / 2) - 20`, both integral. */
  const X_GEN_COR: int := Screen.SCREEN_WIDTH / 2 + 20
  const X_DEL_COR: int := -(Screen.SCREEN_WIDTH / 2) - 20

  /** The batch size asked of the y-generator and the x-distance between batches. */
  const CAR_BATCH_MAX: int := 3
  const CAR_BATCH_GAP: int := 80

  /** The field after one `add_cars` with the y-values `ys` for a new batch. */
  function AfterAddCars(c: seq<Block>, ys: seq<int>): seq<Block> {
    if Blocks.BatchDue(c, X_GEN_COR, CAR_BATCH_GAP as real) then c + Blocks.Placed(Column(X_GEN_COR, ys))
    else c
  }

  /**
   * `add_cars` only appends: a batch of one car per y, at the genesis x, when
   * the field is empty or its rightmost car is strictly left of x = 240; the
   * cars already there keep their places and order.
   */
  lemma AddCarsOnlyAppends(c: seq<Block>, ys: seq<int>)
    ensures var r := AfterAddCars(c, ys);
      r[..|c|] == c &&
      (|r| == |c| + |ys| <==> Blocks.BatchDue(c, X_GEN_COR, CAR_BATCH_GAP as real) || ys == []) &&
      (|r| == |c| || |r| == |c| + |ys|) &&
      (forall i :: |c| <= i < |r| ==> r[i] == Block(X_GEN_COR, ys[i - |c|]))
  {
  }

  /** With the gap of 80 a car at x = 240 holds the next batch back and one at 239 lets it through. */
  lemma AddCarsThreshold()
    ensures AfterAddCars([Block(240, 0)], [10]) == [Block(240, 0)]
    ensures AfterAddCars([Block(239, 0)], [10]) == [Block(239, 0), Block(320, 10)]
  {
    assert Blocks.Placed(Column(X_GEN_COR, [10])) == [Block(320, 10)];
  }

  class CarManager {
    var cars: seq<Block>
    const speed: real
    const moveDistance: int
    const carBatchMax: int
    const carBatchGap: int
    const xGenCor: int
    const xDelCor: int

    ghost predicate Valid()
      reads this
    {
      moveDistance == 5 && carBatchMax == CAR_BATCH_MAX && carBatchGap == CAR_BATCH_GAP &&
      xGenCor == X_GEN_COR && xDelCor == X_DEL_COR
    }

    /**
     * The defaults, then one `add_cars` on the empty field. `ys` stands for
     * what the y-generator returns for a batch of up to three cars.
     */
    constructor (ys: seq<int>)
      ensures Valid() && speed == 0.2
      ensures cars == Blocks.Placed(Column(X_GEN_COR, ys))
    {
      cars := [];
      speed := 0.2;
      moveDistance := 5;
      carBatchMax := CAR_BATCH_MAX;
      carBatchGap := CAR_BATCH_GAP;
      xGenCor := X_GEN_COR;
      xDelCor := X_DEL_COR;
      new;
      AddCars(ys);
    }

    /** `add_cars`, with `ys` the y-generator's answer should a batch be due. */
    method AddCars(ys: seq<int>)
      requires Valid()
      modifies this`cars
      ensures cars == AfterAddCars(old(cars), ys)
    {
      if cars == [] {
        var positions := GenCarPositions(carBatchMax, ys);
        RenderCars(positions);
      } else {
        var rightmostX := Blocks.RightmostX(cars);
        if rightmostX < xGenCor - carBatchGap {
          var positions := GenCarPositions(carBatchMax, ys);
          RenderCars(positions);
        }
      }
    }

    /**
     * `gen_car_positions`: one position per generated y, at the genesis x, in
     * order. `ranYs` is the y-generator's answer for `amountCarRange`.
     */
    method GenCarPositions(amountCarRange: int, ranYs: seq<int>) returns (positions: seq<(int, int)>)
      ensures |positions| == |ranYs|
      ensures forall i :: 0 <= i < |ranYs| ==> positions[i] == (xGenCor, ranYs[i])
    {
      positions := [];
      for i := 0 to |ranYs|
        invariant |positions| == i
        invariant forall j :: 0 <= j < i ==> positions[j] == (xGenCor, ranYs[j])
      {
        positions := positions + [(xGenCor, ranYs[i])];
      }
    }

    /** `render_cars`: one car per position, at that position, appended in order. */
    method RenderCars(positions: seq<(int, int)>)
      modifies this`cars
      ensures cars == old(cars) + Blocks.Placed(positions)
    {
      for i := 0 to |positions|
        invariant cars == old(cars) + Blocks.Placed(positions[..i])
      {
        assert Blocks.Placed(positions[..i + 1]) == Blocks.Placed(positions[..i]) + [Block(positions[i].0, positions[i].1)];
        cars := cars + [Block(positions[i].0, positions[i].1)];
      }
      assert positions[..|positions|] == positions;
    }

    /** `move_cars`: every car `move_distance` to the left. */
    method MoveCars()
      modifies this`cars
      ensures cars == Blocks.Moved(old(cars), moveDistance)
    {
      for i := 0 to |cars|
        invariant |cars| == |old(cars)|
        invariant forall j :: 0 <= j < i ==> cars[j] == Block(old(cars)[j].x - moveDistance, old(cars)[j].y)
        invariant forall j :: i <= j < |cars| ==> cars[j] == old(cars)[j]
      {
        cars := cars[i := Block(cars[i].x - moveDistance, cars[i].y)];
      }
    }

    /**
     * `wreck_cars` as written: it visits every car and, for one past the
     * deletion x, unbinds only its own loop variable; the list stays as it was.
     */
    method WreckCars()
      modifies this`cars
      ensures cars == old(cars)
    {
      for i := 0 to |cars|
        invariant cars == old(cars)
      {
        var car := cars[i];
        if car.x < xDelCor {
          car := Block(0, 0);
        }
      }
    }
  }

  /**
   * A single car spawned at y = 0 and moved 129 times sits at x = -325, past
   * the deletion x; `wreck_cars` still leaves it on the field, where the block
   * manager's wreck step would have removed it.
   */
  method CarOutlivesWreck() returns (field: seq<Block>)
    ensures field == [Block(-325, 0)]
    ensures field[0].x < X_DEL_COR && Blocks.Wrecked(field, X_DEL_COR) == []
  {
    var m := new CarManager([0]);
    assert Column(X_GEN_COR, [0]) == [(320, 0)];
    var k := 0;
    while k < 129
      invariant 0 <= k <= 129
      invariant m.Valid() && m.cars == [Block(320 - 5 * k, 0)]
    {
      m.MoveCars();
      k := k + 1;
    }
    m.WreckCars();
    field := m.cars;
    assert field[0].x < X_DEL_COR;
  }
}
