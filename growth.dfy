/** One tick of the game loop's growth pass: every plant may advance one
    step along seed -> sprout -> tree, then gets the animation frame for its
    age; and the water animation frame that advances every tenth tick. */
module Growth {
  import opened Config
  import opened Cells

  /** JavaScript's `a % b` for b > 0: truncated, so it takes the sign of a. */
  function JsRem(a: int, b: int): (r: int)
    requires b > 0
    ensures -b < r < b
  {
    if a >= 0 then a % b else -((-a) % b)
  }

  /** The animation frames, one per second of the 7-second cycle. */
  const FramePattern: seq<int> := [1, 2, 2, 1, 3, 3, 3]

  /** The sprite frame (the record's `stage`) for a plant `elapsed` ms old. */
  function Frame(elapsed: int): (f: int)
    ensures 1 <= f <= 3
    ensures elapsed < 0 ==> f == 1
    ensures elapsed >= 0 ==> f == FramePattern[(elapsed % CycleDuration) / 1000]
  {
    var position := JsRem(elapsed, CycleDuration);
    if position < 1000 then 1
    else if position < 3000 then 2
    else if position < 4000 then 1
    else 3
  }

  /** The record after one tick at clock time `now`. */
  function Grow(c: Cell, now: int): (c': Cell)
    ensures c.Water? ==> c' == Water
    ensures c.Plant? ==>
      c'.Plant? && c'.plantedAt == c.plantedAt && c'.growthDuration == c.growthDuration &&
      c'.stage == Frame(now - c.plantedAt)
    // at most one step forward, never back
    ensures c.Plant? ==> Rank(c'.kind) == Rank(c.kind) || Rank(c'.kind) == Rank(c.kind) + 1
    ensures c.Plant? && c.kind == Seed ==>
      (c'.kind == Sprout <==> now - c.plantedAt >= SeedDuration)
    ensures c.Plant? && c.kind == Sprout ==>
      (c'.kind == Tree <==> (now - c.plantedAt) as real >= c.growthDuration)
    ensures IsTree(c) ==> IsTree(c')
    ensures CellOk(c) ==> CellOk(c')
  {
    match c
    case Water => Water
    case Plant(kind, _, plantedAt, growthDuration) =>
      var elapsed := now - plantedAt;
      var kind' :=
        if kind == Seed && elapsed >= SeedDuration then Sprout
        else if kind == Sprout && elapsed as real >= growthDuration then Tree
        else kind;
      Plant(kind', Frame(elapsed), plantedAt, growthDuration)
  }

  /** The grid after the growth pass of one tick. */
  function GrowGrid(grid: Grid, now: int): (g: Grid)
    ensures g.Keys == grid.Keys
    ensures GridOk(grid) ==> GridOk(g)
  {
    map id | id in grid :: Grow(grid[id], now)
  }

  /** The record after ticks at the clock times `times`, in order. */
  function GrowMany(c: Cell, times: seq<int>): Cell
    decreases |times|
  {
    if times == [] then c else GrowMany(Grow(c, times[0]), times[1..])
  }

  /** Over any run of ticks a plant stays a plant with the same planting
      data, its kind never goes back, a tree stays a tree, and it advances
      at most one step per tick. */
  lemma {:induction false} GrowthIsMonotone(c: Cell, times: seq<int>)
    requires c.Plant?
    ensures GrowMany(c, times).Plant?
    ensures GrowMany(c, times).plantedAt == c.plantedAt
    ensures GrowMany(c, times).growthDuration == c.growthDuration
    ensures Rank(c.kind) <= Rank(GrowMany(c, times).kind) <= Rank(c.kind) + |times|
    ensures IsTree(c) ==> IsTree(GrowMany(c, times))
    decreases |times|
  {
    if times != [] {
      GrowthIsMonotone(Grow(c, times[0]), times[1..]);
    }
  }

  /** A plant whose last two ticks both come at least growthDuration after
      planting, the last no earlier than the one before, is a tree. */
  lemma {:induction false} TwoLateTicksMakeATree(c: Cell, times: seq<int>)
    requires c.Plant? && c.growthDuration >= SeedDuration as real
    requires |times| >= 2 && times[|times| - 2] <= times[|times| - 1]
    requires (times[|times| - 2] - c.plantedAt) as real >= c.growthDuration
    ensures IsTree(GrowMany(c, times))
    decreases |times|
  {
    var c1 := Grow(c, times[0]);
    if |times| == 2 {
      assert Rank(c1.kind) >= 1;
      assert GrowMany(c1, times[1..]) == Grow(c1, times[1]);
    } else {
      TwoLateTicksMakeATree(c1, times[1..]);
    }
  }

  /** The water frame after the tick that brought the loop counter to
      `counter`: it advances (mod 3) when the counter is a multiple of 10. */
  function NextWaterFrame(counter: int, frame: int): (f: int)
    ensures 0 <= frame < WaterFrames ==> 0 <= f < WaterFrames
  {
    if counter % WaterTicksPerFrame == 0 then (frame + 1) % WaterFrames else frame
  }

  /** The water frame when the counter reads `counter`, the loop having
      started with both at 0. */
  function WaterFrameAt(counter: nat): (f: int)
    ensures 0 <= f < WaterFrames
  {
    (counter / WaterTicksPerFrame) % WaterFrames
  }

  /** Each tick keeps waterFrame equal to WaterFrameAt(counter): the frame
      changes exactly on every tenth tick and cycles through 0, 1, 2. */
  lemma WaterFrameFollowsCounter(counter: nat)
    ensures NextWaterFrame(counter + 1, WaterFrameAt(counter)) == WaterFrameAt(counter + 1)
    ensures WaterFrameAt(counter + 1) != WaterFrameAt(counter) <==> (counter + 1) % WaterTicksPerFrame == 0
  {
    var q := counter / 10;
    if (counter + 1) % 10 == 0 {
      assert (counter + 1) / 10 == q + 1;
    } else {
      assert (counter + 1) / 10 == q;
    }
  }
}
