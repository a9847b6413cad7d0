/** The tool rules applied when a seed, shovel or bucket is dropped on the
    canvas (handleCanvasDrop). */
module Tools {
  import opened Wrappers
  import opened Config
  import opened CellKeys
  import opened Cells

  /** The id of the dragged tool element. */
  datatype Tool = SeedTool | ShovelTool | BucketTool

  /** 10000 + Math.random() * 10000, for a draw `random` in [0, 1). */
  function GrowthDurationFor(random: real): (d: real)
    requires 0.0 <= random < 1.0
    ensures MinGrowthDuration <= d < MinGrowthDuration + GrowthDurationSpread
  {
    MinGrowthDuration + random * GrowthDurationSpread
  }

  /** The cell under world pixel (x, y): column floor(x / CELL_SIZE) and row
      floor(y / CELL_SIZE), or None when that cell is outside the grid. */
  function DropCell(x: int, y: int): (target: Option<(nat, nat)>)
    ensures target.Some? <==> 0 <= x < WorldSize && 0 <= y < WorldSize
    ensures target.Some? ==>
      var (row, col) := target.value;
      InGrid(row, col) &&
      col * CellSize <= x < (col + 1) * CellSize &&
      row * CellSize <= y < (row + 1) * CellSize
  {
    var col := x / CellSize;
    var row := y / CellSize;
    if row < 0 || row >= GridSize || col < 0 || col >= GridSize then None
    else Some((row, col))
  }

  /** The new grid after dropping `tool` on the cell keyed `id`. */
  function ApplyTool(grid: Grid, tool: Tool, id: string, now: int, random: real): (g: Grid)
    requires 0.0 <= random < 1.0
    // no other key is added, removed or changed
    ensures g - {id} == grid - {id}
    // seed: plants a fresh seed on an empty cell, otherwise changes nothing
    ensures tool == SeedTool && id in grid ==> g == grid
    ensures tool == SeedTool && id !in grid ==>
      id in g && g[id].Plant? && g[id].kind == Seed && g[id].stage == 1 &&
      g[id].plantedAt == now &&
      MinGrowthDuration <= g[id].growthDuration < MinGrowthDuration + GrowthDurationSpread
    // shovel: empties the cell, and changes nothing on an empty cell
    ensures tool == ShovelTool ==> id !in g
    ensures tool == ShovelTool && id !in grid ==> g == grid
    // bucket: removes water, turns anything else (grass or a plant) to water
    ensures tool == BucketTool ==>
      (id in g <==> !(id in grid && grid[id] == Water)) &&
      (id in g ==> g[id] == Water)
  {
    match tool
    case SeedTool =>
      if id in grid then grid
      else grid[id := Plant(Seed, 1, now, GrowthDurationFor(random))]
    case ShovelTool =>
      if id in grid then grid - {id} else grid
    case BucketTool =>
      if id in grid && grid[id].Water? then grid - {id} else grid[id := Water]
  }

  /** Two bucket drops on a cell restore it, unless it held a plant, which
      the first drop replaced by water. */
  lemma BucketTwice(grid: Grid, id: string, now: int, random: real)
    requires 0.0 <= random < 1.0
    requires id !in grid || grid[id] == Water
    ensures ApplyTool(ApplyTool(grid, BucketTool, id, now, random), BucketTool, id, now, random) == grid
  {
    var g1 := ApplyTool(grid, BucketTool, id, now, random);
    var g2 := ApplyTool(g1, BucketTool, id, now, random);
    assert g2.Keys == grid.Keys;
  }

  /** Dropping keeps the grid's records well formed. */
  lemma ApplyToolKeepsGridOk(grid: Grid, tool: Tool, row: nat, col: nat, now: int, random: real)
    requires 0.0 <= random < 1.0
    requires InGrid(row, col)
    ensures GridOk(grid) ==> GridOk(ApplyTool(grid, tool, Key(row, col), now, random))
  {
    if GridOk(grid) {
      var id := Key(row, col);
      assert WellFormedKey(id);
      var g := ApplyTool(grid, tool, id, now, random);
      forall k | k in g
        ensures WellFormedKey(k) && CellOk(g[k])
      {
        if k != id {
          assert k in g - {id};
          assert g[k] == (grid - {id})[k];
        }
      }
    }
  }

  /** Whether a drop calls updateTreeCount: a seed that was planted or a
      shovel that removed something (the bucket branch does not recount). */
  predicate Recounts(grid: Grid, tool: Tool, id: string)
    // the bucket never recounts, and a recount always changes the cell
    ensures Recounts(grid, tool, id) ==> tool != BucketTool
    ensures Recounts(grid, tool, id) ==> (id in grid <==> tool == ShovelTool)
  {
    (tool == SeedTool && id !in grid) || (tool == ShovelTool && id in grid)
  }

  /** Whether a drop at world pixel (x, y) with the dragged tool, if any,
      calls updateTreeCount. */
  predicate DropRecounts(grid: Grid, tool: Option<Tool>, x: int, y: int) {
    tool.Some? && DropCell(x, y).Some? &&
    Recounts(grid, tool.value, Key(DropCell(x, y).value.0, DropCell(x, y).value.1))
  }

  /** The grid after a drop at world pixel (x, y) with the dragged tool, if
      any: a drop without a tool or outside the grid changes nothing. */
  function DropOn(grid: Grid, tool: Option<Tool>, x: int, y: int, now: int, random: real): (g: Grid)
    requires 0.0 <= random < 1.0
    ensures tool.None? || DropCell(x, y).None? ==> g == grid
    ensures GridOk(grid) ==> GridOk(g)
  {
    var target := DropCell(x, y);
    if tool.None? || target.None? then grid
    else
      ApplyToolKeepsGridOk(grid, tool.value, target.value.0, target.value.1, now, random);
      ApplyTool(grid, tool.value, Key(target.value.0, target.value.1), now, random)
  }
}
