/** The cell records of the grid dictionary. A record is either
    {type: 'water'} or a plant {type, stage, plantedAt, growthDuration};
    a missing key is bare grass. */
module Cells {
  import opened Config
  import opened CellKeys

  /** The `type` of a plant record. */
  datatype Kind = Seed | Sprout | Tree

  datatype Cell =
    | Water
    | Plant(kind: Kind, stage: int, plantedAt: int, growthDuration: real)

  /** gameState.grid: key `${row}-${col}` to record. */
  type Grid = map<string, Cell>

  /** Position of a kind along seed -> sprout -> tree. */
  function Rank(k: Kind): nat {
    match k
    case Seed => 0
    case Sprout => 1
    case Tree => 2
  }

  predicate IsTree(c: Cell) {
    c.Plant? && c.kind == Tree
  }

  predicate InGrid(row: int, col: int) {
    0 <= row < GridSize && 0 <= col < GridSize
  }

  /** True of the keys the game itself writes: the key of an in-grid cell. */
  predicate WellFormedKey(id: string) {
    exists row, col :: 0 <= row < GridSize && 0 <= col < GridSize && id == Key(row, col)
  }

  /** What every record written by the game satisfies: an animation stage
      in 1..3 and a growth duration drawn from [10000, 20000). */
  predicate CellOk(c: Cell) {
    c.Plant? ==>
      1 <= c.stage <= 3 &&
      MinGrowthDuration <= c.growthDuration < MinGrowthDuration + GrowthDurationSpread
  }

  predicate GridOk(grid: Grid) {
    forall id :: id in grid ==> WellFormedKey(id) && CellOk(grid[id])
  }

  /** A key the game wrote is read back, by split('-') and parseInt, as the
      in-grid cell it was made from. */
  lemma WellFormedKeyParses(id: string)
    requires WellFormedKey(id)
    ensures ParseKey(id).0.Some? && ParseKey(id).1.Some?
    ensures InGrid(ParseKey(id).0.value, ParseKey(id).1.value)
    ensures id == Key(ParseKey(id).0.value, ParseKey(id).1.value)
  {
    var row, col :| 0 <= row < GridSize && 0 <= col < GridSize && id == Key(row, col);
    KeyRoundTrip(row, col);
  }
}
