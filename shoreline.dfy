/** How drawGame dresses a water cell: it looks at the eight neighbours,
    counts an off-grid neighbour as grass ("herb"), and draws either a full
    water tile or four quarters, each plain sand or sand under water. */
module Shoreline {
  import opened Config
  import opened CellKeys
  import opened Cells

  /** For each neighbour, true when it is grass (not water). */
  datatype Neighbours = Neighbours(
    top: bool, bottom: bool, left: bool, right: bool,
    topLeft: bool, topRight: bool, bottomLeft: bool, bottomRight: bool)

  /** The water tile: drawn whole, or as four quarters where true is a plain
      sand quarter and false a sand quarter under water. */
  datatype Shore =
    | FullWater
    | Quarters(topLeft: bool, topRight: bool, bottomLeft: bool, bottomRight: bool)

  predicate IsWaterAt(grid: Grid, row: nat, col: nat) {
    Key(row, col) in grid && grid[Key(row, col)] == Water
  }

  /** Reference reading: a position is grass unless it is an in-grid water cell. */
  predicate HerbAt(grid: Grid, row: int, col: int) {
    !(InGrid(row, col) && IsWaterAt(grid, row, col))
  }

  predicate IsOffset(dr: int, dc: int) {
    -1 <= dr <= 1 && -1 <= dc <= 1 && (dr != 0 || dc != 0)
  }

  /** The flag of the neighbour at row offset dr and column offset dc. */
  function Flag(n: Neighbours, dr: int, dc: int): bool
    requires IsOffset(dr, dc)
  {
    if dr == -1 && dc == -1 then n.topLeft
    else if dr == -1 && dc == 0 then n.top
    else if dr == -1 then n.topRight
    else if dr == 0 && dc == -1 then n.left
    else if dr == 0 then n.right
    else if dc == -1 then n.bottomLeft
    else if dc == 0 then n.bottom
    else n.bottomRight
  }

  /** Whether the quarter in row direction qr and column direction qc
      (each -1 or 1) is plain sand. */
  function QuarterIsSand(s: Shore, qr: int, qc: int): bool
    requires s.Quarters?
  {
    if qr < 0 && qc < 0 then s.topLeft
    else if qr < 0 then s.topRight
    else if qc < 0 then s.bottomLeft
    else s.bottomRight
  }

  predicate IsCorner(qr: int, qc: int) {
    (qr == -1 || qr == 1) && (qc == -1 || qc == 1)
  }

  /** The neighbour flags of the cell at (row, col), with the source's edge
      tests (row > 0, row < GRID_SIZE - 1, ...) deciding what is off-grid. */
  function HerbNeighbours(grid: Grid, row: nat, col: nat): (n: Neighbours)
    // beyond each edge of the grid the neighbours count as grass
    ensures row == 0 ==> n.top && n.topLeft && n.topRight
    ensures row == GridSize - 1 ==> n.bottom && n.bottomLeft && n.bottomRight
    ensures col == 0 ==> n.left && n.topLeft && n.bottomLeft
    ensures col == GridSize - 1 ==> n.right && n.topRight && n.bottomRight
  {
    var up := row > 0;
    var down := row < GridSize - 1;
    var lft := col > 0;
    var rgt := col < GridSize - 1;
    Neighbours(
      !(up && IsWaterAt(grid, row - 1, col)),
      !(down && IsWaterAt(grid, row + 1, col)),
      !(lft && IsWaterAt(grid, row, col - 1)),
      !(rgt && IsWaterAt(grid, row, col + 1)),
      !(up && lft && IsWaterAt(grid, row - 1, col - 1)),
      !(up && rgt && IsWaterAt(grid, row - 1, col + 1)),
      !(down && lft && IsWaterAt(grid, row + 1, col - 1)),
      !(down && rgt && IsWaterAt(grid, row + 1, col + 1)))
  }

  /** Each of the eight flags, against the reference reading. */
  lemma NeighbourFlags(grid: Grid, row: nat, col: nat)
    requires InGrid(row, col)
    ensures var n := HerbNeighbours(grid, row, col);
      && n.top == HerbAt(grid, row - 1, col) && n.bottom == HerbAt(grid, row + 1, col)
      && n.left == HerbAt(grid, row, col - 1) && n.right == HerbAt(grid, row, col + 1)
      && n.topLeft == HerbAt(grid, row - 1, col - 1) && n.topRight == HerbAt(grid, row - 1, col + 1)
      && n.bottomLeft == HerbAt(grid, row + 1, col - 1) && n.bottomRight == HerbAt(grid, row + 1, col + 1)
  {
  }

  /** For a cell inside the grid, the source's edge tests agree with the
      reference reading: each flag says whether that neighbour position is
      grass, off-grid positions included. */
  lemma HerbNeighboursAreHerbAt(grid: Grid, row: nat, col: nat)
    requires InGrid(row, col)
    ensures forall dr, dc :: IsOffset(dr, dc) ==>
      Flag(HerbNeighbours(grid, row, col), dr, dc) == HerbAt(grid, row + dr, col + dc)
  {
    var n := HerbNeighbours(grid, row, col);
    NeighbourFlags(grid, row, col);
    FlagValues(n);
    forall dr, dc | IsOffset(dr, dc)
      ensures Flag(n, dr, dc) == HerbAt(grid, row + dr, col + dc)
    {
      if dr == -1 {
        assert dc == -1 || dc == 0 || dc == 1;
      } else if dr == 0 {
        assert dc == -1 || dc == 1;
      } else {
        assert dr == 1 && (dc == -1 || dc == 0 || dc == 1);
      }
    }
  }

  lemma FlagValues(n: Neighbours)
    ensures Flag(n, -1, -1) == n.topLeft && Flag(n, -1, 0) == n.top && Flag(n, -1, 1) == n.topRight
    ensures Flag(n, 0, -1) == n.left && Flag(n, 0, 1) == n.right
    ensures Flag(n, 1, -1) == n.bottomLeft && Flag(n, 1, 0) == n.bottom && Flag(n, 1, 1) == n.bottomRight
  {
  }

  /** The tile chosen for a water cell with neighbours `n`. */
  function Classify(n: Neighbours): (s: Shore)
    // full water exactly when no neighbour is grass
    ensures s.FullWater? <==> forall dr, dc :: IsOffset(dr, dc) ==> !Flag(n, dr, dc)
    // a quarter is sand when the neighbour on its row side, the one on its
    // column side, or the diagonal one between them is grass
    ensures s.Quarters? ==> forall qr, qc :: IsCorner(qr, qc) ==>
      (QuarterIsSand(s, qr, qc) <==> Flag(n, qr, 0) || Flag(n, 0, qc) || Flag(n, qr, qc))
    // a split tile always shows some sand
    ensures s.Quarters? ==> exists qr, qc :: IsCorner(qr, qc) && QuarterIsSand(s, qr, qc)
  {
    var touchesHerb := n.top || n.bottom || n.left || n.right ||
                       n.topLeft || n.topRight || n.bottomLeft || n.bottomRight;
    FlagValues(n);
    if !touchesHerb then FullWater
    else
      var s := Quarters(
        n.top || n.left || n.topLeft,
        n.top || n.right || n.topRight,
        n.bottom || n.left || n.bottomLeft,
        n.bottom || n.right || n.bottomRight);
      assert s.topLeft ==> QuarterIsSand(s, -1, -1);
      assert s.topRight ==> QuarterIsSand(s, -1, 1);
      assert s.bottomLeft ==> QuarterIsSand(s, 1, -1);
      assert s.bottomRight ==> QuarterIsSand(s, 1, 1);
      s
  }

  /** The tile chosen for the water cell at (row, col). */
  function ShoreAt(grid: Grid, row: nat, col: nat): Shore
  {
    Classify(HerbNeighbours(grid, row, col))
  }

  /** A water cell whose eight neighbours are all water is drawn whole. */
  lemma SurroundedWaterIsFull(grid: Grid, row: nat, col: nat)
    requires InGrid(row, col)
    requires forall dr, dc :: IsOffset(dr, dc) ==> !HerbAt(grid, row + dr, col + dc)
    ensures ShoreAt(grid, row, col) == FullWater
  {
    HerbNeighboursAreHerbAt(grid, row, col);
  }

  /** A water cell on the edge of the grid is always split, with sand on the
      side facing the edge. */
  lemma EdgeWaterIsSplit(grid: Grid, row: nat, col: nat)
    requires InGrid(row, col)
    ensures row == 0 ==>
      (var s := ShoreAt(grid, row, col); s.Quarters? && s.topLeft && s.topRight)
    ensures row == GridSize - 1 ==>
      (var s := ShoreAt(grid, row, col); s.Quarters? && s.bottomLeft && s.bottomRight)
    ensures col == 0 ==>
      (var s := ShoreAt(grid, row, col); s.Quarters? && s.topLeft && s.bottomLeft)
    ensures col == GridSize - 1 ==>
      (var s := ShoreAt(grid, row, col); s.Quarters? && s.topRight && s.bottomRight)
  {
    var n := HerbNeighbours(grid, row, col);
    HerbNeighboursAreHerbAt(grid, row, col);
    assert Flag(n, -1, 0) == HerbAt(grid, row - 1, col);
    assert Flag(n, 1, 0) == HerbAt(grid, row + 1, col);
    assert Flag(n, 0, -1) == HerbAt(grid, row, col - 1);
    assert Flag(n, 0, 1) == HerbAt(grid, row, col + 1);
  }
}
