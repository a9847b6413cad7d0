/** The bookkeeping of drawGame: which cells the tile pass visits and what
    it draws on each, and which plant sprites the second pass draws, in
    which order, at which size and offset. Pixels themselves are not
    modelled: each draw is an abstract record. */
module Render {
  import opened Wrappers
  import opened Config
  import opened CellKeys
  import opened Cells
  import opened Shoreline

  /** Left (or top) pixel edge of column (or row) i in world coordinates. */
  function TileLeft(i: int): int {
    i * CellSize
  }

  /** Math.ceil(n / CELL_SIZE) for n >= 0. */
  function CeilCells(n: nat): nat {
    (n + CellSize - 1) / CellSize
  }

  /** The indices the tile loop visits on one axis, as (first, limit): it
      starts at floor(scroll / CELL_SIZE) and runs while the index is below
      first + ceil(viewport / CELL_SIZE) + 1 and below GRID_SIZE. */
  function VisibleRange(scroll: nat, viewport: nat): (r: (nat, int))
    ensures r.1 <= GridSize
  {
    var first := scroll / CellSize;
    var end := first + CeilCells(viewport) + 1;
    (first, if end < GridSize then end else GridSize)
  }

  /** The range is exact up to one tile of overscan: an in-grid index is
      visited when its tile overlaps the viewport, and only tiles that
      overlap the viewport extended by one tile are visited. */
  lemma VisibleRangeIsTight(scroll: nat, viewport: nat, i: int)
    requires 0 <= i < GridSize
    ensures TileLeft(i) < scroll + viewport && scroll < TileLeft(i) + CellSize ==>
      VisibleRange(scroll, viewport).0 <= i < VisibleRange(scroll, viewport).1
    ensures VisibleRange(scroll, viewport).0 <= i < VisibleRange(scroll, viewport).1 ==>
      TileLeft(i) < scroll + viewport + CellSize && scroll < TileLeft(i) + CellSize
  {
    var first := scroll / CellSize;
    var k := CeilCells(viewport);
    assert first * CellSize <= scroll < first * CellSize + CellSize;
    assert viewport <= k * CellSize < viewport + CellSize;
    if TileLeft(i) < scroll + viewport && scroll < TileLeft(i) + CellSize {
      assert first * CellSize < i * CellSize + CellSize;
      assert first < i + 1;
      assert i * CellSize < (first + 1 + k) * CellSize;
      assert i < first + 1 + k;
    }
    if first <= i < first + k + 1 {
      assert i * CellSize <= (first + k) * CellSize;
      assert first * CellSize <= i * CellSize;
    }
  }

  /** What the tile pass draws on a cell besides grass. */
  datatype Overlay = GrassOnly | WaterTile(shore: Shore, waterFrame: int)

  /** One visited cell: its coordinates, its screen position and overlay. */
  datatype TileDraw = TileDraw(row: int, col: int, x: int, y: int, overlay: Overlay)

  function TileAt(grid: Grid, row: nat, col: nat, scrollX: int, scrollY: int, waterFrame: int): (t: TileDraw)
    ensures t.row == row && t.col == col
    // the cell's world corner, shifted by the camera
    ensures t.x + scrollX == col * CellSize && t.y + scrollY == row * CellSize
    // a water overlay exactly on water cells, with their shoreline and the current frame
    ensures t.overlay.WaterTile? <==> IsWaterAt(grid, row, col)
    ensures t.overlay.WaterTile? ==> t.overlay == WaterTile(ShoreAt(grid, row, col), waterFrame)
  {
    var overlay := if IsWaterAt(grid, row, col) then WaterTile(ShoreAt(grid, row, col), waterFrame) else GrassOnly;
    TileDraw(row, col, TileLeft(col) - scrollX, TileLeft(row) - scrollY, overlay)
  }

  /** The tiles of row `row`, columns c0 .. c1-1, left to right. */
  function RowTiles(grid: Grid, row: nat, c0: nat, c1: int, scrollX: int, scrollY: int, waterFrame: int): seq<TileDraw>
    decreases c1 - c0
  {
    if c1 <= c0 then []
    else RowTiles(grid, row, c0, c1 - 1, scrollX, scrollY, waterFrame) + [TileAt(grid, row, c1 - 1, scrollX, scrollY, waterFrame)]
  }

  /** The tiles of rows r0 .. r1-1, top to bottom, each row left to right. */
  function Tiles(grid: Grid, r0: nat, r1: int, c0: nat, c1: int, scrollX: int, scrollY: int, waterFrame: int): seq<TileDraw>
    decreases r1 - r0
  {
    if r1 <= r0 then []
    else Tiles(grid, r0, r1 - 1, c0, c1, scrollX, scrollY, waterFrame) + RowTiles(grid, r1 - 1, c0, c1, scrollX, scrollY, waterFrame)
  }

  /** The inner tile loop of drawGame over one row. */
  method RowPass(grid: Grid, row: nat, startCol: nat, endCol: int, scrollX: int, scrollY: int, waterFrame: int)
    returns (tiles: seq<TileDraw>)
    ensures tiles == RowTiles(grid, row, startCol, if endCol < GridSize then endCol else GridSize, scrollX, scrollY, waterFrame)
  {
    ghost var limit := if endCol < GridSize then endCol else GridSize;
    tiles := [];
    var col := startCol;
    while col < endCol && col < GridSize
      invariant col == startCol || startCol < col <= limit
      invariant tiles == RowTiles(grid, row, startCol, col, scrollX, scrollY, waterFrame)
    {
      tiles := tiles + [TileAt(grid, row, col, scrollX, scrollY, waterFrame)];
      col := col + 1;
    }
  }

  /** The tile loops of drawGame; nothing is drawn until the grass image has
      loaded. */
  method TilePass(grid: Grid, scrollX: nat, scrollY: nat, width: nat, height: nat, waterFrame: int, grassReady: bool)
    returns (tiles: seq<TileDraw>)
    ensures !grassReady ==> tiles == []
    ensures grassReady ==>
      tiles == Tiles(grid, VisibleRange(scrollY, height).0, VisibleRange(scrollY, height).1,
                     VisibleRange(scrollX, width).0, VisibleRange(scrollX, width).1, scrollX, scrollY, waterFrame)
  {
    tiles := [];
    if !grassReady {
      return;
    }
    var startCol := scrollX / CellSize;
    var startRow := scrollY / CellSize;
    var endCol := startCol + CeilCells(width) + 1;
    var endRow := startRow + CeilCells(height) + 1;
    ghost var r1 := VisibleRange(scrollY, height).1;
    ghost var c1 := VisibleRange(scrollX, width).1;
    assert c1 == if endCol < GridSize then endCol else GridSize;
    var row := startRow;
    while row < endRow && row < GridSize
      invariant row == startRow || startRow < row <= r1
      invariant tiles == Tiles(grid, startRow, row, startCol, c1, scrollX, scrollY, waterFrame)
    {
      var rowTiles := RowPass(grid, row, startCol, endCol, scrollX, scrollY, waterFrame);
      tiles := tiles + rowTiles;
      row := row + 1;
    }
  }

  /** Every column of the range gets its tile in the row. */
  lemma {:induction false} RowTileDrawn(grid: Grid, row: nat, c0: nat, c1: int, scrollX: int, scrollY: int, waterFrame: int, col: nat)
    requires c0 <= col < c1
    ensures TileAt(grid, row, col, scrollX, scrollY, waterFrame) in RowTiles(grid, row, c0, c1, scrollX, scrollY, waterFrame)
    decreases c1 - c0
  {
    if col < c1 - 1 {
      RowTileDrawn(grid, row, c0, c1 - 1, scrollX, scrollY, waterFrame, col);
    }
  }

  /** A row's tiles lie on that row, within the column range. */
  lemma {:induction false} RowTilesInRange(grid: Grid, row: nat, c0: nat, c1: int, scrollX: int, scrollY: int, waterFrame: int, t: TileDraw)
    requires t in RowTiles(grid, row, c0, c1, scrollX, scrollY, waterFrame)
    ensures t.row == row && c0 <= t.col < c1
    decreases c1 - c0
  {
    if t != TileAt(grid, row, c1 - 1, scrollX, scrollY, waterFrame) {
      RowTilesInRange(grid, row, c0, c1 - 1, scrollX, scrollY, waterFrame, t);
    }
  }

  /** Every cell of the rectangle gets its tile. */
  lemma {:induction false} TileDrawn(grid: Grid, r0: nat, r1: int, c0: nat, c1: int, scrollX: int, scrollY: int, waterFrame: int, row: nat, col: nat)
    requires r0 <= row < r1 && c0 <= col < c1
    ensures TileAt(grid, row, col, scrollX, scrollY, waterFrame) in Tiles(grid, r0, r1, c0, c1, scrollX, scrollY, waterFrame)
    decreases r1 - r0
  {
    if row < r1 - 1 {
      TileDrawn(grid, r0, r1 - 1, c0, c1, scrollX, scrollY, waterFrame, row, col);
    } else {
      RowTileDrawn(grid, row, c0, c1, scrollX, scrollY, waterFrame, col);
    }
  }

  /** The tile pass draws nothing outside the rectangle. */
  lemma {:induction false} TilesInRect(grid: Grid, r0: nat, r1: int, c0: nat, c1: int, scrollX: int, scrollY: int, waterFrame: int, t: TileDraw)
    requires t in Tiles(grid, r0, r1, c0, c1, scrollX, scrollY, waterFrame)
    ensures r0 <= t.row < r1 && c0 <= t.col < c1
    decreases r1 - r0
  {
    if t in Tiles(grid, r0, r1 - 1, c0, c1, scrollX, scrollY, waterFrame) {
      TilesInRect(grid, r0, r1 - 1, c0, c1, scrollX, scrollY, waterFrame, t);
    } else {
      RowTilesInRange(grid, r1 - 1, c0, c1, scrollX, scrollY, waterFrame, t);
    }
  }

  /** Viewport culling never hides a cell: every in-grid cell whose tile
      overlaps the canvas is drawn, water cells with their shoreline. */
  lemma VisibleCellIsDrawn(grid: Grid, scrollX: nat, scrollY: nat, width: nat, height: nat, waterFrame: int, row: nat, col: nat)
    requires InGrid(row, col)
    requires TileLeft(col) < scrollX + width && scrollX < TileLeft(col) + CellSize
    requires TileLeft(row) < scrollY + height && scrollY < TileLeft(row) + CellSize
    ensures TileAt(grid, row, col, scrollX, scrollY, waterFrame) in
      Tiles(grid, VisibleRange(scrollY, height).0, VisibleRange(scrollY, height).1,
            VisibleRange(scrollX, width).0, VisibleRange(scrollX, width).1, scrollX, scrollY, waterFrame)
  {
    VisibleRangeIsTight(scrollY, height, row);
    VisibleRangeIsTight(scrollX, width, col);
    TileDrawn(grid, VisibleRange(scrollY, height).0, VisibleRange(scrollY, height).1,
              VisibleRange(scrollX, width).0, VisibleRange(scrollX, width).1, scrollX, scrollY, waterFrame, row, col);
  }

  // ---------------------------------------------------------------- sprites

  /** The image names loadAssets requests. */
  const Assets: set<string> := {
    "grass", "seeds", "shovel", "bucket",
    "eau_1", "eau_2", "eau_3", "sand",
    "sprout_1", "sprout_2", "sprout_3",
    "tree_1", "tree_2", "tree_3" }

  /** How a template literal prints an integer. */
  function IntText(i: int): string {
    if i >= 0 then DecimalString(i) else "-" + DecimalString(-i)
  }

  lemma StageTexts()
    ensures "sprout_" + IntText(1) == "sprout_1" && "tree_" + IntText(1) == "tree_1"
    ensures "sprout_" + IntText(2) == "sprout_2" && "tree_" + IntText(2) == "tree_2"
    ensures "sprout_" + IntText(3) == "sprout_3" && "tree_" + IntText(3) == "tree_3"
  {
    assert DecimalString(1) == "1" && DecimalString(2) == "2" && DecimalString(3) == "3";
  }

  /** A plant sprite: image name, square size, and offset from the cell's
      top-left corner. */
  datatype Sprite = Sprite(image: string, size: int, dx: int, dy: int)

  /** The sprite drawn for a record; water records have none (the image
      name stays undefined and nothing is drawn). */
  function SpriteFor(c: Cell): (s: Option<Sprite>)
    ensures s.None? <==> c.Water?
    ensures s.Some? ==> s.value.size == CellSize + Rank(c.kind) * (CellSize / 2)
    // centred horizontally
    ensures s.Some? ==> 2 * s.value.dx + s.value.size == CellSize
    // seeds and sprouts centred vertically, trees standing on the cell's bottom edge
    ensures s.Some? && c.kind != Tree ==> 2 * s.value.dy + s.value.size == CellSize
    ensures s.Some? && c.kind == Tree ==> s.value.dy + s.value.size == CellSize
    // every image asked for is one that was loaded, when the stage is a frame
    ensures s.Some? && CellOk(c) ==> s.value.image in Assets
    // the image follows the kind and, for sprouts and trees, the frame
    ensures s.Some? && c.kind == Seed ==> s.value.image == "seeds"
    ensures s.Some? && c.kind == Sprout && 1 <= c.stage <= 3 ==>
              s.value.image == ["sprout_1", "sprout_2", "sprout_3"][c.stage - 1]
    ensures s.Some? && c.kind == Tree && 1 <= c.stage <= 3 ==>
              s.value.image == ["tree_1", "tree_2", "tree_3"][c.stage - 1]
  {
    match c
    case Water => None
    case Plant(kind, stage, _, _) =>
      var (image, size) :=
        match kind
        case Seed => ("seeds", 64)
        case Sprout => ("sprout_" + IntText(stage), 96)
        case Tree => ("tree_" + IntText(stage), 128);
      var dx := (CellSize - size) / 2;
      var dy := (CellSize - size) / 2 - (if kind == Tree then 32 else 0);
      StageTexts();
      Some(Sprite(image, size, dx, dy))
  }

  // ------------------------------------------------------ depth-sorted pass

  /** One element of plantsToRender: the key, its record and the
      coordinates parsed back from the key. */
  datatype PlantEntry = PlantEntry(id: string, cell: Cell, row: int, col: int)

  /** One element of plantsToRender, for a key the game wrote. */
  function EntryOf(grid: Grid, id: string): (e: PlantEntry)
    requires id in grid && WellFormedKey(id)
    ensures e.id == id && e.cell == grid[id] && InGrid(e.row, e.col) && id == Key(e.row, e.col)
  {
    WellFormedKeyParses(id);
    var parsed := ParseKey(id);
    PlantEntry(id, grid[id], parsed.0.value, parsed.1.value)
  }

  /** plantsToRender before sorting, for keys listed in `order`. */
  function Entries(grid: Grid, order: seq<string>): (es: seq<PlantEntry>)
    requires forall id :: id in order ==> id in grid && WellFormedKey(id)
    ensures |es| == |order|
  {
    if order == [] then []
    else
      assert order[0] in order;
      [EntryOf(grid, order[0])] + Entries(grid, order[1..])
  }

  /** The map step builds, at each position, the entry of the key listed
      there. */
  lemma {:induction false} EntriesFollowOrder(grid: Grid, order: seq<string>, i: nat)
    requires forall id :: id in order ==> id in grid && WellFormedKey(id)
    requires i < |order|
    ensures order[i] in grid && WellFormedKey(order[i])
    ensures Entries(grid, order)[i] == EntryOf(grid, order[i])
  {
    assert order[i] in order;
    assert order[0] in order;
    var tail := order[1..];
    assert forall id :: id in tail ==> id in order;
    assert Entries(grid, order) == [EntryOf(grid, order[0])] + Entries(grid, tail);
    if i > 0 {
      assert order[i] == tail[i - 1];
      EntriesFollowOrder(grid, tail, i - 1);
    }
  }

  predicate SortedByRow(es: seq<PlantEntry>) {
    forall i, j :: 0 <= i < j < |es| ==> es[i].row <= es[j].row
  }

  /** Inserts e after every entry whose row is not greater than its own. */
  function Insert(e: PlantEntry, es: seq<PlantEntry>): (r: seq<PlantEntry>)
    requires SortedByRow(es)
    ensures SortedByRow(r)
    ensures multiset(r) == multiset(es) + multiset{e}
    ensures |r| == |es| + 1 && (r[0] == e || (es != [] && r[0] == es[0]))
  {
    if es == [] then [e]
    else if e.row < es[0].row then [e] + es
    else
      var rest := Insert(e, es[1..]);
      assert es == [es[0]] + es[1..];
      ConsKeepsSorted(es[0], rest);
      [es[0]] + rest
  }

  lemma ConsKeepsSorted(x: PlantEntry, es: seq<PlantEntry>)
    requires SortedByRow(es)
    requires es != [] ==> x.row <= es[0].row
    ensures SortedByRow([x] + es)
  {
    var r := [x] + es;
    forall i, j | 0 <= i < j < |r|
      ensures r[i].row <= r[j].row
    {
      if i == 0 {
        assert r[j] == es[j - 1];
        assert es[0].row <= es[j - 1].row;
      } else {
        assert r[i] == es[i - 1] && r[j] == es[j - 1];
      }
    }
  }

  /** The sort of plantsToRender by ascending row (a stable sort, as
      Array.prototype.sort is). */
  function SortByRow(es: seq<PlantEntry>): (r: seq<PlantEntry>)
    ensures SortedByRow(r)
    ensures multiset(r) == multiset(es)
  {
    if es == [] then []
    else
      assert es == es[..|es| - 1] + [es[|es| - 1]];
      Insert(es[|es| - 1], SortByRow(es[..|es| - 1]))
  }

  /** An abstract drawImage of a plant sprite for the cell at (row, col). */
  datatype SpriteDraw = SpriteDraw(row: int, col: int, image: string, x: int, y: int, size: int)

  /** The sprite drawn for one entry, if any: none when the cell is off
      screen, when the record has no sprite, or when its image is not loaded. */
  function DrawEntry(e: PlantEntry, scrollX: int, scrollY: int, width: int, height: int, loaded: set<string>): (d: Option<SpriteDraw>)
    ensures d.Some? ==> d.value.row == e.row && d.value.col == e.col && d.value.image in loaded
    // skipped off screen, drawn whenever on screen with a sprite whose image has loaded
    ensures d.Some? <==>
      -CellSize <= e.col * CellSize - scrollX <= width && -CellSize <= e.row * CellSize - scrollY <= height &&
      SpriteFor(e.cell).Some? && SpriteFor(e.cell).value.image in loaded
    // drawn at the sprite's size and offset from the cell's screen corner
    ensures d.Some? ==>
      var s := SpriteFor(e.cell).value;
      d.value.image == s.image && d.value.size == s.size &&
      d.value.x == e.col * CellSize - scrollX + s.dx && d.value.y == e.row * CellSize - scrollY + s.dy
  {
    var x := e.col * CellSize - scrollX;
    var y := e.row * CellSize - scrollY;
    if x < -CellSize || x > width || y < -CellSize || y > height then None
    else match SpriteFor(e.cell)
      case None => None
      case Some(s) =>
        if s.image in loaded then Some(SpriteDraw(e.row, e.col, s.image, x + s.dx, y + s.dy, s.size))
        else None
  }

  /** The sprites drawn for `es`, in order. */
  function PlantDraws(es: seq<PlantEntry>, scrollX: int, scrollY: int, width: int, height: int, loaded: set<string>): (ds: seq<SpriteDraw>)
    // at most one sprite per entry
    ensures |ds| <= |es|
  {
    if es == [] then []
    else
      var prefix := PlantDraws(es[..|es| - 1], scrollX, scrollY, width, height, loaded);
      match DrawEntry(es[|es| - 1], scrollX, scrollY, width, height, loaded)
      case None => prefix
      case Some(d) => prefix + [d]
  }

  /** Every sprite drawn comes from an entry, so lies on a row bounded by
      the entries' rows. */
  lemma {:induction false} PlantDrawsRowsBounded(es: seq<PlantEntry>, scrollX: int, scrollY: int, width: int, height: int, loaded: set<string>, bound: int)
    requires forall i :: 0 <= i < |es| ==> es[i].row <= bound
    ensures forall d :: d in PlantDraws(es, scrollX, scrollY, width, height, loaded) ==> d.row <= bound
  {
    if es != [] {
      PlantDrawsRowsBounded(es[..|es| - 1], scrollX, scrollY, width, height, loaded, bound);
    }
  }

  /** Every sprite drawn comes from one of the entries, at its row and column. */
  lemma {:induction false} PlantDrawsComeFromEntries(es: seq<PlantEntry>, scrollX: int, scrollY: int, width: int, height: int, loaded: set<string>)
    ensures forall d :: d in PlantDraws(es, scrollX, scrollY, width, height, loaded) ==>
      exists i :: 0 <= i < |es| && d.row == es[i].row && d.col == es[i].col
  {
    if es != [] {
      var init := es[..|es| - 1];
      PlantDrawsComeFromEntries(init, scrollX, scrollY, width, height, loaded);
      forall d | d in PlantDraws(es, scrollX, scrollY, width, height, loaded)
        ensures exists i :: 0 <= i < |es| && d.row == es[i].row && d.col == es[i].col
      {
        if d in PlantDraws(init, scrollX, scrollY, width, height, loaded) {
          var i :| 0 <= i < |init| && d.row == init[i].row && d.col == init[i].col;
          assert es[i] == init[i];
        } else {
          assert d.row == es[|es| - 1].row && d.col == es[|es| - 1].col;
        }
      }
    }
  }

  predicate RowsAscending(ds: seq<SpriteDraw>) {
    forall i, j :: 0 <= i < j < |ds| ==> ds[i].row <= ds[j].row
  }

  /** Sprites come out in non-decreasing row order when the entries do. */
  lemma {:induction false} PlantDrawsInRowOrder(es: seq<PlantEntry>, scrollX: int, scrollY: int, width: int, height: int, loaded: set<string>)
    requires SortedByRow(es)
    ensures RowsAscending(PlantDraws(es, scrollX, scrollY, width, height, loaded))
  {
    if es != [] {
      var init := es[..|es| - 1];
      var last := es[|es| - 1];
      PlantDrawsInRowOrder(init, scrollX, scrollY, width, height, loaded);
      PlantDrawsRowsBounded(init, scrollX, scrollY, width, height, loaded, last.row);
      var prefix := PlantDraws(init, scrollX, scrollY, width, height, loaded);
      var d := DrawEntry(last, scrollX, scrollY, width, height, loaded);
      if d.Some? {
        var ds := prefix + [d.value];
        assert ds == PlantDraws(es, scrollX, scrollY, width, height, loaded);
        forall i, j | 0 <= i < j < |ds|
          ensures ds[i].row <= ds[j].row
        {
          assert ds[i] == prefix[i] && prefix[i] in prefix;
          if j < |prefix| {
            assert ds[j] == prefix[j];
          }
        }
      } else {
        assert PlantDraws(es, scrollX, scrollY, width, height, loaded) == prefix;
      }
    }
  }

  /** The forEach over the sorted entries. */
  method DrawSorted(sorted: seq<PlantEntry>, scrollX: int, scrollY: int, width: int, height: int, loaded: set<string>)
    returns (draws: seq<SpriteDraw>)
    ensures draws == PlantDraws(sorted, scrollX, scrollY, width, height, loaded)
  {
    draws := [];
    var i := 0;
    while i < |sorted|
      invariant 0 <= i <= |sorted|
      invariant draws == PlantDraws(sorted[..i], scrollX, scrollY, width, height, loaded)
    {
      assert sorted[..i + 1][..i] == sorted[..i];
      var d := DrawEntry(sorted[i], scrollX, scrollY, width, height, loaded);
      if d.Some? {
        draws := draws + [d.value];
      }
      i := i + 1;
    }
    assert sorted[..|sorted|] == sorted;
  }

  /** The plant pass of drawGame: parse the keys (listed in `order`, the
      enumeration order of Object.keys), sort by row, draw each visible
      sprite whose image has loaded. */
  method PlantPass(grid: Grid, order: seq<string>, scrollX: int, scrollY: int, width: int, height: int, loaded: set<string>)
    returns (draws: seq<SpriteDraw>)
    requires forall id :: id in order ==> id in grid && WellFormedKey(id)
    ensures draws == PlantDraws(SortByRow(Entries(grid, order)), scrollX, scrollY, width, height, loaded)
    ensures RowsAscending(draws)
  {
    var sorted := SortByRow(Entries(grid, order));
    draws := DrawSorted(sorted, scrollX, scrollY, width, height, loaded);
    PlantDrawsInRowOrder(sorted, scrollX, scrollY, width, height, loaded);
  }
}
