/** The game state object and the handlers and game-loop tick that update
    it in place. */
module Game {
  import opened Wrappers
  import opened Config
  import opened CellKeys
  import opened Cells
  import opened Tools
  import opened Growth
  import opened Camera
  import opened Render
  import opened Goal

  /** Object.keys: the grid's keys, each once, in some order. */
  method ObjectKeys(grid: Grid) returns (order: seq<string>)
    ensures forall id :: id in order <==> id in grid
    ensures |order| == |grid|
  {
    order := [];
    var todo := grid.Keys;
    while todo != {}
      invariant todo <= grid.Keys
      invariant forall id :: id in order <==> id in grid && id !in todo
      invariant |order| + |todo| == |grid|
      decreases |todo|
    {
      var id :| id in todo;
      order := order + [id];
      todo := todo - {id};
    }
  }

  class Garden {
    /** gameState.grid */
    var grid: Grid
    /** gameState.draggedTool: the tool being dragged from the toolbar. */
    var draggedTool: Option<Tool>
    /** gameState.valentineShown: the popup latch. */
    var valentineShown: bool
    var scrollX: int
    var scrollY: int
    var isMapDragging: bool
    var dragStartX: int
    var dragStartY: int
    var dragStartScrollX: int
    var dragStartScrollY: int
    /** gameState.waterFrame: which of eau_1 .. eau_3 is drawn. */
    var waterFrame: int
    /** The game loop's waterAnimationCounter (a local of startGameLoop). */
    var waterAnimationCounter: nat

    ghost predicate Valid()
      reads this`grid, this`scrollX, this`scrollY, this`dragStartScrollX, this`dragStartScrollY
      reads this`waterFrame, this`waterAnimationCounter
    {
      && GridOk(grid)
      && 0 <= scrollX && 0 <= scrollY
      && 0 <= dragStartScrollX && 0 <= dragStartScrollY
      && waterFrame == WaterFrameAt(waterAnimationCounter)
    }

    /** The initial gameState with the game loop not yet ticked. */
    constructor ()
      ensures Valid()
      ensures grid == map[] && draggedTool == None && !valentineShown
      ensures scrollX == 0 && scrollY == 0 && !isMapDragging
      ensures waterFrame == 0 && waterAnimationCounter == 0
    {
      grid := map[];
      draggedTool := None;
      valentineShown := false;
      scrollX, scrollY := 0, 0;
      isMapDragging := false;
      dragStartX, dragStartY := 0, 0;
      dragStartScrollX, dragStartScrollY := 0, 0;
      waterFrame := 0;
      waterAnimationCounter := 0;
    }

    /** A tool's dragstart. */
    method StartToolDrag(tool: Tool)
      modifies this`draggedTool
      ensures draggedTool == Some(tool)
    {
      draggedTool := Some(tool);
    }

    /** A tool's dragend. */
    method EndToolDrag()
      modifies this`draggedTool
      ensures draggedTool == None
    {
      draggedTool := None;
    }

    /** updateTreeCount: counts the trees (the count is what the page
        shows) and opens the popup once the goal is reached, at most once. */
    method UpdateTreeCount() returns (count: nat, fired: bool)
      modifies this`valentineShown
      ensures count == TreeCount(grid)
      ensures fired == Fires(old(valentineShown), count)
      ensures valentineShown == (old(valentineShown) || count >= TreeGoal)
    {
      count := CountTrees(grid);
      fired := false;
      if count >= TreeGoal {
        // showValentinePopup
        if !valentineShown {
          valentineShown := true;
          fired := true;
        }
      }
    }

    /** handleCanvasDrop: (px, py) is the pointer relative to the canvas and
        `now`, `random` the values of Date.now() and Math.random(). The tool
        rule is applied to the cell under the pointer; a seed that was
        planted or a shovel that dug something calls updateTreeCount. */
    method Drop(px: int, py: int, now: int, random: real) returns (fired: bool)
      requires Valid() && 0.0 <= random < 1.0
      modifies this`grid, this`valentineShown
      ensures Valid()
      ensures grid == DropOn(old(grid), old(draggedTool), px + old(scrollX), py + old(scrollY), now, random)
      ensures valentineShown == (old(valentineShown) || fired)
      ensures fired == (DropRecounts(old(grid), old(draggedTool), px + old(scrollX), py + old(scrollY)) &&
                        Fires(old(valentineShown), TreeCount(grid)))
      ensures fired ==> !old(valentineShown) && TreeCount(grid) >= TreeGoal
    {
      fired := false;
      if draggedTool.None? {
        return;
      }
      var target := DropCell(px + scrollX, py + scrollY);
      if target.None? {
        return;
      }
      var row, col := target.value.0, target.value.1;
      var id := Key(row, col);
      var recount := Recounts(grid, draggedTool.value, id);
      ApplyToolKeepsGridOk(grid, draggedTool.value, row, col, now, random);
      grid := ApplyTool(grid, draggedTool.value, id, now, random);
      if recount {
        var _, f := UpdateTreeCount();
        fired := f;
      }
    }

    /** handleCanvasWheel on a canvas of the given size. */
    method Wheel(deltaX: real, deltaY: real, width: int, height: int)
      requires Valid()
      modifies this`scrollX, this`scrollY
      ensures Valid()
      ensures scrollX == WheelScroll(old(scrollX), deltaX, width)
      ensures scrollY == WheelScroll(old(scrollY), deltaY, height)
      ensures 0 <= MaxScroll(width) ==> scrollX <= MaxScroll(width)
      ensures 0 <= MaxScroll(height) ==> scrollY <= MaxScroll(height)
    {
      scrollY := scrollY + WheelStep(deltaY);
      scrollX := scrollX + WheelStep(deltaX);
      scrollX := Clamp(scrollX, MaxScroll(width));
      scrollY := Clamp(scrollY, MaxScroll(height));
    }

    /** handleCanvasMouseDown: a left button press starts a map drag. */
    method MouseDown(button: int, clientX: int, clientY: int)
      requires Valid()
      modifies this`isMapDragging, this`dragStartX, this`dragStartY, this`dragStartScrollX, this`dragStartScrollY
      ensures Valid()
      ensures button != 0 ==> unchanged(this)
      ensures button == 0 ==>
        isMapDragging && dragStartX == clientX && dragStartY == clientY &&
        dragStartScrollX == scrollX && dragStartScrollY == scrollY
    {
      if button != 0 {
        return;
      }
      isMapDragging := true;
      dragStartX, dragStartY := clientX, clientY;
      dragStartScrollX, dragStartScrollY := scrollX, scrollY;
    }

    /** handleCanvasMouseMove on a canvas of the given size. */
    method MouseMove(clientX: int, clientY: int, width: int, height: int)
      requires Valid()
      modifies this`scrollX, this`scrollY
      ensures Valid()
      ensures !isMapDragging ==> unchanged(this)
      ensures isMapDragging ==>
        scrollX == DragScroll(dragStartScrollX, dragStartX, clientX, width) &&
        scrollY == DragScroll(dragStartScrollY, dragStartY, clientY, height)
      ensures isMapDragging && 0 <= MaxScroll(width) ==> scrollX <= MaxScroll(width)
      ensures isMapDragging && 0 <= MaxScroll(height) ==> scrollY <= MaxScroll(height)
    {
      if !isMapDragging {
        return;
      }
      var dx := clientX - dragStartX;
      var dy := clientY - dragStartY;
      scrollX := dragStartScrollX - dx;
      scrollY := dragStartScrollY - dy;
      scrollX := Clamp(scrollX, MaxScroll(width));
      scrollY := Clamp(scrollY, MaxScroll(height));
    }

    /** handleCanvasMouseUp (also bound to mouseleave). */
    method MouseUp()
      modifies this`isMapDragging
      ensures !isMapDragging
    {
      isMapDragging := false;
    }

    /** drawGame, as the list of tiles and sprites it draws. `order` is the
        enumeration order Object.keys gave for the plant pass, and `loaded`
        the images whose loading has completed. */
    method Draw(width: nat, height: nat, loaded: set<string>)
      returns (tiles: seq<TileDraw>, order: seq<string>, sprites: seq<SpriteDraw>)
      requires Valid()
      ensures "grass" !in loaded ==> tiles == []
      ensures "grass" in loaded ==>
        tiles == Tiles(grid, VisibleRange(scrollY, height).0, VisibleRange(scrollY, height).1,
                       VisibleRange(scrollX, width).0, VisibleRange(scrollX, width).1, scrollX, scrollY, waterFrame)
      ensures (forall id :: id in order <==> id in grid) && |order| == |grid|
      ensures sprites == PlantDraws(SortByRow(Entries(grid, order)), scrollX, scrollY, width, height, loaded)
      ensures RowsAscending(sprites)
    {
      tiles := TilePass(grid, scrollX, scrollY, width, height, waterFrame, "grass" in loaded);
      order := ObjectKeys(grid);
      sprites := PlantPass(grid, order, scrollX, scrollY, width, height, loaded);
    }

    /** The water animation step of the tick: the frame moves on every
        tenth tick. */
    method AnimateWater()
      requires waterFrame == WaterFrameAt(waterAnimationCounter)
      modifies this`waterFrame, this`waterAnimationCounter
      ensures waterAnimationCounter == old(waterAnimationCounter) + 1
      ensures waterFrame == NextWaterFrame(waterAnimationCounter, old(waterFrame))
      ensures waterFrame == WaterFrameAt(waterAnimationCounter)
    {
      WaterFrameFollowsCounter(waterAnimationCounter);
      waterAnimationCounter := waterAnimationCounter + 1;
      if waterAnimationCounter % WaterTicksPerFrame == 0 {
        waterFrame := (waterFrame + 1) % WaterFrames;
      }
    }

    /** The growth pass of the tick: every record of the grid replaced, in
        place, by its grown version. */
    method GrowInPlace(now: int)
      modifies this`grid
      ensures grid == GrowGrid(old(grid), now)
    {
      var todo := grid.Keys;
      while todo != {}
        invariant todo <= grid.Keys && grid.Keys == old(grid).Keys
        invariant forall id :: id in grid ==>
          grid[id] == if id in todo then old(grid)[id] else Grow(old(grid)[id], now)
        decreases |todo|
      {
        var id :| id in todo;
        grid := grid[id := Grow(grid[id], now)];
        todo := todo - {id};
      }
    }

    /** The state changes of one tick before drawing: the water animation
        counter and the growth pass. */
    method Advance(now: int)
      requires Valid()
      modifies this`grid, this`waterFrame, this`waterAnimationCounter
      ensures Valid()
      ensures waterAnimationCounter == old(waterAnimationCounter) + 1
      ensures waterFrame == NextWaterFrame(waterAnimationCounter, old(waterFrame))
      ensures grid == GrowGrid(old(grid), now)
      ensures old(TreeCount(grid)) <= TreeCount(grid)
    {
      AnimateWater();
      ghost var before := grid;
      GrowInPlace(now);
      GrowthKeepsTrees(before, now);
    }

    /** One run of the game loop's interval callback at clock time `now`:
        the water animation, the growth pass over every key, the redraw of
        the grown grid (`order` is the key order Object.keys gave drawGame)
        and the tree recount. */
    method Tick(now: int, width: nat, height: nat, loaded: set<string>)
      returns (tiles: seq<TileDraw>, order: seq<string>, sprites: seq<SpriteDraw>, count: nat, fired: bool)
      requires Valid()
      modifies this`grid, this`waterFrame, this`waterAnimationCounter, this`valentineShown
      ensures Valid()
      ensures waterAnimationCounter == old(waterAnimationCounter) + 1
      ensures waterFrame == NextWaterFrame(waterAnimationCounter, old(waterFrame))
      ensures grid == GrowGrid(old(grid), now)
      ensures count == TreeCount(grid) && old(TreeCount(grid)) <= count
      ensures fired == Fires(old(valentineShown), count)
      ensures valentineShown == (old(valentineShown) || count >= TreeGoal)
      ensures "grass" !in loaded ==> tiles == []
      ensures "grass" in loaded ==>
        tiles == Tiles(grid, VisibleRange(scrollY, height).0, VisibleRange(scrollY, height).1,
                       VisibleRange(scrollX, width).0, VisibleRange(scrollX, width).1, scrollX, scrollY, waterFrame)
      ensures (forall id :: id in order <==> id in grid) && |order| == |grid|
      ensures sprites == PlantDraws(SortByRow(Entries(grid, order)), scrollX, scrollY, width, height, loaded)
      ensures RowsAscending(sprites)
    {
      Advance(now);
      ghost var grown, frame, counter := grid, waterFrame, waterAnimationCounter;
      assert Valid();
      tiles, order, sprites := Draw(width, height, loaded);
      count, fired := UpdateTreeCount();
      assert grid == grown && waterFrame == frame && waterAnimationCounter == counter;
    }
  }
}
