# Valentine Garden: a model of the grid engine

This project models the core of the Valentine Garden canvas game (`script.js`). The game has a 100 x 100 grid of 64-pixel cells. The player drags a seed, a shovel or a water bucket onto it. Planted seeds grow into sprouts and then trees on a 50 ms game loop. A scrollable camera shows part of the grid. Once 14 trees stand, a one-shot Valentine popup opens.

The model covers:

- **Cell store and tool rules** (`cells.dfy`, `cell_keys.dfy`, `tools.dfy`). The grid is a dictionary from the string key `"row-col"` to a record: `{type: 'water'}` or a plant `{type, stage, plantedAt, growthDuration}`. A missing key is bare grass. `handleCanvasDrop` applies the dragged tool to the cell under the pointer.
- **Growth tick** (`growth.dfy`). Each tick a plant can move one step along seed, sprout, tree, and gets the animation frame (`stage` 1..3) for its age. The water animation frame moves on every tenth tick.
- **Camera** (`camera.dfy`). The wheel and map-drag handlers, with every offset clamped to `[0, GRID_SIZE*CELL_SIZE - viewport]`.
- **Shoreline** (`shoreline.dfy`). A water cell is drawn whole, or as four quarters (sand, or sand under water), from its eight neighbours. An off-grid neighbour counts as grass.
- **Render bookkeeping** (`render.dfy`). This covers:
  - the range of cells the tile loops visit;
  - the tiles drawn, as abstract records;
  - the plant pass: keys parsed back into coordinates, a sort by row, and each sprite's image, size and offset.
- **Goal** (`goal.dfy`). `updateTreeCount` and the `valentineShown` latch of `showValentinePopup`.
- **Game state** (`garden.dfy`). The `gameState` object is a class whose handlers and loop tick update its fields in place. The tick's `waterAnimationCounter` is held as a field.

`Date.now()` and `Math.random()` become the parameters `now` (an integer) and `random` (a real in `[0, 1)`). The canvas size, pointer coordinates and the set of loaded images are parameters too. The enumeration order of `Object.keys` is whatever `Game.ObjectKeys` returns: any order that lists each key once.

Behaviour of script.js worth knowing when reading the model:

- A seed becomes a sprout once 5000 ms have passed since planting (`SEED_DURATION`). A sprout becomes a tree once the total time since planting reaches its own `growthDuration`, drawn from 10000 to 20000 ms at planting. `SPROUT_DURATION` is declared but never read.
- A plant moves at most one step per tick, so even a very old seed needs two ticks to become a tree (`Growth.TwoLateTicksMakeATree`).
- The bucket toggles: it removes water, and it turns anything else, plants included, into water. Dropping a seed on water does nothing.
- Tools are applied by drag and drop only. A left mouse press on the canvas always starts a map drag.
- script.js has no camera inertia, no minimap and no terrain generator.

## Model

| member | source | states |
|---|---|---|
| CellKeys.DecimalString | script.js:184 | the template literal prints a non-negative row or column as non-empty decimal digits with no leading zero |
| CellKeys.Key | script.js:184 | a cell's key is at least a digit, the '-' and a digit; `KeyRoundTrip` reads it back and `KeyInjective` keeps keys distinct |
| CellKeys.LeadingDigits | script.js:446-447 | the digits parseInt reads form a prefix of its input and are all digits |
| CellKeys.ParseInt | script.js:446-447 | parseInt of the empty string is NaN, a string starting with a digit reads as a non-negative number, and only a leading '-' gives a negative one; `ParseDecimal` reads back every printed number |
| CellKeys.Split | script.js:446-447 | split('-') always returns at least one piece |
| CellKeys.ParseKey | script.js:446-447 | a key without '-' has no column (NaN) and the empty key has no row; `KeyRoundTrip` reads back every key the game writes |
| CellKeys.DigitsOfDecimal | script.js:184 | the value of the printed digits is the printed number |
| CellKeys.ParseDecimal | script.js:446-447 | parseInt reads back exactly the number the template literal printed |
| CellKeys.SplitWithoutSeparator | script.js:446-447 | a string with no '-' splits into itself alone |
| CellKeys.SplitAtFirstSeparator | script.js:446-447 | split('-') cuts at the first '-' and splits the rest the same way |
| CellKeys.KeyRoundTrip | script.js:184 | parseInt of the two pieces of `${row}-${col}` gives back row and col |
| CellKeys.KeyInjective | script.js:184 | two different cells never share a key |
| Cells.WellFormedKeyParses | script.js:446-447 | a key the game wrote, `${row}-${col}` for an in-grid cell, is read back by split and parseInt as that very cell |
| Tools.GrowthDurationFor | script.js:189 | a fresh growth duration lies in [10000, 20000) ms |
| Tools.DropCell | script.js:172-182 | the drop hits a cell exactly when the world pixel lies inside the grid, and that cell's square contains the pixel |
| Tools.ApplyTool | script.js:186-215 | no other key changes; seed plants a fresh stage-1 seed timed `now` only on an empty cell; shovel empties the cell; bucket removes water and turns anything else into water |
| Tools.Recounts | script.js:186-204 | only a seed planted on an empty cell or a shovel that empties a cell calls updateTreeCount; the bucket never does |
| Tools.BucketTwice | script.js:205-215 | two bucket drops on grass or water leave the grid as it was |
| Tools.ApplyToolKeepsGridOk | script.js:184-215 | a drop keeps every key well formed and every record's stage and duration in range |
| Tools.DropOn | script.js:166-184 | a drop with no dragged tool or outside the grid changes nothing, and a drop keeps the grid well formed |
| Growth.JsRem | script.js:302 | JavaScript's `%` leaves a remainder strictly between -7000 and 7000 |
| Growth.Frame | script.js:301-308 | the frame is 1..3, follows 1,2,2,1,3,3,3 second by second over the 7-second cycle, and is 1 for a negative age |
| Growth.Grow | script.js:286-310 | water is unchanged; a plant keeps its planting data and gets the frame for its age; a seed becomes a sprout iff 5000 ms have passed; a sprout becomes a tree iff its growth duration has passed; at most one step forward, trees stay trees, records stay well formed |
| Growth.GrowGrid | script.js:285-311 | the growth pass keeps the key set and keeps the grid well formed |
| Growth.GrowthIsMonotone | script.js:285-311 | over any run of ticks a plant keeps its planting data, never moves back, advances at most one step per tick, and a tree stays a tree |
| Growth.TwoLateTicksMakeATree | script.js:292-298 | two ticks after the growth duration has elapsed always leave a tree |
| Growth.WaterFrameAt | script.js:279-282 | the water frame selects one of eau_1 .. eau_3 |
| Growth.NextWaterFrame | script.js:279-282 | the interval's water step keeps the frame in 0..2; `WaterFrameFollowsCounter` shows it changes exactly on every tenth tick |
| Growth.WaterFrameFollowsCounter | script.js:279-282 | the frame equals (counter / 10) mod 3 after each tick, and changes exactly when the counter reaches a multiple of 10 |
| Camera.Clamp | script.js:228-229 | Math.max(0, Math.min(v, hi)) stays in [0, hi], keeps an in-range value, gives the point of the range nearest to v, and gives 0 when the viewport is wider than the world |
| Camera.WheelStep | script.js:221-223 | a wheel event moves 20 pixels on each axis, forward iff the delta is positive |
| Camera.WheelScroll | script.js:221-229 | the wheel offset stays within bounds and is exactly 20 pixels further when that stays in bounds |
| Camera.DragScroll | script.js:253-264 | the drag offset stays within bounds and is the start offset minus the pointer travel when that stays in bounds |
| Camera.DragBackRestores | script.js:253-264 | moving the pointer back to where the drag started restores the starting offset |
| Camera.WheelThereAndBack | script.js:221-229 | opposite wheel events cancel away from the bounds |
| Shoreline.HerbNeighbours | script.js:362-382 | beyond each edge of the grid the neighbours count as grass; `NeighbourFlags` ties every flag to the in-grid water reading |
| Shoreline.NeighbourFlags | script.js:362-382 | each of the eight neighbour flags, computed with the source's edge tests, says whether that position is not an in-grid water cell |
| Shoreline.HerbNeighboursAreHerbAt | script.js:362-382 | the same, for every offset at once, through the flag selector the quarter rule uses |
| Shoreline.Classify | script.js:384-429 | the tile is whole iff no neighbour is grass; each quarter is sand iff its row neighbour, column neighbour or diagonal is grass; a split tile shows some sand |
| Shoreline.SurroundedWaterIsFull | script.js:384-392 | water surrounded by water is drawn whole |
| Shoreline.EdgeWaterIsSplit | script.js:362-372 | water on a grid edge is split, with sand on the quarters facing the edge |
| Render.VisibleRange | script.js:339-345 | the tile loop never goes past the grid |
| Render.VisibleRangeIsTight | script.js:339-345 | every cell overlapping the viewport is visited, and only cells within one tile of it are |
| Render.TileAt | script.js:346-431 | a visited cell is drawn at its world corner shifted by the camera, with a water overlay exactly when it is a water cell, carrying its shoreline and the current water frame |
| Render.RowPass | script.js:345-348 | the inner loop lists the row's tiles from startCol up to endCol or the grid edge |
| Render.TilePass | script.js:334-435 | with grass not loaded nothing is drawn; otherwise the tiles are exactly those of the visible rectangle, row by row |
| Render.RowTileDrawn | script.js:345-348 | every column of the range gets its tile in the row |
| Render.RowTilesInRange | script.js:345-348 | a row's tiles lie on that row, within the column range |
| Render.TileDrawn | script.js:344-348 | every cell of the visited rectangle gets its tile |
| Render.TilesInRect | script.js:344-348 | the tile pass draws nothing outside the visited rectangle |
| Render.VisibleCellIsDrawn | script.js:338-354 | every in-grid cell overlapping the canvas gets its tile, with its water overlay and shoreline |
| Render.SpriteFor | script.js:461-480 | water has no sprite; a seed is drawn with `seeds`, a sprout at frame 1..3 with `sprout_1`..`sprout_3` and a tree with `tree_1`..`tree_3`; sizes are 64, 96, 128; sprites are centred horizontally; seeds and sprouts are centred vertically; trees stand on the cell's bottom edge; every image named is one loadAssets requests |
| Render.EntryOf | script.js:443-448 | each entry carries its key and record, and the in-grid coordinates the key was made from |
| Render.Entries | script.js:442-448 | plantsToRender has one entry per listed key |
| Render.EntriesFollowOrder | script.js:442-448 | the entry at each position carries the key listed there, its record, and the coordinates parsed from the key |
| Render.Insert | script.js:449 | inserting into a row-sorted list keeps it sorted and adds exactly the new entry |
| Render.SortByRow | script.js:449 | the sort yields the same entries in ascending row order |
| Render.DrawEntry | script.js:451-480 | an entry is drawn iff its cell is on screen, its record has a sprite and that image has loaded; the draw keeps the row and column and uses the sprite's image, size and offset from the cell's screen corner |
| Render.PlantDraws | script.js:451-481 | the forEach draws at most one sprite per entry, in the entries' order; `PlantDrawsComeFromEntries` and `PlantDrawsInRowOrder` say which and in what order |
| Render.PlantDrawsRowsBounded | script.js:451-480 | a bound on every entry's row also bounds the row of every sprite drawn |
| Render.PlantDrawsComeFromEntries | script.js:451-480 | every sprite drawn is at the row and column of one of the entries |
| Render.PlantDrawsInRowOrder | script.js:449-480 | sprites are drawn in ascending row order, so lower rows paint over higher ones |
| Render.DrawSorted | script.js:451-481 | the forEach draws, in order, each on-screen entry whose image has loaded |
| Render.PlantPass | script.js:442-481 | the plant pass draws the sorted entries' sprites, in ascending row order |
| Goal.TreeKeys | script.js:489-494 | the counted keys are keys of the grid |
| Goal.CountTrees | script.js:486-494 | the loop counts exactly the tree records, never more than the grid holds |
| Goal.GrowthKeepsTrees | script.js:285-311 | the growth pass keeps every tree, so the tree count never drops on a tick |
| Goal.PopupOpensAtMostOnce | script.js:501-510 | over any sequence of counts the popup opens at most once: exactly once if the latch was down and some count reached 14; the latch stays up afterwards |
| Game.ObjectKeys | script.js:489 | Object.keys lists exactly the grid's keys, each once |
| Game.Garden.constructor | script.js:18-32 | the initial state: empty grid, no tool, latch down, scroll 0, not dragging, water frame 0 |
| Game.Garden.StartToolDrag | script.js:146-148 | dragstart records the tool |
| Game.Garden.EndToolDrag | script.js:151-153 | dragend clears the tool |
| Game.Garden.UpdateTreeCount | script.js:486-510 | returns the tree count and raises the latch when it reaches 14, firing only if the latch was down |
| Game.Garden.Drop | script.js:166-216 | the new grid is the tool rule applied at the cell under the pointer plus scroll; the grid stays well formed; the drop fires the popup exactly when a tool is dragged, the cell is in the grid, the tool plants or digs something, and the new count reaches 14 with the latch down; the latch is raised exactly when it fires |
| Game.Garden.Wheel | script.js:218-231 | both offsets move by the wheel step and are clamped to the viewport's bounds |
| Game.Garden.MouseDown | script.js:238-248 | a left press starts a drag, recording the pointer and the scroll offsets; other buttons change nothing |
| Game.Garden.MouseMove | script.js:250-265 | while dragging, the offsets follow the pointer, clamped; otherwise nothing changes |
| Game.Garden.MouseUp | script.js:267-270 | releasing or leaving ends the drag |
| Game.Garden.Draw | script.js:327-482 | drawGame draws the tiles of the visible rectangle (none before grass loads), then the sprites of the entries for each key listed once, sorted by row, in ascending row order |
| Game.Garden.AnimateWater | script.js:279-282 | the counter goes up by one and the water frame advances on multiples of 10, staying equal to (counter / 10) mod 3 |
| Game.Garden.GrowInPlace | script.js:285-311 | each record is replaced in place by its grown version |
| Game.Garden.Advance | script.js:277-311 | the animation and growth steps keep the state valid and never lower the tree count |
| Game.Garden.Tick | script.js:277-317 | one loop tick: the water frame step, the growth pass, a redraw of the grown grid (the visible tiles and the sorted sprites, as Draw states) and a recount; the count never drops and the latch fires exactly when the goal is first reached |

## Left out

- PIN authentication, the email sent from the popup, and DOM wiring (tool elements, the tree counter element, cursor styles, window resize) are not modelled. The canvas size is a parameter.
- Saving to and loading from localStorage are not modelled, including the 2-second save throttle of the tick. Records loaded from storage are assumed to be ones the game wrote, as `Cells.GridOk` states.
- Asset loading is reduced to the set of image names that have loaded. The pixels drawn are not modelled: tile source offsets, alpha, grid lines, and whether the sand and water images are ready for each quarter. The model records which tile or sprite is drawn, where, and at what size.
- The 50 ms scheduling of the loop by setInterval is not modelled. `Game.Garden.Tick` is one run of its body.
- Game.Garden.Tick: reads the clock once per tick, where the source calls Date.now() separately for each cell; all cells of one tick are aged at the same instant.
- Game.Garden.Drop: pointer coordinates, scroll offsets and pixel positions are integers. The browser can report fractional client coordinates, which Math.floor would round down.
- CellKeys.ParseInt: covers only what parseInt does on the keys the game writes. It handles an optional sign and leading digits, but not leading blanks, `0x` prefixes or radix handling.
- Render.SortByRow: sorts the entries by an insertion sort. Ties keep their input order, as Array.prototype.sort does, but that stability is not proved.
- Game.Garden.GrowInPlace: records are values. JavaScript's in-place mutation of a shared record object, and any aliasing between records, is not modelled.
- Tools.GrowthDurationFor: computes `10000 + Math.random() * 10000` over the reals, so the duration lies in [10000, 20000). In IEEE doubles the largest values Math.random can return round this sum to exactly 20000, so the program's range is [10000, 20000]. `Cells.CellOk` inherits the half-open bound. Growth behaves the same either way.
- The DEBUG_CONFIG.js file is not part of this model.
