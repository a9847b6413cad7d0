/** The game's static configuration (the CONFIG object of script.js) and the
    fixed constants written inline in its handlers and game loop. */
module Config {
  /** Number of rows and of columns of the square grid. */
  const GridSize: int := 100
  /** Side of one cell, in canvas pixels. */
  const CellSize: int := 64
  /** Number of trees that triggers the one-shot popup. */
  const TreeGoal: int := 14
  /** Elapsed milliseconds after planting at which a seed becomes a sprout. */
  const SeedDuration: int := 5000
  /** Length of the plant animation cycle, in milliseconds. */
  const CycleDuration: int := 7000
  /** Pixels scrolled per wheel event on each axis. */
  const WheelSpeed: int := 20
  /** Bounds of the random growth duration, in milliseconds. */
  const MinGrowthDuration: real := 10000.0
  const GrowthDurationSpread: real := 10000.0
  /** Game-loop ticks between two frames of the water animation. */
  const WaterTicksPerFrame: int := 10
  /** Number of water animation frames (eau_1 .. eau_3). */
  const WaterFrames: int := 3

  /** Width (and height) of the whole grid, in pixels. */
  const WorldSize: int := GridSize * CellSize
}
