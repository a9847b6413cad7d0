/** Scroll arithmetic of the wheel and map-drag handlers: every new offset
    is clamped with Math.max(0, Math.min(v, GRID_SIZE*CELL_SIZE - viewport)). */
module Camera {
  import opened Config

  function Dist(a: int, b: int): nat {
    if a <= b then b - a else a - b
  }

  /** Math.max(0, Math.min(v, hi)). */
  function Clamp(v: int, hi: int): (r: int)
    ensures 0 <= r
    ensures 0 <= hi ==> r <= hi
    ensures 0 <= v <= hi ==> r == v
    // when the range is not empty, r is its point nearest to v
    ensures 0 <= hi ==> forall y :: 0 <= y <= hi ==> Dist(r, v) <= Dist(y, v)
    // a viewport wider than the world pins the offset at 0
    ensures hi < 0 ==> r == 0
  {
    var m := if v < hi then v else hi;
    if 0 < m then m else 0
  }

  /** Largest scroll offset that keeps a viewport `viewport` pixels wide
      inside the world; negative when the viewport is wider than the world. */
  function MaxScroll(viewport: int): int {
    WorldSize - viewport
  }

  /** The wheel step on one axis: +20 for a positive delta, -20 otherwise
      (a zero delta scrolls back). */
  function WheelStep(delta: real): (step: int)
    ensures step == WheelSpeed || step == -WheelSpeed
    ensures step > 0 <==> delta > 0.0
  {
    if delta > 0.0 then WheelSpeed else -WheelSpeed
  }

  /** The offset on one axis after a wheel event. */
  function WheelScroll(scroll: int, delta: real, viewport: int): (r: int)
    ensures 0 <= r && (0 <= MaxScroll(viewport) ==> r <= MaxScroll(viewport))
    ensures 0 <= scroll + WheelStep(delta) <= MaxScroll(viewport) ==> r == scroll + WheelStep(delta)
  {
    Clamp(scroll + WheelStep(delta), MaxScroll(viewport))
  }

  /** The offset on one axis during a map drag: the offset at mouse-down
      minus how far the pointer moved since. */
  function DragScroll(startScroll: int, startPointer: int, pointer: int, viewport: int): (r: int)
    ensures 0 <= r && (0 <= MaxScroll(viewport) ==> r <= MaxScroll(viewport))
    ensures 0 <= startScroll - (pointer - startPointer) <= MaxScroll(viewport) ==>
      r == startScroll - (pointer - startPointer)
  {
    Clamp(startScroll - (pointer - startPointer), MaxScroll(viewport))
  }

  /** Moving the pointer back to where the drag started restores the offset
      the drag started from, when that offset was within bounds. */
  lemma DragBackRestores(startScroll: int, startPointer: int, viewport: int)
    requires 0 <= startScroll <= MaxScroll(viewport)
    ensures DragScroll(startScroll, startPointer, startPointer, viewport) == startScroll
  {
  }

  /** A wheel event followed by the opposite one returns to the start when
      neither hits a bound. */
  lemma WheelThereAndBack(scroll: int, viewport: int)
    requires WheelSpeed <= scroll <= MaxScroll(viewport) - WheelSpeed
    ensures WheelScroll(WheelScroll(scroll, 1.0, viewport), -1.0, viewport) == scroll
    ensures WheelScroll(WheelScroll(scroll, 0.0, viewport), 1.0, viewport) == scroll
  {
  }
}
