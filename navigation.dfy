/**
 * Canvas navigation (`useCanvasNavigation`): the pan offset and zoom scale,
 * and the wheel handler that zooms about the pointer. The zoom factor is
 * `(1 + 0.0008) ^ |deltaY|`; the power is left to the host, so the handler
 * takes the factor as an argument, which is never below 1.
 */
module Navigation {
  import opened Model

  /** The smallest scale the wheel handler allows. */
  const MinScale: real := 0.1

  /** The view transform: screen = world * scale + offset. */
  datatype View = View(offset: Point, scale: Scale)

  /** The world point shown at a screen point. */
  function WorldUnder(v: View, p: Point): (r: Point)
    ensures Point(r.x * v.scale + v.offset.x, r.y * v.scale + v.offset.y) == p
  {
    var s: real := v.scale;
    assert ((p.x - v.offset.x) / s) * s == p.x - v.offset.x;
    assert ((p.y - v.offset.y) / s) * s == p.y - v.offset.y;
    Point((p.x - v.offset.x) / v.scale, (p.y - v.offset.y) / v.scale)
  }

  /**
   * The scale after one wheel step: scrolling up (negative `deltaY`) zooms
   * in by the factor, anything else zooms out by it, never below 0.1.
   */
  function ZoomedScale(scale: Scale, deltaY: real, zoomFactor: real): (s: Scale)
    requires zoomFactor >= 1.0
    ensures s >= MinScale
    ensures deltaY < 0.0 ==> s >= scale
    ensures deltaY >= 0.0 ==> s <= scale || s == MinScale
    ensures s == MinScale || s == (if deltaY < 0.0 then scale * zoomFactor else scale / zoomFactor)
  {
    var zoomed := if deltaY < 0.0 then scale * zoomFactor else scale / zoomFactor;
    assert deltaY >= 0.0 ==> zoomed <= scale by {
      if deltaY >= 0.0 {
        assert zoomed * zoomFactor == scale;
        assert zoomed > 0.0;
        assert zoomed * (zoomFactor - 1.0) >= 0.0;
      }
    }
    Max(MinScale, zoomed)
  }

  /** `handleWheel`'s new view: the new scale, and the offset that keeps the pointer's world point still. */
  function Zoom(v: View, mousePos: Point, deltaY: real, zoomFactor: real): (r: View)
    requires zoomFactor >= 1.0
    ensures r.scale == ZoomedScale(v.scale, deltaY, zoomFactor)
    ensures WorldUnder(r, mousePos) == WorldUnder(v, mousePos)
  {
    var worldPointBeforeZoom := WorldUnder(v, mousePos);
    var newScale := ZoomedScale(v.scale, deltaY, zoomFactor);
    var r := View(Point(mousePos.x - worldPointBeforeZoom.x * newScale, mousePos.y - worldPointBeforeZoom.y * newScale), newScale);
    assert (mousePos.x - r.offset.x) / newScale == worldPointBeforeZoom.x;
    assert (mousePos.y - r.offset.y) / newScale == worldPointBeforeZoom.y;
    r
  }

  /**
   * A wheel event without vertical movement has factor `1.0008 ^ 0 = 1`;
   * at a scale of at least 0.1 it leaves the view as it was.
   */
  lemma UnitFactorKeepsView(v: View, mousePos: Point, deltaY: real)
    requires v.scale >= MinScale
    ensures Zoom(v, mousePos, deltaY, 1.0) == v
  {
    var r := Zoom(v, mousePos, deltaY, 1.0);
    assert r.scale == v.scale;
    var w := WorldUnder(v, mousePos);
    assert r.offset.x == mousePos.x - w.x * v.scale;
    assert w.x * v.scale == mousePos.x - v.offset.x;
    assert w.y * v.scale == mousePos.y - v.offset.y;
  }

  /** Zooming in and then out by the same factor, above the floor, restores the view. */
  lemma ZoomInThenOutRestores(v: View, mousePos: Point, zoomFactor: real, up: real, down: real)
    requires zoomFactor >= 1.0 && up < 0.0 && down >= 0.0 && v.scale >= MinScale
    ensures Zoom(Zoom(v, mousePos, up, zoomFactor), mousePos, down, zoomFactor) == v
  {
    var z := Zoom(v, mousePos, up, zoomFactor);
    assert z.scale == v.scale * zoomFactor;
    var b := Zoom(z, mousePos, down, zoomFactor);
    assert b.scale == v.scale;
    var w := WorldUnder(v, mousePos);
    assert WorldUnder(b, mousePos) == w;
    assert (mousePos.x - b.offset.x) / v.scale == (mousePos.x - v.offset.x) / v.scale;
    assert (mousePos.y - b.offset.y) / v.scale == (mousePos.y - v.offset.y) / v.scale;
  }

  /** The hook's state. */
  class CanvasNavigation {
    var offset: Point
    var scale: Scale

    constructor()
      ensures offset == Origin && scale == 1.0
    {
      offset := Origin;
      scale := 1.0;
    }

    function CurrentView(): View
      reads this
    {
      View(offset, scale)
    }

    /**
     * `handleWheel`: without a canvas it does nothing; otherwise it moves to
     * the zoomed view.
     */
    method HandleWheel(hasCanvas: bool, mousePos: Point, deltaY: real, zoomFactor: real)
      requires zoomFactor >= 1.0
      modifies this
      ensures !hasCanvas ==> offset == old(offset) && scale == old(scale)
      ensures hasCanvas ==> CurrentView() == Zoom(old(CurrentView()), mousePos, deltaY, zoomFactor)
      ensures hasCanvas ==> scale >= MinScale
    {
      if !hasCanvas {
        return;
      }
      var next := Zoom(View(offset, scale), mousePos, deltaY, zoomFactor);
      scale := next.scale;
      offset := next.offset;
    }
  }
}
