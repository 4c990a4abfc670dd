/**
 * Resizing an artboard by one of its handles (`resizeArtboard`), and the
 * older gesture that starts and drives it.
 */
module ArtboardResize {
  import opened Model
  import opened Geometry
  import opened Transformations

  /** The artboard's centre before the resize. */
  function StartCenter(a: Element): Point {
    Point(a.x + Num(a.width) / 2.0, a.y + Num(a.height) / 2.0)
  }

  /** The new size centre mode gives before the aspect lock: twice the pointer's distance from the centre. */
  function CenterModeWidth(a: Element, worldPos: Point, k: HandleKind): real {
    if IsCorner(k) || IsHorizontalSide(k) then Abs(worldPos.x - StartCenter(a).x) * 2.0 else Num(a.width)
  }

  function CenterModeHeight(a: Element, worldPos: Point, k: HandleKind): real {
    if IsCorner(k) || !IsHorizontalSide(k) then Abs(worldPos.y - StartCenter(a).y) * 2.0 else Num(a.height)
  }

  /** The height that keeps `aspect` at width `w`. */
  function HeightFor(w: real, aspect: real): (h: real)
    requires aspect != 0.0
    ensures KeepsAspect(w, h, aspect)
  {
    var h := w / aspect;
    assert h * aspect == w;
    h
  }

  /** The width that keeps `aspect` at height `h`. */
  function WidthFor(h: real, aspect: real): (w: real)
    ensures KeepsAspect(w, h, aspect)
  {
    h * aspect
  }

  /**
   * Centre mode (Ctrl): the size is twice the pointer's distance from the
   * centre in the dimensions the handle moves; Shift then grows the smaller
   * side to the aspect ratio.
   */
  method CenterModeSize(artboard: Element, worldPos: Point, k: HandleKind, shift: bool, aspectRatio: real)
    returns (newWidth: real, newHeight: real)
    requires shift ==> aspectRatio != 0.0
    ensures !shift ==> newWidth == CenterModeWidth(artboard, worldPos, k) && newHeight == CenterModeHeight(artboard, worldPos, k)
    ensures shift ==> KeepsAspect(newWidth, newHeight, aspectRatio)
    ensures shift ==> newWidth == CenterModeWidth(artboard, worldPos, k) || newHeight == CenterModeHeight(artboard, worldPos, k)
  {
    var center := StartCenter(artboard);
    newWidth, newHeight := Num(artboard.width), Num(artboard.height);
    if IsCorner(k) {
      newWidth := Abs(worldPos.x - center.x) * 2.0;
      newHeight := Abs(worldPos.y - center.y) * 2.0;
    } else if IsHorizontalSide(k) {
      newWidth := Abs(worldPos.x - center.x) * 2.0;
    } else {
      newHeight := Abs(worldPos.y - center.y) * 2.0;
    }
    if shift {
      if newWidth / aspectRatio > newHeight {
        newHeight := HeightFor(newWidth, aspectRatio);
      } else {
        newWidth := WidthFor(newHeight, aspectRatio);
      }
    }
  }

  /** Pivot mode: each edge the handle names follows the pointer, no dimension below 1. */
  method PivotModeFrame(artboard: Element, worldPos: Point, k: HandleKind)
    returns (newX: real, newY: real, newWidth: real, newHeight: real)
    ensures HasRight(k) ==> newX == artboard.x && newWidth == Max(1.0, worldPos.x - artboard.x)
    ensures HasLeft(k) ==> newX == worldPos.x && newWidth == Max(1.0, artboard.x + Num(artboard.width) - worldPos.x)
    ensures !HasLeft(k) && !HasRight(k) ==> newX == artboard.x && newWidth == Num(artboard.width)
    ensures HasBottom(k) ==> newY == artboard.y && newHeight == Max(1.0, worldPos.y - artboard.y)
    ensures HasTop(k) ==> newY == worldPos.y && newHeight == Max(1.0, artboard.y + Num(artboard.height) - worldPos.y)
    ensures !HasTop(k) && !HasBottom(k) ==> newY == artboard.y && newHeight == Num(artboard.height)
  {
    newX, newY, newWidth, newHeight := artboard.x, artboard.y, Num(artboard.width), Num(artboard.height);
    if HasRight(k) {
      newWidth := Max(1.0, worldPos.x - newX);
    }
    if HasLeft(k) {
      newWidth := Max(1.0, artboard.x + Num(artboard.width) - worldPos.x);
      newX := worldPos.x;
    }
    if HasBottom(k) {
      newHeight := Max(1.0, worldPos.y - newY);
    }
    if HasTop(k) {
      newHeight := Max(1.0, artboard.y + Num(artboard.height) - worldPos.y);
      newY := worldPos.y;
    }
  }

  /**
   * `resizeArtboard`. In centre mode (Ctrl) the centre stays put; otherwise
   * each edge named by the handle follows the pointer. Shift locks the
   * aspect ratio the artboard had: a handle with a left or right side keeps
   * the width and derives the height, keeping the bottom edge for a top
   * handle; any other handle keeps the height and derives the width. The
   * pivot is never read.
   */
  method ResizeArtboard(artboard: Element, pivot: Point, worldPos: Point, k: HandleKind, shift: bool, ctrl: bool)
    returns (r: Element)
    requires shift ==> Num(artboard.width) != 0.0 && Num(artboard.height) != 0.0
    // only the frame changes
    ensures r.width.Some? && r.height.Some?
    ensures r == artboard.(x := r.x, y := r.y, width := r.width, height := r.height)
    // centre mode
    ensures ctrl ==> r.x + Num(r.width) / 2.0 == StartCenter(artboard).x && r.y + Num(r.height) / 2.0 == StartCenter(artboard).y
    ensures ctrl && !shift ==> Num(r.width) == CenterModeWidth(artboard, worldPos, k) &&
                               Num(r.height) == CenterModeHeight(artboard, worldPos, k)
    ensures ctrl && shift ==> KeepsAspect(Num(r.width), Num(r.height), Num(artboard.width) / Num(artboard.height))
    ensures ctrl && shift ==> Num(r.width) == CenterModeWidth(artboard, worldPos, k) ||
                              Num(r.height) == CenterModeHeight(artboard, worldPos, k)
    // pivot mode, left and right handles
    ensures !ctrl && HasRight(k) ==> r.x == artboard.x && Num(r.width) == Max(1.0, worldPos.x - artboard.x)
    ensures !ctrl && HasLeft(k) ==> r.x == worldPos.x && Num(r.width) == Max(1.0, artboard.x + Num(artboard.width) - worldPos.x)
    ensures !ctrl && HasLeft(k) && artboard.x + Num(artboard.width) - worldPos.x >= 1.0 ==>
              r.x + Num(r.width) == artboard.x + Num(artboard.width)
    ensures !ctrl && !HasLeft(k) && !HasRight(k) && !shift ==> r.x == artboard.x && Num(r.width) == Num(artboard.width)
    // pivot mode, top and bottom handles
    ensures !ctrl && !shift && HasBottom(k) ==> r.y == artboard.y && Num(r.height) == Max(1.0, worldPos.y - artboard.y)
    ensures !ctrl && !shift && HasTop(k) ==> r.y == worldPos.y && Num(r.height) == Max(1.0, artboard.y + Num(artboard.height) - worldPos.y)
    ensures !ctrl && !shift && HasTop(k) && artboard.y + Num(artboard.height) - worldPos.y >= 1.0 ==>
              r.y + Num(r.height) == artboard.y + Num(artboard.height)
    ensures !ctrl && !shift && !HasTop(k) && !HasBottom(k) ==> r.y == artboard.y && Num(r.height) == Num(artboard.height)
    // pivot mode with the aspect lock
    ensures !ctrl && shift ==> KeepsAspect(Num(r.width), Num(r.height), Num(artboard.width) / Num(artboard.height))
    ensures !ctrl && shift && (HasLeft(k) || HasRight(k)) && HasTop(k) && artboard.y + Num(artboard.height) - worldPos.y >= 1.0 ==>
              r.y + Num(r.height) == artboard.y + Num(artboard.height)
    ensures !ctrl && shift && (HasLeft(k) || HasRight(k)) && !HasTop(k) ==> r.y == artboard.y
    ensures !ctrl && shift && !HasLeft(k) && !HasRight(k) ==> r.x == artboard.x
    ensures !ctrl && shift && !HasLeft(k) && !HasRight(k) && HasTop(k) ==>
              r.y == worldPos.y && Num(r.height) == Max(1.0, artboard.y + Num(artboard.height) - worldPos.y)
    ensures !ctrl && shift && !HasLeft(k) && !HasRight(k) && HasBottom(k) ==>
              r.y == artboard.y && Num(r.height) == Max(1.0, worldPos.y - artboard.y)
  {
    var aspectRatio := if shift then Num(artboard.width) / Num(artboard.height) else 0.0;
    var newX, newY, newWidth, newHeight;
    if ctrl {
      var center := StartCenter(artboard);
      newWidth, newHeight := CenterModeSize(artboard, worldPos, k, shift, aspectRatio);
      newX := center.x - newWidth / 2.0;
      newY := center.y - newHeight / 2.0;
    } else {
      newX, newY, newWidth, newHeight := PivotModeFrame(artboard, worldPos, k);
      if shift {
        if HasLeft(k) || HasRight(k) {
          var adjustedHeight := HeightFor(newWidth, aspectRatio);
          if HasTop(k) {
            newY := newY + newHeight - adjustedHeight;
          }
          newHeight := adjustedHeight;
        } else {
          var adjustedWidth := WidthFor(newHeight, aspectRatio);
          if HasLeft(k) {
            newX := newX + newWidth - adjustedWidth;
          }
          newWidth := adjustedWidth;
        }
      }
    }
    r := artboard.(x := newX, y := newY, width := Some(newWidth), height := Some(newHeight));
  }

  /** The state an artboard-resize gesture carries from start to end. */
  datatype ArtboardResizeData = ArtboardResizeData(
    kind: string,
    element: Element,
    pivot: Point,
    activeHandle: HandleKind,
    liveElements: Scene,
    lastWorldPos: Point)

  /**
   * The older `resizeArtboard` that the gesture calls comes from a module
   * that is not part of this model; it is passed in.
   */
  type Resizer = (Element, Point, Point, HandleKind, bool, bool) -> Element

  /**
   * `handleArtboardResizing`: the artboard at the gesture's start, resized
   * to the pointer, replaces every element with its id and is the new box.
   */
  function HandleArtboardResizing(resize: Resizer, data: ArtboardResizeData, elements: Scene, worldPos: Point,
                                  shift: bool, ctrl: bool, meta: bool): (r: HandlerResult)
    ensures var updated := resize(data.element, data.pivot, worldPos, data.activeHandle, shift, ctrl || meta);
            r.newBoundingBox == Some(updated) &&
            |r.updatedElements| == |elements| &&
            (forall i :: 0 <= i < |elements| && elements[i].id != data.element.id ==> r.updatedElements[i] == elements[i]) &&
            (forall i :: 0 <= i < |elements| && elements[i].id == data.element.id ==> r.updatedElements[i] == updated)
  {
    var updated := resize(data.element, data.pivot, worldPos, data.activeHandle, shift, ctrl || meta);
    HandlerResult(ReplaceById(elements, data.element.id, updated), Some(updated))
  }


  /**
   * `tryStartArtboardResize`: a gesture starts only when exactly one element
   * is selected, it is an artboard, and the pointer is on one of its handles.
   */
  function TryStartArtboardResize(t: Trig, worldPos: Point, elements: Scene, selectedIds: seq<Id>, scale: Scale)
    : (r: Option<ArtboardResizeData>)
    ensures var sel := Partition(elements, selectedIds, true);
            r.Some? ==> |sel| == 1 && sel[0].kind == Artboard &&
                        HandleAtPoint(t, worldPos, Some(sel[0]), scale).Some? &&
                        r.value.kind == "resizing-artboard" && r.value.element == sel[0] &&
                        r.value.activeHandle == HandleAtPoint(t, worldPos, Some(sel[0]), scale).value.kind &&
                        r.value.pivot == HandleAtPoint(t, worldPos, Some(sel[0]), scale).value.pivot &&
                        r.value.liveElements == elements && r.value.lastWorldPos == worldPos
  {
    var sel := Partition(elements, selectedIds, true);
    if |sel| != 1 || sel[0].kind != Artboard then None
    else
      var handle := HandleAtPoint(t, worldPos, Some(sel[0]), scale);
      if handle.None? then None
      else Some(ArtboardResizeData("resizing-artboard", sel[0], handle.value.pivot, handle.value.kind, elements, worldPos))
  }

  /** Artboards carry no handles, so the gesture never starts. */
  lemma ArtboardResizeNeverStarts(t: Trig, worldPos: Point, elements: Scene, selectedIds: seq<Id>, scale: Scale)
    ensures TryStartArtboardResize(t, worldPos, elements, selectedIds, scale).None?
  {
    var sel := Partition(elements, selectedIds, true);
    if |sel| == 1 && sel[0].kind == Artboard {
      assert !HasHandles(sel[0]);
      assert Handles(t, sel[0]) == [];
    }
  }
}
