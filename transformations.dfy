/**
 * The element transforms the interaction handlers apply on every pointer
 * move: translate a set of elements from their drag-start positions, rotate
 * one element, resize one element (or a selection box) from a pivot or from
 * its centre, and carry a whole selection along when its group box is
 * rotated or resized. Every transform is computed from the state captured
 * when the gesture started, never from the previous move.
 */
module Transformations {
  import opened Model
  import opened Geometry

  // ---- Translation -------------------------------------------------------

  /** The last index of the start elements carrying the id, or -1. */
  function LastIndexById(starts: Scene, id: Id): (r: int)
    ensures -1 <= r < |starts|
    ensures r >= 0 ==> starts[r].id == id && forall j :: r < j < |starts| ==> starts[j].id != id
    ensures r == -1 <==> forall j :: 0 <= j < |starts| ==> starts[j].id != id
  {
    if starts == [] then -1
    else if starts[|starts| - 1].id == id then |starts| - 1
    else LastIndexById(starts[..|starts| - 1], id)
  }

  /** The last start element with the id: `new Map(...)` keeps the last entry per key. */
  function LastById(starts: Scene, id: Id): (r: Option<Element>)
    ensures r.None? <==> forall i :: 0 <= i < |starts| ==> starts[i].id != id
    ensures r.Some? ==> r.value.id == id && r.value in starts
  {
    var k := LastIndexById(starts, id);
    if k == -1 then None else Some(starts[k])
  }

  /**
   * `translateElements`: every element that was among the start elements is
   * placed at its start position plus `(dx, dy)`; the others are kept.
   */
  function TranslateElements(els: Scene, starts: Scene, dx: real, dy: real): (r: Scene)
    ensures |r| == |els|
    ensures forall i :: 0 <= i < |els| ==>
              var s := LastById(starts, els[i].id);
              r[i] == if s.Some? then els[i].(x := s.value.x + dx, y := s.value.y + dy) else els[i]
  {
    if els == [] then []
    else
      var el := els[0];
      var start := LastById(starts, el.id);
      [if start.Some? then el.(x := start.value.x + dx, y := start.value.y + dy) else el] +
      TranslateElements(els[1..], starts, dx, dy)
  }

  /**
   * The translation is absolute: where the moved elements currently are
   * does not matter, so replaying any pointer position gives the same scene.
   */
  lemma TranslateIsAbsolute(els: Scene, els': Scene, starts: Scene, dx: real, dy: real)
    requires |els| == |els'|
    requires forall i :: 0 <= i < |els| ==> els'[i] == els[i].(x := els'[i].x, y := els'[i].y)
    requires forall i :: 0 <= i < |els| ==> LastById(starts, els[i].id).Some?
    ensures TranslateElements(els, starts, dx, dy) == TranslateElements(els', starts, dx, dy)
  {
    var r, r' := TranslateElements(els, starts, dx, dy), TranslateElements(els', starts, dx, dy);
    forall i | 0 <= i < |els|
      ensures r[i] == r'[i]
    {
      assert els'[i].id == els[i].id;
    }
  }

  /** Translating by the zero offset puts every moved element back at its start position. */
  lemma TranslateByZero(els: Scene, starts: Scene, i: int)
    requires 0 <= i < |els| && LastById(starts, els[i].id).Some?
    ensures var s := LastById(starts, els[i].id).value;
            TranslateElements(els, starts, 0.0, 0.0)[i] == els[i].(x := s.x, y := s.y)
  {
  }

  // ---- Rotation ------------------------------------------------------------

  /** 15 degrees in radians. */
  const SnapStep: real := 15.0 * (Pi / 180.0)

  /** `Math.round`: the nearest integer, halves rounded up. */
  function Round(x: real): (r: int)
    ensures x - 0.5 < r as real <= x + 0.5
  {
    (x + 0.5).Floor
  }

  /** `Math.round(angle / step) * step`: the nearest multiple of the step. */
  function SnapAngle(angle: real): (r: real)
    ensures (r / SnapStep).Floor as real == r / SnapStep
    ensures Abs(r - angle) <= SnapStep / 2.0
  {
    var k := Round(angle / SnapStep);
    var r := k as real * SnapStep;
    assert r / SnapStep == k as real;
    assert angle / SnapStep - 0.5 < k as real <= angle / SnapStep + 0.5;
    assert angle - SnapStep / 2.0 < r <= angle + SnapStep / 2.0 by {
      assert (angle / SnapStep) * SnapStep == angle;
    }
    r
  }

  /**
   * `rotateElement`: the element's rotation becomes its rotation plus the
   * angle the pointer has swept around `center` since the element's own
   * recorded `startAngle`; Shift snaps the result to a multiple of 15°.
   * The `startAngle` argument itself is never read.
   */
  function RotateElement(t: Trig, e: Element, elementStartAngle: real, center: Point,
                         startAngle: real, worldPos: Point, shift: bool): (r: Element)
    ensures r == e.(rotation := r.rotation) && r.rotation.Some?
    ensures var swept := Rotation(e) + (t.atan2(worldPos.y - center.y, worldPos.x - center.x) - elementStartAngle);
            (!shift ==> r.rotation.value == swept) &&
            (shift ==> Abs(r.rotation.value - swept) <= SnapStep / 2.0 &&
                       (r.rotation.value / SnapStep).Floor as real == r.rotation.value / SnapStep)
  {
    var currentAngle := t.atan2(worldPos.y - center.y, worldPos.x - center.x);
    var newAngle := Rotation(e) + (currentAngle - elementStartAngle);
    e.(rotation := Some(if shift then SnapAngle(newAngle) else newAngle))
  }

  // ---- Resizing one element --------------------------------------------------

  /** The element's size before the resize: a circle's is twice its radii. */
  function OriginalWidth(e: Element): real {
    if e.kind == Circle then RadiusX(e) * 2.0 else Num(e.width)
  }

  function OriginalHeight(e: Element): real {
    if e.kind == Circle then RadiusY(e) * 2.0 else Num(e.height)
  }

  /** Width over height, or 1 when either is not positive. */
  function AspectRatio(e: Element): (r: real)
    ensures r > 0.0
  {
    var w, h := OriginalWidth(e), OriginalHeight(e);
    if w > 0.0 && h > 0.0 then w / h else 1.0
  }

  /** Width is height times the aspect ratio. */
  predicate KeepsAspect(w: real, h: real, aspect: real) {
    w == h * aspect
  }

  /**
   * The Shift constraint: a corner grows the smaller side to the ratio, a
   * left/right handle derives the height, a top/bottom handle the width.
   */
  function Constrain(w: real, h: real, k: HandleKind, aspect: real, shift: bool): (r: (real, real))
    requires aspect > 0.0
    ensures !shift ==> r == (w, h)
    ensures shift ==> KeepsAspect(r.0, r.1, aspect)
    ensures shift && IsCorner(k) ==> r.0 >= w && r.1 >= h
    ensures shift && IsHorizontalSide(k) ==> r.0 == w
    ensures shift && !IsCorner(k) && !IsHorizontalSide(k) ==> r.1 == h
  {
    if !shift then (w, h)
    else if IsCorner(k) then
      if w / aspect > h then (w, w / aspect) else (h * aspect, h)
    else if IsHorizontalSide(k) then (w, w / aspect)
    else (h * aspect, h)
  }

  /** The size and the new centre (in the element's unrotated frame) a resize computes. */
  datatype ResizeFrame = ResizeFrame(width: real, height: real, localCenter: Point)

  /** -1 when the pointer is left of (above) the pivot, 1 otherwise. */
  function Sign(a: real, pivot: real): real {
    if a < pivot then -1.0 else 1.0
  }

  /**
   * The size the mouse position calls for before the Shift constraint: a corner
   * takes both distances, a left/right handle keeps the height and a
   * top/bottom handle the width. Resizing from the centre doubles them.
   */
  function PointerSize(e: Element, k: HandleKind, dx: real, dy: real, factor: real): (r: (real, real))
    ensures IsHorizontalSide(k) ==> r.1 == OriginalHeight(e)
    ensures !IsCorner(k) && !IsHorizontalSide(k) ==> r.0 == OriginalWidth(e)
  {
    if IsCorner(k) then (Abs(dx) * factor, Abs(dy) * factor)
    else if IsHorizontalSide(k) then (Abs(dx) * factor, OriginalHeight(e))
    else (OriginalWidth(e), Abs(dy) * factor)
  }

  /** The new local centre when the pivot stays put: halfway from the pivot along the new size. */
  function PivotedCenter(lp: Point, localMouse: Point, k: HandleKind, fw: real, fh: real): (r: Point)
    ensures IsCorner(k) || IsHorizontalSide(k) ==>
              (localMouse.x < lp.x ==> r.x == lp.x - fw / 2.0) && (localMouse.x >= lp.x ==> r.x == lp.x + fw / 2.0)
    ensures IsCorner(k) || !IsHorizontalSide(k) ==>
              (localMouse.y < lp.y ==> r.y == lp.y - fh / 2.0) && (localMouse.y >= lp.y ==> r.y == lp.y + fh / 2.0)
    ensures !IsCorner(k) && IsHorizontalSide(k) ==> r.y == lp.y
    ensures !IsCorner(k) && !IsHorizontalSide(k) ==> r.x == lp.x
  {
    var sx, sy := Sign(localMouse.x, lp.x), Sign(localMouse.y, lp.y);
    if IsCorner(k) then Point((lp.x + sx * fw + lp.x) / 2.0, (lp.y + sy * fh + lp.y) / 2.0)
    else if IsHorizontalSide(k) then Point((lp.x + sx * fw + lp.x) / 2.0, lp.y)
    else Point(lp.x, (lp.y + sy * fh + lp.y) / 2.0)
  }

  /**
   * The new size and centre. With Ctrl the element grows symmetrically
   * about its centre; otherwise the pivot stays put and the size follows the
   * pointer, flipping sides when the pointer crosses the pivot.
   */
  function ResizeFrameOf(t: Trig, e: Element, pivot: Point, worldPos: Point, k: HandleKind,
                         shift: bool, ctrl: bool): (f: ResizeFrame)
    ensures ctrl ==> f.localCenter == Center(e)
    ensures shift ==> KeepsAspect(f.width, f.height, AspectRatio(e))
    ensures !shift && IsHorizontalSide(k) ==> f.height == OriginalHeight(e)
    ensures !shift && !IsCorner(k) && !IsHorizontalSide(k) ==> f.width == OriginalWidth(e)
  {
    var c := Center(e);
    var rotation := Num(e.rotation);
    var localMouse := RotatePoint(t, worldPos, c, -rotation);
    var anchor := if ctrl then c else RotatePoint(t, pivot, c, -rotation);
    var size := PointerSize(e, k, localMouse.x - anchor.x, localMouse.y - anchor.y, if ctrl then 2.0 else 1.0);
    var fsize := Constrain(size.0, size.1, k, AspectRatio(e), shift);
    ResizeFrame(fsize.0, fsize.1, if ctrl then c else PivotedCenter(anchor, localMouse, k, fsize.0, fsize.1))
  }

  /** The resize is applied only when both new sizes are positive. */
  predicate Accepted(f: ResizeFrame) {
    f.width > 0.0 && f.height > 0.0
  }

  /**
   * `resizeElement`: boxes get the new size with the top-left placed so that
   * the box is centred on the new centre turned back into the world; circles
   * get the new centre and radii; degenerate sizes and other kinds leave the
   * element as it was.
   */
  function ResizeElement(t: Trig, e: Element, pivot: Point, worldPos: Point, k: HandleKind,
                         shift: bool, ctrl: bool): (r: Element)
    ensures var f := ResizeFrameOf(t, e, pivot, worldPos, k, shift, ctrl);
            (!Accepted(f) || !HasHandles(e) ==> r == e) &&
            (Accepted(f) && (e.kind == Rect || e.kind == Group) ==>
               r == e.(x := r.x, y := r.y, width := Some(f.width), height := Some(f.height))) &&
            (Accepted(f) && e.kind == Circle ==>
               r == e.(x := r.x, y := r.y, radiusX := Some(f.width / 2.0), radiusY := Some(f.height / 2.0)))
  {
    var f := ResizeFrameOf(t, e, pivot, worldPos, k, shift, ctrl);
    if !Accepted(f) then e
    else
      var newWorldCenter := RotatePoint(t, f.localCenter, Center(e), Num(e.rotation));
      if e.kind == Rect || e.kind == Group then
        e.(x := newWorldCenter.x - f.width / 2.0, y := newWorldCenter.y - f.height / 2.0,
           width := Some(f.width), height := Some(f.height))
      else if e.kind == Circle then
        e.(x := newWorldCenter.x, y := newWorldCenter.y,
           radiusX := Some(f.width / 2.0), radiusY := Some(f.height / 2.0))
      else e
  }

  /** Resizing from the centre (Ctrl) leaves the element's centre where it was. */
  lemma ResizeFromCenterKeepsCenter(t: Trig, e: Element, pivot: Point, worldPos: Point, k: HandleKind, shift: bool)
    requires HasHandles(e)
    ensures Center(ResizeElement(t, e, pivot, worldPos, k, shift, true)) == Center(e)
  {
    var f := ResizeFrameOf(t, e, pivot, worldPos, k, shift, true);
    if Accepted(f) {
      var c := Center(e);
      assert RotatePoint(t, f.localCenter, c, Num(e.rotation)) == c;
    }
  }

  /** Moving `w` by `k` in a frame turned about `c` lands where turning `w + k` about `c` does. */
  lemma OffsetInTurnedFrame(t: Trig, c: Point, n: Point, k: Point, a: real)
    ensures var w := RotatePoint(t, n, c, a);
            RotatePoint(t, AddVectors(w, k), w, a) == RotatePoint(t, AddVectors(n, k), c, a)
  {
    var w := RotatePoint(t, n, c, a);
    RotatePointAsVector(t, AddVectors(w, k), w, a);
    RotatePointAsVector(t, n, c, a);
    RotatePointAsVector(t, AddVectors(n, k), c, a);
    assert SubtractVectors(w, AddVectors(w, k)) == k;
    assert SubtractVectors(c, AddVectors(n, k)) == AddVectors(SubtractVectors(c, n), k);
    RotateVectorAdditive(t, SubtractVectors(c, n), k, a);
  }

  /**
   * Resizing a rectangle or circle from a corner handle without Ctrl keeps
   * the pivot fixed: it is a corner of the resized element.
   */
  lemma ResizeKeepsPivotCorner(t: Trig, e: Element, pivot: Point, worldPos: Point, k: HandleKind, shift: bool)
    requires e.kind == Rect || e.kind == Circle
    requires IsCorner(k) && Accepted(ResizeFrameOf(t, e, pivot, worldPos, k, shift, false))
    requires t.IdentitiesAt(Num(e.rotation))
    ensures pivot in ElementCorners(t, ResizeElement(t, e, pivot, worldPos, k, shift, false))
  {
    var rot := Num(e.rotation);
    var f := ResizeFrameOf(t, e, pivot, worldPos, k, shift, false);
    var r := ResizeElement(t, e, pivot, worldPos, k, shift, false);
    var w := RotatePoint(t, f.localCenter, Center(e), rot);
    var sx, sy := PivotOffsetFromNewCenter(t, e, pivot, worldPos, k, shift, f, w);
    assert Num(r.rotation) == rot;
    if e.kind == Rect {
      assert BoxCenter(r) == w;
    } else {
      assert RadiusX(r) == f.width / 2.0 && RadiusY(r) == f.height / 2.0;
      assert Point(r.x, r.y) == w;
    }
    CornerAtOffset(t, r, w, sx, sy, f.width / 2.0, f.height / 2.0, pivot);
  }

  /**
   * Without Ctrl, the pivot lies half the new size away from the new centre
   * along each axis of the element's turned frame.
   */
  lemma PivotOffsetFromNewCenter(t: Trig, e: Element, pivot: Point, worldPos: Point, k: HandleKind, shift: bool,
                                 f: ResizeFrame, w: Point)
    returns (sx: real, sy: real)
    requires IsCorner(k) && t.IdentitiesAt(Num(e.rotation))
    requires f == ResizeFrameOf(t, e, pivot, worldPos, k, shift, false)
    requires w == RotatePoint(t, f.localCenter, Center(e), Num(e.rotation))
    ensures (sx == 1.0 || sx == -1.0) && (sy == 1.0 || sy == -1.0)
    ensures RotatePoint(t, AddVectors(w, Point(-sx * (f.width / 2.0), -sy * (f.height / 2.0))), w, Num(e.rotation)) == pivot
  {
    var rot := Num(e.rotation);
    var c := Center(e);
    var localMouse := RotatePoint(t, worldPos, c, -rot);
    var lp := RotatePoint(t, pivot, c, -rot);
    sx, sy := Sign(localMouse.x, lp.x), Sign(localMouse.y, lp.y);
    var n := f.localCenter;
    assert n == PivotedCenter(lp, localMouse, k, f.width, f.height);
    var off := Point(-sx * (f.width / 2.0), -sy * (f.height / 2.0));
    assert AddVectors(n, off) == lp;
    OffsetInTurnedFrame(t, c, n, off, rot);
    RotateRoundTrip(t, pivot, c, rot);
  }

  /**
   * A group's box resizes as a rectangle does, so dragging its corner keeps
   * the pivot at a corner of the resized box. (The corner list of a group
   * element itself is empty, so the corners are read off the same box as a
   * rectangle.)
   */
  lemma ResizeKeepsPivotCornerOfGroup(t: Trig, e: Element, pivot: Point, worldPos: Point, k: HandleKind, shift: bool)
    requires e.kind == Group
    requires IsCorner(k) && Accepted(ResizeFrameOf(t, e, pivot, worldPos, k, shift, false))
    requires t.IdentitiesAt(Num(e.rotation))
    ensures pivot in ElementCorners(t, ResizeElement(t, e, pivot, worldPos, k, shift, false).(kind := Rect))
  {
    var asRect := e.(kind := Rect);
    assert Center(asRect) == Center(e);
    assert ResizeFrameOf(t, asRect, pivot, worldPos, k, shift, false) == ResizeFrameOf(t, e, pivot, worldPos, k, shift, false);
    ResizeKeepsPivotCorner(t, asRect, pivot, worldPos, k, shift);
    assert ResizeElement(t, asRect, pivot, worldPos, k, shift, false) ==
           ResizeElement(t, e, pivot, worldPos, k, shift, false).(kind := Rect);
  }

  /**
   * Resizing a rectangle or circle from a side handle without Ctrl keeps
   * the pivot fixed on the opposite side: read in the resized element's own
   * frame, the pivot lies on its centre line, half the new size away from
   * its centre — the midpoint of a left or right edge for a left/right
   * handle, of a top or bottom edge for a top/bottom handle.
   */
  lemma ResizeKeepsPivotSide(t: Trig, e: Element, pivot: Point, worldPos: Point, k: HandleKind, shift: bool)
    requires e.kind == Rect || e.kind == Circle
    requires !IsCorner(k) && Accepted(ResizeFrameOf(t, e, pivot, worldPos, k, shift, false))
    requires t.IdentitiesAt(Num(e.rotation))
    ensures var r := ResizeElement(t, e, pivot, worldPos, k, shift, false);
            var c := Center(r);
            var q := RotatePoint(t, pivot, c, -Num(r.rotation));
            var hw, hh := OriginalWidth(r) / 2.0, OriginalHeight(r) / 2.0;
            (IsHorizontalSide(k) ==> q.y == c.y && (q.x == c.x - hw || q.x == c.x + hw)) &&
            (!IsHorizontalSide(k) ==> q.x == c.x && (q.y == c.y - hh || q.y == c.y + hh))
  {
    var rot := Num(e.rotation);
    var f := ResizeFrameOf(t, e, pivot, worldPos, k, shift, false);
    var r := ResizeElement(t, e, pivot, worldPos, k, shift, false);
    var w := RotatePoint(t, f.localCenter, Center(e), rot);
    assert Num(r.rotation) == rot;
    if e.kind == Rect {
      assert r.width == Some(f.width) && r.height == Some(f.height);
      assert Center(r) == w;
    } else {
      assert RadiusX(r) == f.width / 2.0 && RadiusY(r) == f.height / 2.0;
      assert Center(r) == w;
    }
    assert OriginalWidth(r) == f.width && OriginalHeight(r) == f.height;
    var off := PivotSideOffset(t, e, pivot, worldPos, k, shift, f, w);
    RotateRoundTrip(t, AddVectors(w, off), w, rot);
  }
  /** A group's box resizes as a rectangle does, so a side handle keeps the pivot on the opposite side. */
  lemma ResizeKeepsPivotSideOfGroup(t: Trig, e: Element, pivot: Point, worldPos: Point, k: HandleKind, shift: bool)
    requires e.kind == Group
    requires !IsCorner(k) && Accepted(ResizeFrameOf(t, e, pivot, worldPos, k, shift, false))
    requires t.IdentitiesAt(Num(e.rotation))
    ensures var r := ResizeElement(t, e, pivot, worldPos, k, shift, false);
            var c := Center(r);
            var q := RotatePoint(t, pivot, c, -Num(r.rotation));
            var hw, hh := OriginalWidth(r) / 2.0, OriginalHeight(r) / 2.0;
            (IsHorizontalSide(k) ==> q.y == c.y && (q.x == c.x - hw || q.x == c.x + hw)) &&
            (!IsHorizontalSide(k) ==> q.x == c.x && (q.y == c.y - hh || q.y == c.y + hh))
  {
    var asRect := e.(kind := Rect);
    assert Center(asRect) == Center(e);
    assert ResizeFrameOf(t, asRect, pivot, worldPos, k, shift, false) == ResizeFrameOf(t, e, pivot, worldPos, k, shift, false);
    ResizeKeepsPivotSide(t, asRect, pivot, worldPos, k, shift);
    var r := ResizeElement(t, e, pivot, worldPos, k, shift, false);
    assert ResizeElement(t, asRect, pivot, worldPos, k, shift, false) == r.(kind := Rect);
    assert Center(r.(kind := Rect)) == Center(r);
    assert OriginalWidth(r.(kind := Rect)) == OriginalWidth(r) && OriginalHeight(r.(kind := Rect)) == OriginalHeight(r);
  }


  /**
   * Without Ctrl, a side handle leaves the pivot half the new size away from
   * the new centre along one axis of the element's turned frame.
   */
  lemma PivotSideOffset(t: Trig, e: Element, pivot: Point, worldPos: Point, k: HandleKind, shift: bool,
                        f: ResizeFrame, w: Point)
    returns (off: Point)
    requires !IsCorner(k) && t.IdentitiesAt(Num(e.rotation))
    requires f == ResizeFrameOf(t, e, pivot, worldPos, k, shift, false)
    requires w == RotatePoint(t, f.localCenter, Center(e), Num(e.rotation))
    ensures IsHorizontalSide(k) ==> off.y == 0.0 && (off.x == -(f.width / 2.0) || off.x == f.width / 2.0)
    ensures !IsHorizontalSide(k) ==> off.x == 0.0 && (off.y == -(f.height / 2.0) || off.y == f.height / 2.0)
    ensures RotatePoint(t, AddVectors(w, off), w, Num(e.rotation)) == pivot
  {
    var rot := Num(e.rotation);
    var c := Center(e);
    var localMouse := RotatePoint(t, worldPos, c, -rot);
    var lp := RotatePoint(t, pivot, c, -rot);
    var sx, sy := Sign(localMouse.x, lp.x), Sign(localMouse.y, lp.y);
    var n := f.localCenter;
    assert n == PivotedCenter(lp, localMouse, k, f.width, f.height);
    off := if IsHorizontalSide(k) then Point(-sx * (f.width / 2.0), 0.0) else Point(0.0, -sy * (f.height / 2.0));
    SignedHalf(sx, f.width / 2.0);
    SignedHalf(sy, f.height / 2.0);
    assert AddVectors(n, off) == lp;
    OffsetInTurnedFrame(t, c, n, off, rot);
    RotateRoundTrip(t, pivot, c, rot);
  }

  /** A half size taken against a sign of ±1. */
  lemma SignedHalf(s: real, h: real)
    requires s == 1.0 || s == -1.0
    ensures -s * h == if s == 1.0 then -h else h
  {
  }

  /** The point half a size away from the centre, in each axis, turned with the element, is one of its corners. */
  lemma CornerAtOffset(t: Trig, r: Element, w: Point, sx: real, sy: real, hw: real, hh: real, p: Point)
    requires (sx == 1.0 || sx == -1.0) && (sy == 1.0 || sy == -1.0)
    requires r.kind == Rect || r.kind == Circle
    requires r.kind == Rect ==> BoxCenter(r) == w && Num(r.width) == 2.0 * hw && Num(r.height) == 2.0 * hh
    requires r.kind == Circle ==> Point(r.x, r.y) == w && RadiusX(r) == hw && RadiusY(r) == hh
    requires p == RotatePoint(t, AddVectors(w, Point(-sx * hw, -sy * hh)), w, Num(r.rotation))
    ensures p in ElementCorners(t, r)
  {
    var rot := Num(r.rotation);
    var corners := ElementCorners(t, r);
    var q := AddVectors(w, Point(-sx * hw, -sy * hh));
    var qx := if sx == 1.0 then w.x - hw else w.x + hw;
    var qy := if sy == 1.0 then w.y - hh else w.y + hh;
    SignedHalf(sx, hw);
    SignedHalf(sy, hh);
    assert q == Point(qx, qy);
    var i := if sx == 1.0 && sy == 1.0 then 0 else if sy == 1.0 then 1 else if sx == -1.0 then 2 else 3;
    if r.kind == Rect {
      var rw, rh := Num(r.width), Num(r.height);
      var pts := [Point(r.x, r.y), Point(r.x + rw, r.y), Point(r.x + rw, r.y + rh), Point(r.x, r.y + rh)];
      assert q == pts[i];
      assert corners[i] == RotatePoint(t, pts[i], w, rot);
      assert corners[i] == p;
    } else {
      var rX, rY := RadiusX(r), RadiusY(r);
      var pts := [Point(r.x - rX, r.y - rY), Point(r.x + rX, r.y - rY), Point(r.x + rX, r.y + rY), Point(r.x - rX, r.y + rY)];
      assert q == pts[i];
      assert corners[i] == RotatePoint(t, pts[i], w, rot);
      assert corners[i] == p;
    }
  }

  // ---- Transforming a whole selection ------------------------------------------

  /**
   * What a group gesture captured at its start: the selected elements, their
   * box, and (for rotations) the pivot, the pointer's start angle and the
   * box's rotation.
   */
  datatype GroupState = GroupState(
    elements: Scene,
    boundingBox: Element,
    pivot: Option<Point>,
    startAngle: Option<real>,
    rotation: Option<real>)

  /** What a group transform hands back: the new scene and the new group box. */
  datatype GroupResult = GroupResult(updatedElements: Scene, newBoundingBox: Element)

  /** `size ? size / 2 : 0`. */
  function HalfOrZero(o: Option<real>): (r: real)
    ensures r == Num(o) / 2.0
  {
    if o.Some? && o.value != 0.0 then o.value / 2.0 else 0.0
  }

  /** The centre a group transform reads for an element: its box centre, absent sizes as 0. */
  function GroupMemberCenter(e: Element): (r: Point)
    ensures r == BoxCenter(e)
  {
    Point(e.x + HalfOrZero(e.width), e.y + HalfOrZero(e.height))
  }

  /** One element under a group rotation by `delta` about `groupCenter`. */
  function RotateMember(t: Trig, el: Element, selectedIds: seq<Id>, groupCenter: Point, delta: real,
                        initial: Scene): (r: Element)
    ensures !(el.id in selectedIds) || FindById(initial, el.id).None? ==> r == el
    ensures el.id in selectedIds && FindById(initial, el.id).Some? ==>
              r == el.(x := r.x, y := r.y, rotation := Some(Rotation(FindById(initial, el.id).value) + delta)) &&
              GroupMemberCenter(r) == RotatePoint(t, GroupMemberCenter(FindById(initial, el.id).value), groupCenter, delta)
  {
    if !(el.id in selectedIds) then el
    else
      var init := FindById(initial, el.id);
      if init.None? then el
      else
        var rotatedCenter := RotatePoint(t, GroupMemberCenter(init.value), groupCenter, delta);
        el.(x := rotatedCenter.x - HalfOrZero(el.width), y := rotatedCenter.y - HalfOrZero(el.height),
            rotation := Some(Rotation(init.value) + delta))
  }

  function RotateMembers(t: Trig, els: Scene, selectedIds: seq<Id>, groupCenter: Point, delta: real,
                         initial: Scene): (r: Scene)
    ensures |r| == |els| && forall i :: 0 <= i < |els| ==> r[i] == RotateMember(t, els[i], selectedIds, groupCenter, delta, initial)
  {
    if els == [] then []
    else [RotateMember(t, els[0], selectedIds, groupCenter, delta, initial)] +
         RotateMembers(t, els[1..], selectedIds, groupCenter, delta, initial)
  }

  /**
   * `transformGroup_rotate`: turns every selected element's centre about
   * the group centre by the angle added since the gesture started, adds the
   * same angle to each element's start rotation, and turns the group box
   * with them. Unselected elements, and selected ones missing from the start
   * state, are kept.
   */
  function TransformGroupRotate(t: Trig, els: Scene, selectedIds: seq<Id>, groupCenter: Point,
                                newAngle: real, initial: GroupState): (r: GroupResult)
    ensures |r.updatedElements| == |els|
    ensures forall i :: 0 <= i < |els| ==>
              r.updatedElements[i] == RotateMember(t, els[i], selectedIds, groupCenter,
                                                   newAngle - Or(initial.rotation, 0.0), initial.elements)
    ensures r.newBoundingBox == initial.boundingBox.(x := r.newBoundingBox.x, y := r.newBoundingBox.y,
                                                    rotation := Some(newAngle))
    ensures BoxCenter(r.newBoundingBox) ==
              RotatePoint(t, BoxCenter(initial.boundingBox), groupCenter, newAngle - Or(initial.rotation, 0.0))
  {
    var delta := newAngle - Or(initial.rotation, 0.0);
    var box := initial.boundingBox;
    var initialBoxCenter := Point(box.x + Num(box.width) / 2.0, box.y + Num(box.height) / 2.0);
    var newBoxCenter := RotatePoint(t, initialBoxCenter, groupCenter, delta);
    GroupResult(
      RotateMembers(t, els, selectedIds, groupCenter, delta, initial.elements),
      box.(x := newBoxCenter.x - Num(box.width) / 2.0, y := newBoxCenter.y - Num(box.height) / 2.0,
           rotation := Some(newAngle)))
  }

  /**
   * A group rotation is rigid: under the trigonometric identities at the
   * added angle, two selected members keep their distance to each other and
   * to the group centre, and the group box keeps its distance to that centre.
   */
  lemma GroupRotateIsRigid(t: Trig, els: Scene, selectedIds: seq<Id>, groupCenter: Point, newAngle: real,
                           initial: GroupState, i: int, j: int)
    requires t.IdentitiesAt(newAngle - Or(initial.rotation, 0.0))
    requires 0 <= i < |els| && els[i].id in selectedIds && FindById(initial.elements, els[i].id).Some?
    requires 0 <= j < |els| && els[j].id in selectedIds && FindById(initial.elements, els[j].id).Some?
    ensures var r := TransformGroupRotate(t, els, selectedIds, groupCenter, newAngle, initial);
            var si, sj := FindById(initial.elements, els[i].id).value, FindById(initial.elements, els[j].id).value;
            SquaredDistance(GroupMemberCenter(r.updatedElements[i]), GroupMemberCenter(r.updatedElements[j])) ==
              SquaredDistance(GroupMemberCenter(si), GroupMemberCenter(sj)) &&
            SquaredDistance(GroupMemberCenter(r.updatedElements[i]), groupCenter) ==
              SquaredDistance(GroupMemberCenter(si), groupCenter) &&
            SquaredDistance(BoxCenter(r.newBoundingBox), groupCenter) ==
              SquaredDistance(BoxCenter(initial.boundingBox), groupCenter)
  {
    var delta := newAngle - Or(initial.rotation, 0.0);
    var r := TransformGroupRotate(t, els, selectedIds, groupCenter, newAngle, initial);
    var si, sj := FindById(initial.elements, els[i].id).value, FindById(initial.elements, els[j].id).value;
    var ci, cj := GroupMemberCenter(si), GroupMemberCenter(sj);
    assert GroupMemberCenter(r.updatedElements[i]) == RotatePoint(t, ci, groupCenter, delta);
    assert GroupMemberCenter(r.updatedElements[j]) == RotatePoint(t, cj, groupCenter, delta);
    assert RotatePoint(t, groupCenter, groupCenter, delta) == groupCenter;
    RotateKeepsDistance(t, ci, cj, groupCenter, delta);
    RotateKeepsDistance(t, ci, groupCenter, groupCenter, delta);
    RotateKeepsDistance(t, BoxCenter(initial.boundingBox), groupCenter, groupCenter, delta);
  }

  /**
   * Rotating the group back to its start angle restores every selected
   * element whose size did not change to its start position and rotation,
   * and the group box to its start position.
   */
  lemma GroupRotateBackRestores(t: Trig, els: Scene, selectedIds: seq<Id>, groupCenter: Point,
                                initial: GroupState, i: int)
    requires t.ZeroAngle() && 0 <= i < |els|
    requires els[i].id in selectedIds && FindById(initial.elements, els[i].id).Some?
    requires var s := FindById(initial.elements, els[i].id).value;
             els[i].width == s.width && els[i].height == s.height
    ensures var r := TransformGroupRotate(t, els, selectedIds, groupCenter, Or(initial.rotation, 0.0), initial);
            var s := FindById(initial.elements, els[i].id).value;
            r.updatedElements[i] == els[i].(x := s.x, y := s.y, rotation := Some(Rotation(s))) &&
            r.newBoundingBox.x == initial.boundingBox.x && r.newBoundingBox.y == initial.boundingBox.y
  {
    var s := FindById(initial.elements, els[i].id).value;
    var delta := Or(initial.rotation, 0.0) - Or(initial.rotation, 0.0);
    assert delta == 0.0;
    assert RotatePoint(t, GroupMemberCenter(s), groupCenter, delta) == GroupMemberCenter(s);
    var box := initial.boundingBox;
    var bc := Point(box.x + Num(box.width) / 2.0, box.y + Num(box.height) / 2.0);
    assert RotatePoint(t, bc, groupCenter, delta) == bc;
  }

  /** `box.width ? new / initial : 1`. */
  function ScaleFactor(initialSize: Option<real>, newSize: Option<real>): (r: real)
    ensures initialSize.None? || initialSize.value == 0.0 ==> r == 1.0
    ensures initialSize.Some? && initialSize.value != 0.0 ==> r * initialSize.value == Num(newSize)
    ensures initialSize == newSize ==> r == 1.0
  {
    if initialSize.Some? && initialSize.value != 0.0 then
      var v := initialSize.value;
      assert v / v == 1.0;
      Num(newSize) / v
    else 1.0
  }

  /** A size scaled by how much the box grew along that axis. */
  function Scaled(v: real, initialSize: Option<real>, newSize: Option<real>): (r: real)
    ensures initialSize == newSize ==> r == v
  {
    v * ScaleFactor(initialSize, newSize)
  }

  /** A member's offset from a box's centre, read in the box's own frame. */
  function LocalOffset(t: Trig, s: Element, box: Element): Point {
    RotatePoint(t, SubtractVectors(BoxCenter(box), GroupMemberCenter(s)), Origin, -Num(box.rotation))
  }

  /** The point at offset `v`, turned by `a`, from `c`. */
  function OffsetFrom(t: Trig, c: Point, v: Point, a: real): Point {
    var w := RotatePoint(t, v, Origin, a);
    Point(c.x + w.x, c.y + w.y)
  }

  /** A member's local offset in the start box, scaled by the box's growth on each axis. */
  function ScaledLocalOffset(t: Trig, s: Element, initialBox: Element, newBox: Element): Point {
    var local := LocalOffset(t, s, initialBox);
    Point(local.x * ScaleFactor(initialBox.width, newBox.width),
          local.y * ScaleFactor(initialBox.height, newBox.height))
  }

  /**
   * Where a member's centre goes when its group box is resized: its offset
   * from the box centre, read in the box's start frame, scaled per axis and
   * read back in the box's new frame.
   */
  function ResizedMemberCenter(t: Trig, s: Element, initialBox: Element, newBox: Element): Point {
    OffsetFrom(t, BoxCenter(newBox), ScaledLocalOffset(t, s, initialBox, newBox), Num(newBox.rotation))
  }

  /**
   * A member keeps its place in the group box's frame, scaled per axis: its
   * new centre's offset from the new box centre, read in the new box's
   * frame, is its start offset from the start box centre, read in the start
   * box's frame, times the box's growth on each axis.
   */
  lemma ResizedMemberScalesLocalOffset(t: Trig, s: Element, initialBox: Element, newBox: Element)
    requires t.IdentitiesAt(Num(newBox.rotation))
    ensures RotatePoint(t, SubtractVectors(BoxCenter(newBox), ResizedMemberCenter(t, s, initialBox, newBox)),
                        Origin, -Num(newBox.rotation)) ==
              ScaledLocalOffset(t, s, initialBox, newBox)
  {
    TurnBackOffset(t, BoxCenter(newBox), ScaledLocalOffset(t, s, initialBox, newBox), Num(newBox.rotation));
  }

  /** The offset of `c + turn(v)` from `c`, turned back, is `v`. */
  lemma TurnBackOffset(t: Trig, c: Point, v: Point, a: real)
    requires t.IdentitiesAt(a)
    ensures RotatePoint(t, SubtractVectors(c, OffsetFrom(t, c, v, a)), Origin, -a) == v
  {
    var w := RotatePoint(t, v, Origin, a);
    assert SubtractVectors(c, OffsetFrom(t, c, v, a)) == w;
    RotateRoundTrip(t, v, Origin, a);
  }

  /** With the box unchanged, every member's centre stays where it started. */
  lemma ResizedMemberCenterUnchanged(t: Trig, s: Element, box: Element)
    requires t.IdentitiesAt(Num(box.rotation))
    ensures ResizedMemberCenter(t, s, box, box) == GroupMemberCenter(s)
  {
    var rot := Num(box.rotation);
    assert ScaleFactor(box.width, box.width) == 1.0;
    assert ScaleFactor(box.height, box.height) == 1.0;
    var c := BoxCenter(box);
    var ec := GroupMemberCenter(s);
    var wv := Point(ec.x - c.x, ec.y - c.y);
    var lv := RotatePoint(t, wv, Origin, -rot);
    assert Point(lv.x * 1.0, lv.y * 1.0) == lv;
    RotateRoundTrip(t, wv, Origin, rot);
    assert RotatePoint(t, lv, Origin, rot) == wv;
  }

  /** One element under a group resize from `initialBox` to `newBox`. */
  function ResizeMember(t: Trig, el: Element, selectedIds: seq<Id>, initialBox: Element, newBox: Element,
                        initial: Scene): (r: Element)
    ensures !(el.id in selectedIds) || FindById(initial, el.id).None? || (el.kind != Rect && el.kind != Circle) ==> r == el
    ensures el.id in selectedIds && FindById(initial, el.id).Some? && el.kind == Rect ==>
              var s := FindById(initial, el.id).value;
              r == el.(x := r.x, y := r.y,
                       width := Some(Scaled(Num(s.width), initialBox.width, newBox.width)),
                       height := Some(Scaled(Num(s.height), initialBox.height, newBox.height)),
                       rotation := Some(Rotation(s) + (Num(newBox.rotation) - Num(initialBox.rotation)))) &&
              GroupMemberCenter(r) == ResizedMemberCenter(t, s, initialBox, newBox)
    ensures el.id in selectedIds && FindById(initial, el.id).Some? && el.kind == Circle ==>
              var s := FindById(initial, el.id).value;
              r == el.(x := r.x, y := r.y,
                       radiusX := Some(Scaled(RadiusX(s), initialBox.width, newBox.width)),
                       radiusY := Some(Scaled(RadiusY(s), initialBox.height, newBox.height)),
                       rotation := Some(Rotation(s) + (Num(newBox.rotation) - Num(initialBox.rotation)))) &&
              Point(r.x, r.y) == ResizedMemberCenter(t, s, initialBox, newBox)
  {
    if !(el.id in selectedIds) then el
    else
      var init := FindById(initial, el.id);
      if init.None? then el
      else
        var s := init.value;
        var c := ResizedMemberCenter(t, s, initialBox, newBox);
        var rotation := Some(Rotation(s) + (Num(newBox.rotation) - Num(initialBox.rotation)));
        if el.kind == Rect then
          var w, h := Scaled(Num(s.width), initialBox.width, newBox.width),
                      Scaled(Num(s.height), initialBox.height, newBox.height);
          el.(x := c.x - w / 2.0, y := c.y - h / 2.0, width := Some(w), height := Some(h), rotation := rotation)
        else if el.kind == Circle then
          el.(x := c.x, y := c.y,
              radiusX := Some(Scaled(RadiusX(s), initialBox.width, newBox.width)),
              radiusY := Some(Scaled(RadiusY(s), initialBox.height, newBox.height)),
              rotation := rotation)
        else el
  }

  /**
   * `transformGroup_resize`: every selected rectangle or circle keeps its
   * place relative to the group box, in the box's own frame, scaled by how
   * much the box grew on each axis; its size scales the same way and its
   * rotation follows the box's.
   */
  function TransformGroupResize(t: Trig, els: Scene, selectedIds: seq<Id>, newBox: Element,
                                initial: GroupState): (r: Scene)
    ensures |r| == |els|
    ensures forall i :: 0 <= i < |els| ==>
              r[i] == ResizeMember(t, els[i], selectedIds, initial.boundingBox, newBox, initial.elements)
  {
    if els == [] then []
    else [ResizeMember(t, els[0], selectedIds, initial.boundingBox, newBox, initial.elements)] +
         TransformGroupResize(t, els[1..], selectedIds, newBox, initial)
  }

  /**
   * Resizing the group to its start box puts every selected rectangle back
   * at its start position, size and rotation.
   */
  lemma GroupResizeToStartRestores(t: Trig, els: Scene, selectedIds: seq<Id>, initial: GroupState, i: int)
    requires 0 <= i < |els| && els[i].kind == Rect
    requires els[i].id in selectedIds && FindById(initial.elements, els[i].id).Some?
    requires t.IdentitiesAt(Num(initial.boundingBox.rotation))
    ensures var s := FindById(initial.elements, els[i].id).value;
            TransformGroupResize(t, els, selectedIds, initial.boundingBox, initial)[i] ==
              els[i].(x := s.x, y := s.y, width := Some(Num(s.width)), height := Some(Num(s.height)),
                      rotation := Some(Rotation(s)))
  {
    var s := FindById(initial.elements, els[i].id).value;
    ResizedMemberCenterUnchanged(t, s, initial.boundingBox);
    assert ScaleFactor(initial.boundingBox.width, initial.boundingBox.width) == 1.0;
    assert ScaleFactor(initial.boundingBox.height, initial.boundingBox.height) == 1.0;
  }
}
