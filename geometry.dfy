/**
 * The editor's geometry kernel: rotation about a centre, element centres
 * and corners, bounding boxes of one element or of a selection, hit tests
 * for elements and for the eight resize handles plus the rotation handle,
 * and the screen-to-world conversion.
 */
module Geometry {
  import opened Model

  // ---- Points and vectors ------------------------------------------------

  /** Rotates `p` about `c` by `angle` radians (counter-clockwise in a y-up frame). */
  function RotatePoint(t: Trig, p: Point, c: Point, angle: real): (r: Point)
    ensures p == c ==> r == c
  {
    var cos := t.cos(angle);
    var sin := t.sin(angle);
    var dx := p.x - c.x;
    var dy := p.y - c.y;
    Point(c.x + dx * cos - dy * sin, c.y + dx * sin + dy * cos)
  }

  /** Rotates a vector about the origin. */
  function RotateVector(t: Trig, v: Point, angle: real): (r: Point)
    ensures r == RotatePoint(t, v, Origin, angle)
  {
    Point(v.x * t.cos(angle) - v.y * t.sin(angle), v.x * t.sin(angle) + v.y * t.cos(angle))
  }

  /** `p2 - p1`. */
  function SubtractVectors(p1: Point, p2: Point): (r: Point)
    ensures Point(p1.x + r.x, p1.y + r.y) == p2
  {
    Point(p2.x - p1.x, p2.y - p1.y)
  }

  function AddVectors(p1: Point, p2: Point): (r: Point)
    ensures Point(r.x - p1.x, r.y - p1.y) == p2
  {
    Point(p1.x + p2.x, p1.y + p2.y)
  }

  /** Rotating about a centre is rotating the offset from it. */
  lemma RotatePointAsVector(t: Trig, p: Point, c: Point, a: real)
    ensures RotatePoint(t, p, c, a) == AddVectors(c, RotateVector(t, SubtractVectors(c, p), a))
  {
    var v := SubtractVectors(c, p);
    var rv := RotateVector(t, v, a);
    var rp := RotatePoint(t, p, c, a);
    assert rp.x == c.x + (p.x - c.x) * t.cos(a) - (p.y - c.y) * t.sin(a);
    assert rp.y == c.y + (p.x - c.x) * t.sin(a) + (p.y - c.y) * t.cos(a);
    assert rp.x == c.x + rv.x && rp.y == c.y + rv.y;
  }

  /** Vector rotation is additive. */
  lemma RotateVectorAdditive(t: Trig, u: Point, v: Point, a: real)
    ensures RotateVector(t, AddVectors(u, v), a) == AddVectors(RotateVector(t, u, a), RotateVector(t, v, a))
  {
    var co, s := t.cos(a), t.sin(a);
    assert (u.x + v.x) * co == u.x * co + v.x * co;
    assert (u.y + v.y) * s == u.y * s + v.y * s;
    assert (u.x + v.x) * s == u.x * s + v.x * s;
    assert (u.y + v.y) * co == u.y * co + v.y * co;
  }

  /** The square of the distance between two points. */
  function SquaredDistance(p: Point, q: Point): real {
    var dx, dy := p.x - q.x, p.y - q.y;
    dx * dx + dy * dy
  }

  /** A non-zero number has a non-zero square. */
  lemma NonZeroSquare(d: real)
    requires d != 0.0
    ensures d * d != 0.0
  {
  }

  /** Turning two points about the same centre by the same angle keeps their distance. */
  lemma RotateKeepsDistance(t: Trig, p: Point, q: Point, c: Point, a: real)
    requires t.IdentitiesAt(a)
    ensures SquaredDistance(RotatePoint(t, p, c, a), RotatePoint(t, q, c, a)) == SquaredDistance(p, q)
  {
    var co, s := t.cos(a), t.sin(a);
    var dx, dy := p.x - q.x, p.y - q.y;
    var p', q' := RotatePoint(t, p, c, a), RotatePoint(t, q, c, a);
    RotatedDifference(t, p, q, c, a);
    SquaredDistanceOf(p', q', dx * co - dy * s, dx * s + dy * co);
    SquaredDistanceOf(p, q, dx, dy);
    TurnedOffsetLength(dx, dy, co, s);
  }

  /** The difference of two turned points is their difference, turned. */
  lemma RotatedDifference(t: Trig, p: Point, q: Point, c: Point, a: real)
    ensures var p', q' := RotatePoint(t, p, c, a), RotatePoint(t, q, c, a);
            p'.x - q'.x == (p.x - q.x) * t.cos(a) - (p.y - q.y) * t.sin(a) &&
            p'.y - q'.y == (p.x - q.x) * t.sin(a) + (p.y - q.y) * t.cos(a)
  {
    var co, s := t.cos(a), t.sin(a);
    assert (p.x - c.x) * co - (q.x - c.x) * co == (p.x - q.x) * co;
    assert (p.y - c.y) * s - (q.y - c.y) * s == (p.y - q.y) * s;
    assert (p.x - c.x) * s - (q.x - c.x) * s == (p.x - q.x) * s;
    assert (p.y - c.y) * co - (q.y - c.y) * co == (p.y - q.y) * co;
  }

  /** The squared distance of two points whose differences are known. */
  lemma SquaredDistanceOf(p: Point, q: Point, ex: real, ey: real)
    requires p.x - q.x == ex && p.y - q.y == ey
    ensures SquaredDistance(p, q) == ex * ex + ey * ey
  {
  }

  /** An offset turned by a unit (cos, sin) pair keeps its squared length. */
  lemma TurnedOffsetLength(dx: real, dy: real, co: real, s: real)
    requires co * co + s * s == 1.0
    ensures (dx * co - dy * s) * (dx * co - dy * s) + (dx * s + dy * co) * (dx * s + dy * co) == dx * dx + dy * dy
  {
    calc {
      (dx * co - dy * s) * (dx * co - dy * s) + (dx * s + dy * co) * (dx * s + dy * co);
      dx * dx * (co * co + s * s) + dy * dy * (co * co + s * s);
      dx * dx + dy * dy;
    }
  }

  /** Rotating by an angle and back by its negation returns the point. */
  lemma RotateRoundTrip(t: Trig, p: Point, c: Point, a: real)
    requires t.IdentitiesAt(a)
    ensures RotatePoint(t, RotatePoint(t, p, c, a), c, -a) == p
    ensures RotatePoint(t, RotatePoint(t, p, c, -a), c, a) == p
  {
    var co, s := t.cos(a), t.sin(a);
    var dx, dy := p.x - c.x, p.y - c.y;
    // forward then backward
    var q := RotatePoint(t, p, c, a);
    assert q.x - c.x == dx * co - dy * s && q.y - c.y == dx * s + dy * co;
    calc {
      (dx * co - dy * s) * co - (dx * s + dy * co) * (-s);
      dx * (co * co + s * s);
      dx;
    }
    calc {
      (dx * co - dy * s) * (-s) + (dx * s + dy * co) * co;
      dy * (co * co + s * s);
      dy;
    }
    // backward then forward
    var q' := RotatePoint(t, p, c, -a);
    assert q'.x - c.x == dx * co + dy * s && q'.y - c.y == -dx * s + dy * co;
    calc {
      (dx * co + dy * s) * co - (-dx * s + dy * co) * s;
      dx * (co * co + s * s);
      dx;
    }
    calc {
      (dx * co + dy * s) * s + (-dx * s + dy * co) * co;
      dy * (co * co + s * s);
      dy;
    }
  }

  /** Taking a screen coordinate to the world and back gives it again. */
  lemma WorldCoordinateRoundTrip(v: real, o: real, scale: Scale)
    ensures ((v - o) / scale) * scale + o == v
  {
    var w := (v - o) / scale;
    assert w * scale == v - o;
  }

  /** `getPointInWorld`: a screen point in world coordinates. */
  function PointInWorld(p: Point, offset: Point, scale: Scale): (r: Point)
    ensures Point(r.x * scale + offset.x, r.y * scale + offset.y) == p
  {
    WorldCoordinateRoundTrip(p.x, offset.x, scale);
    WorldCoordinateRoundTrip(p.y, offset.y, scale);
    Point((p.x - offset.x) / scale, (p.y - offset.y) / scale)
  }

  // ---- Centres, corners and bounding boxes -------------------------------

  /**
   * `getElementCenter`: the centre of a box (top-left plus half the size),
   * the position of a circle, the position of an element with no size.
   */
  function Center(e: Element): (r: Point)
    ensures e.kind == Circle ==> r == Point(e.x, e.y)
    ensures e.kind == Text ==> r == Point(e.x + Num(e.width) / 2.0, e.y + Num(e.height) / 2.0)
    ensures e.kind != Circle && e.kind != Text && e.width.Some? && e.height.Some? ==>
              r == Point(e.x + e.width.value / 2.0, e.y + e.height.value / 2.0)
    ensures e.kind != Circle && e.kind != Text && (e.width.None? || e.height.None?) ==>
              r == Point(e.x, e.y)
  {
    match e.kind
    case Text => Point(e.x + Num(e.width) / 2.0, e.y + Num(e.height) / 2.0)
    case Circle => Point(e.x, e.y)
    case _ =>
      if e.width.Some? && e.height.Some? then
        Point(e.x + e.width.value / 2.0, e.y + e.height.value / 2.0)
      else Point(e.x, e.y)
  }

  /** `getElementCenter` on a value that may be null. */
  function CenterOrOrigin(e: Option<Element>): (r: Point)
    ensures e.None? ==> r == Origin
  {
    if e.None? then Origin else Center(e.value)
  }

  /** The centre of a rectangle's drawn box: absent sizes count as 0. */
  function BoxCenter(e: Element): Point {
    Point(e.x + Num(e.width) / 2.0, e.y + Num(e.height) / 2.0)
  }

  /**
   * `_getElementCorners`: the four corners of a rectangle (or of a circle's
   * box) in the order top-left, top-right, bottom-right, bottom-left, each
   * rotated about the element's centre by its rotation; none for other kinds.
   */
  function ElementCorners(t: Trig, e: Element): (r: seq<Point>)
    ensures e.kind == Rect || e.kind == Circle ==> |r| == 4
    ensures e.kind != Rect && e.kind != Circle ==> r == []
  {
    var rot := Num(e.rotation);
    if e.kind == Rect then
      var w, h := Num(e.width), Num(e.height);
      var c := BoxCenter(e);
      [RotatePoint(t, Point(e.x, e.y), c, rot),
       RotatePoint(t, Point(e.x + w, e.y), c, rot),
       RotatePoint(t, Point(e.x + w, e.y + h), c, rot),
       RotatePoint(t, Point(e.x, e.y + h), c, rot)]
    else if e.kind == Circle then
      var rX, rY := RadiusX(e), RadiusY(e);
      var c := Point(e.x, e.y);
      [RotatePoint(t, Point(e.x - rX, e.y - rY), c, rot),
       RotatePoint(t, Point(e.x + rX, e.y - rY), c, rot),
       RotatePoint(t, Point(e.x + rX, e.y + rY), c, rot),
       RotatePoint(t, Point(e.x - rX, e.y + rY), c, rot)]
    else []
  }

  /** Points at opposite offsets from the centre stay opposite after rotation. */
  lemma RotateOppositeOffsets(t: Trig, c: Point, dx: real, dy: real, a: real)
    ensures var p := RotatePoint(t, Point(c.x + dx, c.y + dy), c, a);
            var q := RotatePoint(t, Point(c.x - dx, c.y - dy), c, a);
            p.x + q.x == 2.0 * c.x && p.y + q.y == 2.0 * c.y
  {
    var co, s := t.cos(a), t.sin(a);
    var p := RotatePoint(t, Point(c.x + dx, c.y + dy), c, a);
    var q := RotatePoint(t, Point(c.x - dx, c.y - dy), c, a);
    assert p.x == c.x + dx * co - dy * s && q.x == c.x + (-dx) * co - (-dy) * s;
    assert p.y == c.y + dx * s + dy * co && q.y == c.y + (-dx) * s + (-dy) * co;
  }

  /** Opposite corners are symmetric about the element's centre. */
  lemma CornersSymmetricAboutCenter(t: Trig, e: Element)
    requires e.kind == Circle || (e.kind == Rect && e.width.Some? && e.height.Some?)
    ensures var r := ElementCorners(t, e);
            var c := Center(e);
            r[0].x + r[2].x == 2.0 * c.x && r[0].y + r[2].y == 2.0 * c.y &&
            r[1].x + r[3].x == 2.0 * c.x && r[1].y + r[3].y == 2.0 * c.y
  {
    var rot := Num(e.rotation);
    var hw, hh := if e.kind == Rect then Num(e.width) / 2.0 else RadiusX(e),
                  if e.kind == Rect then Num(e.height) / 2.0 else RadiusY(e);
    var c := if e.kind == Rect then BoxCenter(e) else Point(e.x, e.y);
    assert c == Center(e);
    var r := ElementCorners(t, e);
    assert r[0] == RotatePoint(t, Point(c.x - hw, c.y - hh), c, rot);
    assert r[1] == RotatePoint(t, Point(c.x + hw, c.y - hh), c, rot);
    assert r[2] == RotatePoint(t, Point(c.x + hw, c.y + hh), c, rot);
    assert r[3] == RotatePoint(t, Point(c.x - hw, c.y + hh), c, rot);
    RotateOppositeOffsets(t, c, hw, hh, rot);
    RotateOppositeOffsets(t, c, -hw, hh, rot);
  }

  function Xs(pts: seq<Point>): (r: seq<real>)
    ensures |r| == |pts| && forall i :: 0 <= i < |pts| ==> r[i] == pts[i].x
  {
    if pts == [] then [] else [pts[0].x] + Xs(pts[1..])
  }

  function Ys(pts: seq<Point>): (r: seq<real>)
    ensures |r| == |pts| && forall i :: 0 <= i < |pts| ==> r[i] == pts[i].y
  {
    if pts == [] then [] else [pts[0].y] + Ys(pts[1..])
  }

  /** `Math.min(...s)` on a non-empty list. */
  function SeqMin(s: seq<real>): (r: real)
    requires |s| > 0
    ensures r in s && forall i :: 0 <= i < |s| ==> r <= s[i]
  {
    if |s| == 1 then s[0] else Min(s[0], SeqMin(s[1..]))
  }

  /** `Math.max(...s)` on a non-empty list. */
  function SeqMax(s: seq<real>): (r: real)
    requires |s| > 0
    ensures r in s && forall i :: 0 <= i < |s| ==> r >= s[i]
  {
    if |s| == 1 then s[0] else Max(s[0], SeqMax(s[1..]))
  }

  ghost predicate InBox(p: Point, b: Box) {
    b.x <= p.x <= b.x + b.width && b.y <= p.y <= b.y + b.height
  }

  /**
   * `_getBoundingBoxFromPoints`: the axis-aligned box from the least to the
   * greatest coordinate on each axis (the zero box when there are none).
   */
  function BoundingBoxFromPoints(pts: seq<Point>): (b: Box)
    ensures pts == [] ==> b == ZeroBox
    ensures b.width >= 0.0 && b.height >= 0.0
    ensures forall i :: 0 <= i < |pts| ==> InBox(pts[i], b)
  {
    if pts == [] then ZeroBox
    else
      var minX, minY := SeqMin(Xs(pts)), SeqMin(Ys(pts));
      var maxX, maxY := SeqMax(Xs(pts)), SeqMax(Ys(pts));
      Box(minX, minY, maxX - minX, maxY - minY)
  }

  /** The box from the points is the smallest one: any box holding every point holds it. */
  lemma BoundingBoxFromPointsSmallest(pts: seq<Point>, outer: Box)
    requires pts != [] && forall i :: 0 <= i < |pts| ==> InBox(pts[i], outer)
    ensures var b := BoundingBoxFromPoints(pts);
            outer.x <= b.x && b.x + b.width <= outer.x + outer.width &&
            outer.y <= b.y && b.y + b.height <= outer.y + outer.height
  {
    var b := BoundingBoxFromPoints(pts);
    var xs, ys := Xs(pts), Ys(pts);
    var i0 :| 0 <= i0 < |xs| && xs[i0] == SeqMin(xs);
    var i1 :| 0 <= i1 < |xs| && xs[i1] == SeqMax(xs);
    var j0 :| 0 <= j0 < |ys| && ys[j0] == SeqMin(ys);
    var j1 :| 0 <= j1 < |ys| && ys[j1] == SeqMax(ys);
    assert InBox(pts[i0], outer) && InBox(pts[i1], outer) && InBox(pts[j0], outer) && InBox(pts[j1], outer);
  }

  /** `elements.flatMap(_getElementCorners)`. */
  function AllCorners(t: Trig, els: Scene): (r: seq<Point>)
    ensures |els| > 0 ==> AllCorners(t, els) == ElementCorners(t, els[0]) + AllCorners(t, els[1..])
  {
    if els == [] then [] else ElementCorners(t, els[0]) + AllCorners(t, els[1..])
  }

  /** Every corner of a listed element is among the collected corners. */
  lemma {:induction false} CornersInAllCorners(t: Trig, els: Scene, i: int)
    requires 0 <= i < |els|
    ensures forall p :: p in ElementCorners(t, els[i]) ==> p in AllCorners(t, els)
  {
    if i > 0 {
      CornersInAllCorners(t, els[1..], i - 1);
      assert els[1..][i - 1] == els[i];
    }
  }

  /** An axis-aligned group box `{...box, type: 'group', rotation}`; the id is never read. */
  function GroupBox(b: Box, rotation: real): (e: Element)
    ensures e.kind == Group && e.x == b.x && e.y == b.y
    ensures e.width == Some(b.width) && e.height == Some(b.height) && e.rotation == Some(rotation)
  {
    Element(0, Group, b.x, b.y, Some(b.width), Some(b.height), Some(rotation),
            None, None, None, None, None, None, None, Plain)
  }

  /**
   * `getAxisAlignedBoundingBox`: null for no elements, otherwise the
   * unrotated group box around every corner of every element.
   */
  function AxisAlignedBoundingBox(t: Trig, els: Scene): (r: Option<Element>)
    ensures r.None? <==> els == []
    ensures r.Some? ==> r.value.kind == Group && r.value.rotation == Some(0.0)
  {
    if els == [] then None
    else Some(GroupBox(BoundingBoxFromPoints(AllCorners(t, els)), 0.0))
  }

  /** The axis-aligned box holds every corner of every element it was built from. */
  lemma AxisAlignedBoxHoldsCorners(t: Trig, els: Scene, i: int, p: Point)
    requires 0 <= i < |els| && p in ElementCorners(t, els[i])
    ensures var g := AxisAlignedBoundingBox(t, els).value;
            InBox(p, Box(g.x, g.y, g.width.value, g.height.value))
  {
    CornersInAllCorners(t, els, i);
  }

  /** The axis-aligned box of one unrotated rectangle of non-negative size is its own box. */
  lemma AxisAlignedBoxOfUnrotatedRect(t: Trig, el: Element)
    requires el.kind == Rect && Num(el.rotation) == 0.0 && t.ZeroAngle()
    requires Num(el.width) >= 0.0 && Num(el.height) >= 0.0
    ensures AxisAlignedBoundingBox(t, [el]) == Some(GroupBox(Box(el.x, el.y, Num(el.width), Num(el.height)), 0.0))
  {
    AllCornersOfOne(t, el);
    UnrotatedRectCornersBox(t, el);
  }

  lemma UnrotatedRectCornersBox(t: Trig, el: Element)
    requires el.kind == Rect && Num(el.rotation) == 0.0 && t.ZeroAngle()
    requires Num(el.width) >= 0.0 && Num(el.height) >= 0.0
    ensures BoundingBoxFromPoints(ElementCorners(t, el)) == Box(el.x, el.y, Num(el.width), Num(el.height))
  {
    UnrotatedRectCorners(t, el);
    var pts := ElementCorners(t, el);
    BoxCornersBoundingBox(pts, el.x, el.y, Num(el.width), Num(el.height));
  }

  lemma AllCornersOfOne(t: Trig, el: Element)
    ensures AllCorners(t, [el]) == ElementCorners(t, el)
  {
    assert AllCorners(t, [el]) == ElementCorners(t, el) + AllCorners(t, [el][1..]);
    assert [el][1..] == [];
  }

  /** The bounding box of a box's four corners is that box. */
  lemma BoxCornersBoundingBox(pts: seq<Point>, x: real, y: real, w: real, h: real)
    requires w >= 0.0 && h >= 0.0
    requires |pts| == 4 && pts[0] == Point(x, y) && pts[1] == Point(x + w, y)
    requires pts[2] == Point(x + w, y + h) && pts[3] == Point(x, y + h)
    ensures BoundingBoxFromPoints(pts) == Box(x, y, w, h)
  {
    var xs, ys := Xs(pts), Ys(pts);
    assert forall k :: 0 <= k < 4 ==> x <= xs[k] <= x + w && y <= ys[k] <= y + h;
    SeqMinMaxOfSpan(xs, x, x + w, 0, 1);
    SeqMinMaxOfSpan(ys, y, y + h, 0, 2);
  }

  /** Unturned, a rectangle's corners are those of its own box. */
  lemma UnrotatedRectCorners(t: Trig, el: Element)
    requires el.kind == Rect && Num(el.rotation) == 0.0 && t.ZeroAngle()
    ensures var w, h := Num(el.width), Num(el.height);
            ElementCorners(t, el) ==
              [Point(el.x, el.y), Point(el.x + w, el.y), Point(el.x + w, el.y + h), Point(el.x, el.y + h)]
  {
    var w, h := Num(el.width), Num(el.height);
    var c := BoxCenter(el);
    assert RotatePoint(t, Point(el.x, el.y), c, 0.0) == Point(el.x, el.y);
    assert RotatePoint(t, Point(el.x + w, el.y), c, 0.0) == Point(el.x + w, el.y);
    assert RotatePoint(t, Point(el.x + w, el.y + h), c, 0.0) == Point(el.x + w, el.y + h);
    assert RotatePoint(t, Point(el.x, el.y + h), c, 0.0) == Point(el.x, el.y + h);
  }

  /** A list whose values lie between two of its own entries has those as its least and greatest values. */
  lemma SeqMinMaxOfSpan(s: seq<real>, lo: real, hi: real, i: int, j: int)
    requires 0 <= i < |s| && 0 <= j < |s| && s[i] == lo && s[j] == hi
    requires forall k :: 0 <= k < |s| ==> lo <= s[k] <= hi
    ensures SeqMin(s) == lo && SeqMax(s) == hi
  {
  }

  /**
   * `getElementBoundingBox`: a rectangle's own box when unrotated, otherwise
   * the box around its rotated corners; a circle's box from its radii
   * (widened through sqrt when rotated); the zero box for other kinds.
   */
  function ElementBoundingBox(t: Trig, e: Element): (b: Box)
    ensures e.kind == Rect && Num(e.rotation) == 0.0 ==> b == Box(e.x, e.y, Num(e.width), Num(e.height))
    ensures e.kind == Rect && Num(e.rotation) != 0.0 ==> forall p :: p in ElementCorners(t, e) ==> InBox(p, b)
    ensures e.kind == Circle && Num(e.rotation) == 0.0 ==>
              b == Box(e.x - RadiusX(e), e.y - RadiusY(e), 2.0 * RadiusX(e), 2.0 * RadiusY(e))
    ensures e.kind == Circle ==> b.x + b.width / 2.0 == e.x && b.y + b.height / 2.0 == e.y
    ensures e.kind != Rect && e.kind != Circle ==> b == ZeroBox
  {
    var rotation := Num(e.rotation);
    if e.kind == Rect then
      if rotation == 0.0 then Box(e.x, e.y, Num(e.width), Num(e.height))
      else BoundingBoxFromPoints(ElementCorners(t, e))
    else if e.kind == Circle then
      var rX, rY := RadiusX(e), RadiusY(e);
      if rotation == 0.0 then Box(e.x - rX, e.y - rY, 2.0 * rX, 2.0 * rY)
      else
        var cos, sin := t.cos(rotation), t.sin(rotation);
        var w := t.sqrt(rX * rX * cos * cos + rY * rY * sin * sin);
        var h := t.sqrt(rX * rX * sin * sin + rY * rY * cos * cos);
        Box(e.x - w, e.y - h, 2.0 * w, 2.0 * h)
    else ZeroBox
  }

  /** An unrotated rectangle's corners are its own box's corners, so they lie in it. */
  lemma UnrotatedRectCornersInBox(t: Trig, e: Element)
    requires e.kind == Rect && Num(e.rotation) == 0.0 && t.ZeroAngle()
    requires Num(e.width) >= 0.0 && Num(e.height) >= 0.0
    ensures forall p :: p in ElementCorners(t, e) ==> InBox(p, ElementBoundingBox(t, e))
  {
    var c := BoxCenter(e);
    var w, h := Num(e.width), Num(e.height);
    var r := ElementCorners(t, e);
    assert r[0] == Point(e.x, e.y);
    assert r[1] == Point(e.x + w, e.y);
    assert r[2] == Point(e.x + w, e.y + h);
    assert r[3] == Point(e.x, e.y + h);
  }

  // ---- Group selection box ------------------------------------------------

  /** `[...new Set(s)]`: the distinct values in order of first appearance. */
  function Dedup(s: seq<real>): (r: seq<real>)
    ensures forall x :: x in r <==> x in s
    ensures forall i, j :: 0 <= i < j < |r| ==> r[i] != r[j]
  {
    if s == [] then []
    else
      var init, last := s[..|s| - 1], s[|s| - 1];
      var d := Dedup(init);
      assert s == init + [last];
      if last in d then d
      else
        var r := d + [last];
        assert forall i :: 0 <= i < |d| ==> r[i] == d[i] && r[i] != last;
        r
  }

  /**
   * `Dedup` keeps the order of first appearance: of two values it returns,
   * the earlier one appears in the input before the later one first does.
   */
  lemma {:induction false} DedupKeepsFirstAppearanceOrder(s: seq<real>)
    ensures forall i, j :: 0 <= i < j < |Dedup(s)| ==>
              exists k :: 0 <= k < |s| && s[k] == Dedup(s)[i] && Dedup(s)[j] !in s[..k + 1]
  {
    if s != [] {
      var init, last := s[..|s| - 1], s[|s| - 1];
      var d := Dedup(init);
      var r := Dedup(s);
      assert s == init + [last];
      assert r == d || r == d + [last];
      DedupKeepsFirstAppearanceOrder(init);
      forall i, j | 0 <= i < j < |r|
        ensures exists k :: 0 <= k < |s| && s[k] == r[i] && r[j] !in s[..k + 1]
      {
        assert r[i] == d[i];
        if j < |d| {
          assert r[j] == d[j];
          assert exists k :: 0 <= k < |init| && init[k] == d[i] && d[j] !in init[..k + 1];
          var k :| 0 <= k < |init| && init[k] == d[i] && d[j] !in init[..k + 1];
          assert s[..k + 1] == init[..k + 1];
          assert s[k] == r[i];
        } else {
          assert r[j] == last && last !in init;
          assert d[i] in init;
          var k :| 0 <= k < |init| && init[k] == d[i];
          assert s[..k + 1] == init[..k + 1];
          assert s[k] == r[i];
        }
      }
    } else {
      assert Dedup(s) == [];
    }
  }

  /** `elements.map(el => el.rotation || 0)`. */
  function Rotations(els: Scene): (r: seq<real>)
    ensures |r| == |els| && forall i :: 0 <= i < |els| ==> r[i] == Rotation(els[i])
  {
    if els == [] then [] else [Rotation(els[0])] + Rotations(els[1..])
  }

  /**
   * The angles tried for a group box: the forced angle alone, or every
   * distinct element rotation in order of first appearance, with 0
   * appended at the end when no element has it.
   */
  function CandidateAngles(els: Scene, forced: Option<real>): (r: seq<real>)
    ensures |r| > 0
    ensures forced.Some? ==> r == [forced.value]
    ensures forced.None? ==> 0.0 in r && forall a :: a in r <==> a == 0.0 || a in Rotations(els)
  {
    if forced.Some? then [forced.value]
    else
      var d := Dedup(Rotations(els));
      if 0.0 in d then d else d + [0.0]
  }

  /**
   * Without a forced angle each candidate is tried once, the rotations in
   * order of first appearance, and 0 last when no element has it; this
   * order decides which angle wins a tie in area.
   */
  lemma CandidateAnglesOrder(els: Scene)
    ensures var r := CandidateAngles(els, None);
            forall i, j :: 0 <= i < j < |r| ==> r[i] != r[j]
    ensures var r := CandidateAngles(els, None);
            0.0 !in Rotations(els) ==> r[|r| - 1] == 0.0
    ensures var r := CandidateAngles(els, None);
            var rots := Rotations(els);
            forall i, j :: 0 <= i < j < |r| && r[j] in rots ==>
              exists k :: 0 <= k < |rots| && rots[k] == r[i] && r[j] !in rots[..k + 1]
  {
    var r := CandidateAngles(els, None);
    var d := Dedup(Rotations(els));
    DedupKeepsFirstAppearanceOrder(Rotations(els));
    if 0.0 !in d {
      assert r == d + [0.0];
      assert forall i :: 0 <= i < |d| ==> r[i] == d[i];
      assert r[|d|] !in Rotations(els);
    }
  }

  /** The vertices rotated by `-angle` about the origin. */
  function RotateAll(t: Trig, pts: seq<Point>, angle: real): (r: seq<Point>)
    ensures |r| == |pts| && forall i :: 0 <= i < |pts| ==> r[i] == RotatePoint(t, pts[i], Origin, -angle)
  {
    if pts == [] then [] else [RotatePoint(t, pts[0], Origin, -angle)] + RotateAll(t, pts[1..], angle)
  }

  /** The box around the vertices seen in a frame turned by `angle`. */
  function FrameBox(t: Trig, pts: seq<Point>, angle: real): Box {
    BoundingBoxFromPoints(RotateAll(t, pts, angle))
  }

  function Area(b: Box): real {
    b.width * b.height
  }

  /** The box area each candidate angle gives. */
  function Areas(t: Trig, pts: seq<Point>, cands: seq<real>): (r: seq<real>)
    ensures |r| == |cands|
  {
    if cands == [] then [] else [Area(FrameBox(t, pts, cands[0]))] + Areas(t, pts, cands[1..])
  }

  lemma {:induction false} AreasAt(t: Trig, pts: seq<Point>, cands: seq<real>, i: int)
    requires 0 <= i < |cands|
    ensures Areas(t, pts, cands)[i] == Area(FrameBox(t, pts, cands[i]))
  {
    if i > 0 {
      AreasAt(t, pts, cands[1..], i - 1);
    }
  }

  /**
   * The index the loop keeps among the first `n` areas: the first smallest
   * one (a later area replaces it only when strictly smaller).
   */
  function FirstMinIndex(areas: seq<real>, n: nat): (k: nat)
    requires 0 < n <= |areas|
    ensures k < n
    ensures forall j :: 0 <= j < n ==> areas[k] <= areas[j]
    ensures forall j :: 0 <= j < k ==> areas[j] > areas[k]
  {
    if n == 1 then 0
    else
      var b := FirstMinIndex(areas, n - 1);
      if areas[n - 1] < areas[b] then n - 1 else b
  }

  /** The angle the group box takes among the candidates. */
  function BestAngle(t: Trig, pts: seq<Point>, cands: seq<real>): (a: real)
    requires |cands| > 0
    ensures a in cands
  {
    cands[FirstMinIndex(Areas(t, pts, cands), |cands|)]
  }

  /** The group box of the chosen frame: its centre turned back, its size kept. */
  function BoxInFrame(t: Trig, b: Box, angle: real): (e: Element)
    ensures e.kind == Group && e.rotation == Some(angle)
    ensures e.width == Some(b.width) && e.height == Some(b.height)
  {
    var boxCenter := Point(b.x + b.width / 2.0, b.y + b.height / 2.0);
    var finalCenter := RotatePoint(t, boxCenter, Origin, angle);
    GroupBox(Box(finalCenter.x - b.width / 2.0, finalCenter.y - b.height / 2.0, b.width, b.height), angle)
  }

  /** The box around the vertices in the frame of the best candidate angle. */
  function BestFrameBox(t: Trig, pts: seq<Point>, cands: seq<real>): (e: Element)
    requires |cands| > 0
    ensures e.kind == Group && e.rotation == Some(BestAngle(t, pts, cands))
    ensures e.width.Some? && e.width.value >= 0.0 && e.height.Some? && e.height.value >= 0.0
  {
    var angle := BestAngle(t, pts, cands);
    BoxInFrame(t, FrameBox(t, pts, angle), angle)
  }

  /** No candidate gives a box of smaller area than the chosen one. */
  lemma {:induction false} BestFrameBoxIsSmallest(t: Trig, pts: seq<Point>, cands: seq<real>, j: int)
    requires 0 <= j < |cands|
    ensures Area(FrameBox(t, pts, BestAngle(t, pts, cands))) <= Area(FrameBox(t, pts, cands[j]))
  {
    var areas := Areas(t, pts, cands);
    var k := FirstMinIndex(areas, |cands|);
    assert areas[k] <= areas[j];
    AreasAt(t, pts, cands, j);
    AreasAt(t, pts, cands, k);
  }

  /** Among candidates of equal least area, the earliest one wins. */
  lemma {:induction false} BestFrameBoxFirstWins(t: Trig, pts: seq<Point>, cands: seq<real>, j: int)
    requires 0 <= j < |cands|
    requires Area(FrameBox(t, pts, cands[j])) <= Area(FrameBox(t, pts, BestAngle(t, pts, cands)))
    ensures exists k :: 0 <= k <= j && cands[k] == BestAngle(t, pts, cands)
  {
    var areas := Areas(t, pts, cands);
    var k := FirstMinIndex(areas, |cands|);
    AreasAt(t, pts, cands, j);
    AreasAt(t, pts, cands, k);
    assert areas[j] <= areas[k];
    assert k <= j;
  }

  /**
   * `calculateGroupSelectionBox`: for two or more elements, the rotated box
   * of least area around all their corners among the candidate angles.
   */
  function GroupSelectionBox(t: Trig, els: Scene, forced: Option<real>): (r: Option<Element>)
    ensures r.None? <==> |els| <= 1
    ensures r.Some? ==> r.value.kind == Group && r.value.rotation.Some?
    ensures r.Some? && forced.Some? ==> r.value.rotation == Some(forced.value)
    ensures r.Some? && forced.None? ==>
              r.value.rotation.value == 0.0 || r.value.rotation.value in Rotations(els)
    ensures r.Some? ==> r.value.width.Some? && r.value.width.value >= 0.0 &&
                        r.value.height.Some? && r.value.height.value >= 0.0
  {
    if |els| <= 1 then None
    else Some(BestFrameBox(t, AllCorners(t, els), CandidateAngles(els, forced)))
  }

  /**
   * `calculateGroupSelectionBox` as the source runs it: one pass over the
   * candidate angles keeping the first box of least area.
   */
  method CalculateGroupSelectionBox(t: Trig, els: Scene, forced: Option<real>) returns (r: Option<Element>)
    ensures r == GroupSelectionBox(t, els, forced)
  {
    if |els| <= 1 {
      return None;
    }
    var allVertices := AllCorners(t, els);
    var candidateAngles := CandidateAngles(els, forced);
    ghost var areas := Areas(t, allVertices, candidateAngles);
    var bestAngle := 0.0;
    var minArea := 0.0;            // meaningful once `i > 0`; the source starts at Infinity
    var bestBoundingBox := ZeroBox;
    var i := 0;
    while i < |candidateAngles|
      invariant 0 <= i <= |candidateAngles|
      invariant i > 0 ==> var k := FirstMinIndex(areas, i);
                          bestAngle == candidateAngles[k] &&
                          bestBoundingBox == FrameBox(t, allVertices, bestAngle) &&
                          minArea == areas[k]
    {
      var angle := candidateAngles[i];
      var boundingBox := BoundingBoxFromPoints(RotateAll(t, allVertices, angle));
      var area := Area(boundingBox);
      AreasAt(t, allVertices, candidateAngles, i);
      if i == 0 || area < minArea {
        minArea := area;
        bestAngle := angle;
        bestBoundingBox := boundingBox;
      }
      i := i + 1;
    }
    r := Some(BoxInFrame(t, bestBoundingBox, bestAngle));
  }

  /**
   * `isPointInsideRotatedBox`: the point, turned back by the box's rotation
   * about the box's centre, lies in the unrotated box (edges included).
   */
  function PointInsideRotatedBox(t: Trig, p: Point, box: Element): (r: bool)
    ensures var c := BoxCenter(box);
            var q := RotatePoint(t, p, c, -Rotation(box));
            r <==> Abs(q.x - c.x) <= Num(box.width) / 2.0 && Abs(q.y - c.y) <= Num(box.height) / 2.0
  {
    var center := BoxCenter(box);
    var rotated := RotatePoint(t, p, center, -Rotation(box));
    var halfWidth, halfHeight := Num(box.width) / 2.0, Num(box.height) / 2.0;
    rotated.x >= center.x - halfWidth && rotated.x <= center.x + halfWidth &&
    rotated.y >= center.y - halfHeight && rotated.y <= center.y + halfHeight
  }

  /** Rotating about `c` is rotating about the origin, then shifting by `c` minus its own image. */
  lemma RotateAboutShifted(t: Trig, v: Point, c: Point, a: real)
    ensures var rv := RotatePoint(t, v, Origin, a);
            var rc := RotatePoint(t, c, Origin, a);
            RotatePoint(t, v, c, a) == Point(c.x + rv.x - rc.x, c.y + rv.y - rc.y)
  {
    var co, s := t.cos(a), t.sin(a);
    assert (v.x - c.x) * co - (v.y - c.y) * s == (v.x * co - v.y * s) - (c.x * co - c.y * s);
    assert (v.x - c.x) * s + (v.y - c.y) * co == (v.x * s + v.y * co) - (c.x * s + c.y * co);
  }

  /** A vertex lying in a frame box lies in the box it turns into. */
  lemma FramePointInsideBox(t: Trig, b: Box, angle: real, v: Point)
    requires t.IdentitiesAt(angle)
    requires InBox(RotatePoint(t, v, Origin, -angle), b)
    ensures PointInsideRotatedBox(t, v, BoxInFrame(t, b, angle))
  {
    var e := BoxInFrame(t, b, angle);
    var bc := Point(b.x + b.width / 2.0, b.y + b.height / 2.0);
    var fc := RotatePoint(t, bc, Origin, angle);
    assert BoxCenter(e) == fc;
    assert Rotation(e) == angle;
    RotateRoundTrip(t, bc, Origin, angle);
    RotateAboutShifted(t, v, fc, -angle);
    var vb := RotatePoint(t, v, Origin, -angle);
    var q := RotatePoint(t, v, fc, -angle);
    assert q == Point(fc.x + vb.x - bc.x, fc.y + vb.y - bc.y);
  }

  /**
   * Every corner of every element lies inside the group box, read through
   * `isPointInsideRotatedBox`, provided the chosen angle obeys the identities.
   */
  lemma GroupSelectionBoxHoldsCorners(t: Trig, els: Scene, forced: Option<real>, i: int, p: Point)
    requires |els| > 1 && 0 <= i < |els| && p in ElementCorners(t, els[i])
    requires t.IdentitiesAt(GroupSelectionBox(t, els, forced).value.rotation.value)
    ensures PointInsideRotatedBox(t, p, GroupSelectionBox(t, els, forced).value)
  {
    CornersInAllCorners(t, els, i);
    var pts := AllCorners(t, els);
    var angle := BestAngle(t, pts, CandidateAngles(els, forced));
    assert GroupSelectionBox(t, els, forced) == Some(BoxInFrame(t, FrameBox(t, pts, angle), angle));
    FrameBoxHoldsPoints(t, pts, angle, p);
  }

  lemma FrameBoxHoldsPoints(t: Trig, pts: seq<Point>, angle: real, p: Point)
    requires p in pts && t.IdentitiesAt(angle)
    ensures PointInsideRotatedBox(t, p, BoxInFrame(t, FrameBox(t, pts, angle), angle))
  {
    var b := FrameBox(t, pts, angle);
    var j :| 0 <= j < |pts| && pts[j] == p;
    var rotated := RotateAll(t, pts, angle);
    assert rotated[j] == RotatePoint(t, p, Origin, -angle);
    assert InBox(rotated[j], b);
    FramePointInsideBox(t, b, angle, p);
  }

  // ---- Marquee and point hit tests ----------------------------------------

  /** A marquee with negative extents flipped so its size is non-negative. */
  function NormalizeRect(r: Box): (n: Box)
    ensures n.width >= 0.0 && n.height >= 0.0
    ensures n.width == Abs(r.width) && n.height == Abs(r.height)
    ensures n.x == Min(r.x, r.x + r.width) && n.y == Min(r.y, r.y + r.height)
  {
    Box(if r.width < 0.0 then r.x + r.width else r.x,
        if r.height < 0.0 then r.y + r.height else r.y,
        Abs(r.width), Abs(r.height))
  }

  /**
   * `isElementIntersectingSelection`: the element's bounding box and the
   * normalised marquee overlap with positive area (touching edges do not count).
   */
  function IntersectsSelection(t: Trig, e: Element, sel: Box): (r: bool)
    ensures var b := ElementBoundingBox(t, e);
            var n := NormalizeRect(sel);
            r <==> b.x < n.x + n.width && n.x < b.x + b.width && b.y < n.y + n.height && n.y < b.y + b.height
  {
    var b := ElementBoundingBox(t, e);
    var n := NormalizeRect(sel);
    b.x < n.x + n.width && b.x + b.width > n.x && b.y < n.y + n.height && b.y + b.height > n.y
  }

  /** Dragging the marquee either way over the same area selects the same elements. */
  lemma MarqueeDirectionIrrelevant(t: Trig, e: Element, sel: Box)
    ensures IntersectsSelection(t, e, sel) ==
            IntersectsSelection(t, e, Box(sel.x + sel.width, sel.y + sel.height, -sel.width, -sel.height))
  {
    var flipped := Box(sel.x + sel.width, sel.y + sel.height, -sel.width, -sel.height);
    assert NormalizeRect(flipped) == NormalizeRect(sel);
  }

  /** A box that only touches the marquee along one of its four edges is not selected. */
  lemma TouchingEdgeNotSelected(t: Trig, e: Element, sel: Box)
    requires sel.width >= 0.0 && sel.height >= 0.0
    requires var b := ElementBoundingBox(t, e);
             b.x + b.width == sel.x || b.x == sel.x + sel.width ||
             b.y + b.height == sel.y || b.y == sel.y + sel.height
    ensures !IntersectsSelection(t, e, sel)
  {
  }

  /** `isPointInRect`: edges included. */
  function PointInRect(p: Point, r: Box): (b: bool)
    ensures b ==> r.width >= 0.0 && r.height >= 0.0
    ensures r.width >= 0.0 && r.height >= 0.0 ==>
              (p == Point(r.x, r.y) || p == Point(r.x + r.width, r.y + r.height) ==> b)
  {
    p.x >= r.x && p.x <= r.x + r.width && p.y >= r.y && p.y <= r.y + r.height
  }

  /**
   * `isPointInRotatedRect`: the point, turned back about the rectangle's
   * centre, lies in the unrotated rectangle. A rectangle without a width,
   * a height or a rotation property computes with NaN and is never hit.
   */
  function PointInRotatedRect(t: Trig, p: Point, e: Element): (r: bool)
    ensures e.width.None? || e.height.None? || e.rotation.None? ==> !r
    ensures e.width.Some? && e.height.Some? && e.rotation.Some? ==>
              var q := RotatePoint(t, p, BoxCenter(e), -e.rotation.value);
              (r <==> PointInRect(q, Box(e.x, e.y, e.width.value, e.height.value)))
  {
    if e.width.None? || e.height.None? || e.rotation.None? then false
    else
      var width, height, rotation := e.width.value, e.height.value, e.rotation.value;
      var c := Point(e.x + width / 2.0, e.y + height / 2.0);
      var rx := t.cos(-rotation) * (p.x - c.x) - t.sin(-rotation) * (p.y - c.y) + c.x;
      var ry := t.sin(-rotation) * (p.x - c.x) + t.cos(-rotation) * (p.y - c.y) + c.y;
      rx >= e.x && rx <= e.x + width && ry >= e.y && ry <= e.y + height
  }

  /**
   * `isPointInCircle`: the point, turned back about the centre, satisfies
   * (x/rX)² + (y/rY)² ≤ 1. A zero radius makes the source divide by zero,
   * which yields NaN or Infinity and never a hit.
   */
  function PointInCircle(t: Trig, p: Point, e: Element): (r: bool)
    ensures RadiusX(e) == 0.0 || RadiusY(e) == 0.0 ==> !r
    ensures RadiusX(e) != 0.0 && RadiusY(e) != 0.0 ==>
              var rX, rY := RadiusX(e), RadiusY(e);
              var l := SubtractVectors(Point(e.x, e.y), RotatePoint(t, p, Point(e.x, e.y), -Num(e.rotation)));
              (r <==> EllipseValue(l, rX, rY) <= 1.0)
  {
    var rX, rY := RadiusX(e), RadiusY(e);
    var rotation := Num(e.rotation);
    var cos, sin := t.cos(-rotation), t.sin(-rotation);
    var dx, dy := p.x - e.x, p.y - e.y;
    var localX := dx * cos - dy * sin;
    var localY := dx * sin + dy * cos;
    assert SubtractVectors(Point(e.x, e.y), RotatePoint(t, p, Point(e.x, e.y), -rotation)) == Point(localX, localY);
    if rX == 0.0 || rY == 0.0 then false
    else EllipseValue(Point(localX, localY), rX, rY) <= 1.0
  }

  /** (x/rX)² + (y/rY)², written as the source does: x²/rX² + y²/rY². */
  function EllipseValue(l: Point, rX: real, rY: real): real
    requires rX != 0.0 && rY != 0.0
  {
    (l.x * l.x) / (rX * rX) + (l.y * l.y) / (rY * rY)
  }

  /**
   * The hit region of a rotated rectangle is exactly its unrotated box turned
   * about its centre: a point of the box, turned by the rotation, is hit, and
   * a point outside it, turned the same way, is not.
   */
  lemma RotatedRectHitIsTurnedBox(t: Trig, e: Element, q: Point)
    requires e.width.Some? && e.height.Some? && e.rotation.Some?
    requires t.IdentitiesAt(e.rotation.value)
    ensures PointInRotatedRect(t, RotatePoint(t, q, BoxCenter(e), e.rotation.value), e) <==>
            PointInRect(q, Box(e.x, e.y, e.width.value, e.height.value))
  {
    var c, a := BoxCenter(e), e.rotation.value;
    RotateRoundTrip(t, q, c, a);
    assert RotatePoint(t, RotatePoint(t, q, c, a), c, -a) == q;
  }

  /** A circle or ellipse with non-zero radii is hit at its centre, whatever its rotation. */
  lemma CircleCenterHit(t: Trig, e: Element)
    requires RadiusX(e) != 0.0 && RadiusY(e) != 0.0
    ensures PointInCircle(t, Point(e.x, e.y), e)
  {
    var c := Point(e.x, e.y);
    assert RotatePoint(t, c, c, -Num(e.rotation)) == c;
    assert SubtractVectors(c, c) == Point(0.0, 0.0);
    EllipseAtCentre(RadiusX(e), RadiusY(e));
  }

  lemma EllipseAtCentre(rX: real, rY: real)
    requires rX != 0.0 && rY != 0.0
    ensures EllipseValue(Point(0.0, 0.0), rX, rY) == 0.0
  {
    NonZeroSquare(rX);
    NonZeroSquare(rY);
    assert EllipseValue(Point(0.0, 0.0), rX, rY) == (0.0 * 0.0) / (rX * rX) + (0.0 * 0.0) / (rY * rY);
    assert (0.0 * 0.0) / (rX * rX) == 0.0;
    assert (0.0 * 0.0) / (rY * rY) == 0.0;
  }

  /**
   * The hit region of a rotated ellipse is the unrotated one turned about
   * its centre: turning a point by the rotation and testing it against the
   * rotated ellipse answers as testing the point against the unrotated one.
   */
  lemma CircleHitIsTurnedEllipse(t: Trig, e: Element, q: Point)
    requires t.IdentitiesAt(Num(e.rotation)) && t.ZeroAngle()
    ensures PointInCircle(t, RotatePoint(t, q, Point(e.x, e.y), Num(e.rotation)), e) ==
            PointInCircle(t, q, e.(rotation := None))
  {
    var c, a := Point(e.x, e.y), Num(e.rotation);
    RotateRoundTrip(t, q, c, a);
    assert RotatePoint(t, RotatePoint(t, q, c, a), c, -a) == q;
    assert RotatePoint(t, q, c, -0.0) == q;
    assert RadiusX(e.(rotation := None)) == RadiusX(e) && RadiusY(e.(rotation := None)) == RadiusY(e);
  }

  /** Whether a click at `p` lands on `e`: only rectangles and circles can be hit. */
  function Hits(t: Trig, p: Point, e: Element): (r: bool)
    ensures e.kind != Rect && e.kind != Circle ==> !r
  {
    match e.kind
    case Rect => PointInRotatedRect(t, p, e)
    case Circle => PointInCircle(t, p, e)
    case _ => false
  }

  /**
   * The top-most element a click lands on: the last hit in paint order.
   */
  function ClickedElement(t: Trig, p: Point, els: Scene): (r: Option<Element>)
    ensures r.None? <==> forall i :: 0 <= i < |els| ==> !Hits(t, p, els[i])
    ensures r.Some? ==> exists i :: 0 <= i < |els| && els[i] == r.value && Hits(t, p, els[i]) &&
                          forall j :: i < j < |els| ==> !Hits(t, p, els[j])
  {
    if els == [] then None
    else if Hits(t, p, els[|els| - 1]) then Some(els[|els| - 1])
    else
      var r := ClickedElement(t, p, els[..|els| - 1]);
      assert forall i :: 0 <= i < |els| - 1 ==> els[..|els| - 1][i] == els[i];
      r
  }

  /** The scan's step: the top element of a prefix if it is hit, the rest of the prefix otherwise. */
  lemma ClickedElementStep(t: Trig, p: Point, els: Scene, i: nat)
    requires i < |els|
    ensures ClickedElement(t, p, els[..i + 1]) ==
            if Hits(t, p, els[i]) then Some(els[i]) else ClickedElement(t, p, els[..i])
  {
    assert els[..i + 1][..i] == els[..i];
  }

  /** `getClickedElement`: scans from the top of the paint order down. */
  method GetClickedElement(t: Trig, p: Point, els: Scene) returns (r: Option<Element>)
    ensures r == ClickedElement(t, p, els)
  {
    var i := |els| - 1;
    assert els[..|els|] == els;
    while i >= 0
      invariant -1 <= i < |els|
      invariant ClickedElement(t, p, els) == ClickedElement(t, p, els[..i + 1])
    {
      var element := els[i];
      var hit := false;
      match element.kind {
        case Rect => hit := PointInRotatedRect(t, p, element);
        case Circle => hit := PointInCircle(t, p, element);
        case _ =>
      }
      assert hit == Hits(t, p, element);
      ClickedElementStep(t, p, els, i);
      if hit {
        return Some(element);
      }
      i := i - 1;
    }
    assert els[..0] == [];
    return None;
  }

  // ---- Transform handles -------------------------------------------------

  datatype HandleKind =
    | TopLeft | TopCenter | TopRight
    | MiddleLeft | MiddleRight
    | BottomLeft | BottomCenter | BottomRight
    | RotationHandle

  /** The order in which the handles are created and hit-tested. */
  const HandleOrder: seq<HandleKind> :=
    [TopLeft, TopCenter, TopRight, MiddleLeft, MiddleRight, BottomLeft, BottomCenter, BottomRight, RotationHandle]

  /** `type.includes('left')` and its siblings, on the handle names. */
  predicate HasLeft(k: HandleKind) { k == TopLeft || k == MiddleLeft || k == BottomLeft }
  predicate HasRight(k: HandleKind) { k == TopRight || k == MiddleRight || k == BottomRight }
  predicate HasTop(k: HandleKind) { k == TopLeft || k == TopCenter || k == TopRight }
  predicate HasBottom(k: HandleKind) { k == BottomLeft || k == BottomCenter || k == BottomRight }

  /**
   * `!type.includes('middle') && !type.includes('center')`: the four corners,
   * and also the rotation handle, whose name contains neither word.
   */
  predicate IsCorner(k: HandleKind) {
    k != TopCenter && k != BottomCenter && k != MiddleLeft && k != MiddleRight
  }

  /** The side handles that move the left or right edge. */
  predicate IsHorizontalSide(k: HandleKind) { k == MiddleLeft || k == MiddleRight }

  /** The handle on the opposite side of the box: the resize pivot. */
  function Opposite(k: HandleKind): (o: HandleKind)
    ensures k != RotationHandle <==> o != k
  {
    match k
    case TopLeft => BottomRight
    case TopCenter => BottomCenter
    case TopRight => BottomLeft
    case MiddleLeft => MiddleRight
    case MiddleRight => MiddleLeft
    case BottomLeft => TopRight
    case BottomCenter => TopCenter
    case BottomRight => TopLeft
    case RotationHandle => RotationHandle
  }

  const HandleSize: real := 20.0
  const RotationHandleOffset: real := 30.0

  datatype Handle = Handle(kind: HandleKind, x: real, y: real, pivot: Point)

  /** Where a handle sits on an unrotated box `(left, top, w, h)`. */
  function HandlePoint(k: HandleKind, left: real, top: real, w: real, h: real): Point {
    match k
    case TopLeft => Point(left, top)
    case TopCenter => Point(left + w / 2.0, top)
    case TopRight => Point(left + w, top)
    case MiddleLeft => Point(left, top + h / 2.0)
    case MiddleRight => Point(left + w, top + h / 2.0)
    case BottomLeft => Point(left, top + h)
    case BottomCenter => Point(left + w / 2.0, top + h)
    case BottomRight => Point(left + w, top + h)
    case RotationHandle => Point(left + w / 2.0, top - RotationHandleOffset)
  }

  /** The box the handles are laid on: a box's own, or a circle's radii box. */
  function HandleFrame(e: Element): Box {
    if e.kind == Circle then
      Box(e.x - RadiusX(e), e.y - RadiusY(e), RadiusX(e) * 2.0, RadiusY(e) * 2.0)
    else Box(e.x, e.y, Num(e.width), Num(e.height))
  }

  /** One handle: its point and its pivot turned about the element's centre. */
  function MakeHandle(t: Trig, e: Element, k: HandleKind): Handle {
    var f := HandleFrame(e);
    var c := Center(e);
    var rotation := Rotation(e);
    var p := HandlePoint(k, f.x, f.y, f.width, f.height);
    var pivot := if k == RotationHandle then c else HandlePoint(Opposite(k), f.x, f.y, f.width, f.height);
    var rp := RotatePoint(t, p, c, rotation);
    Handle(k, rp.x, rp.y, RotatePoint(t, pivot, c, rotation))
  }

  predicate HasHandles(e: Element) {
    e.kind == Rect || e.kind == Group || e.kind == Circle
  }

  /**
   * `getHandles`: the nine handles of a rectangle, group box or circle, in
   * creation order; none for any other element.
   */
  function Handles(t: Trig, e: Element): (r: seq<Handle>)
    ensures HasHandles(e) ==> |r| == 9 && forall i :: 0 <= i < 9 ==> r[i].kind == HandleOrder[i]
    ensures !HasHandles(e) ==> r == []
  {
    if HasHandles(e) then seq(9, i requires 0 <= i < 9 => MakeHandle(t, e, HandleOrder[i])) else []
  }

  /**
   * Each resize handle pivots on the handle opposite it, and the rotation
   * handle pivots on the element's centre.
   */
  lemma HandlePivots(t: Trig, e: Element, k: HandleKind)
    requires HasHandles(e)
    ensures var h := MakeHandle(t, e, k);
            var o := MakeHandle(t, e, Opposite(k));
            (k != RotationHandle ==> h.pivot == Point(o.x, o.y)) &&
            (k == RotationHandle ==> h.pivot == Center(e))
  {
  }

  /** The centre of a box element lies at the middle of its handle frame. */
  lemma HandleFrameCentred(e: Element)
    requires HasHandles(e) && (e.kind == Circle || (e.width.Some? && e.height.Some?))
    ensures var f := HandleFrame(e); Center(e) == Point(f.x + f.width / 2.0, f.y + f.height / 2.0)
  {
  }

  /**
   * `getHandleAtPoint`'s hit box: a square of side `(HandleSize + 4) / scale`
   * centred on the handle.
   */
  function HitboxSize(scale: Scale): (r: real)
    ensures r > 0.0 && r * scale == HandleSize + 4.0
  {
    (HandleSize + 4.0) / scale
  }

  predicate HandleHit(h: Handle, p: Point, hitbox: real) {
    PointInRect(p, Box(h.x - hitbox / 2.0, h.y - hitbox / 2.0, hitbox, hitbox))
  }

  /** The first handle, in creation order, whose hit box holds the point. */
  function FirstHandleHit(hs: seq<Handle>, p: Point, hitbox: real): (r: Option<Handle>)
    ensures r.None? <==> forall i :: 0 <= i < |hs| ==> !HandleHit(hs[i], p, hitbox)
    ensures r.Some? ==> exists i :: 0 <= i < |hs| && hs[i] == r.value && HandleHit(hs[i], p, hitbox) &&
                          forall j :: 0 <= j < i ==> !HandleHit(hs[j], p, hitbox)
  {
    if hs == [] then None
    else if HandleHit(hs[0], p, hitbox) then Some(hs[0])
    else
      var r := FirstHandleHit(hs[1..], p, hitbox);
      assert forall i :: 0 < i < |hs| ==> hs[1..][i - 1] == hs[i];
      r
  }

  /**
   * `getHandleAtPoint`: the first handle of the element whose zoom-scaled hit
   * box holds the point; null without an element or for an element with no handles.
   */
  function HandleAtPoint(t: Trig, p: Point, e: Option<Element>, scale: Scale): (r: Option<Handle>)
    ensures e.None? || !HasHandles(e.value) ==> r.None?
    ensures r.Some? ==> r.value in Handles(t, e.value) && HandleHit(r.value, p, HitboxSize(scale))
    ensures r.None? && e.Some? ==> forall h :: h in Handles(t, e.value) ==> !HandleHit(h, p, HitboxSize(scale))
  {
    if e.None? then None else FirstHandleHit(Handles(t, e.value), p, HitboxSize(scale))
  }

  /**
   * Whatever the zoom, a handle is hit exactly when the pointer is within
   * 12 screen pixels of it on both axes.
   */
  lemma HandleHitInScreenPixels(h: Handle, p: Point, scale: Scale)
    ensures HandleHit(h, p, HitboxSize(scale)) <==>
            Abs(p.x - h.x) * scale <= (HandleSize + 4.0) / 2.0 &&
            Abs(p.y - h.y) * scale <= (HandleSize + 4.0) / 2.0
  {
    var hb := HitboxSize(scale);
    assert hb * scale == 24.0;
    WithinHalf(p.x, h.x, hb, scale);
    WithinHalf(p.y, h.y, hb, scale);
  }

  lemma WithinHalf(a: real, c: real, hb: real, scale: Scale)
    requires hb * scale == 24.0
    ensures (c - hb / 2.0 <= a <= c - hb / 2.0 + hb) <==> Abs(a - c) * scale <= 12.0
  {
    var d := Abs(a - c);
    assert (c - hb / 2.0 <= a <= c - hb / 2.0 + hb) <==> d <= hb / 2.0;
    if d <= hb / 2.0 {
      assert d * scale <= hb / 2.0 * scale;
    } else {
      assert d * scale > hb / 2.0 * scale;
    }
  }
}
