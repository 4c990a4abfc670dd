/**
 * The older per-move handlers (`src/utils/actionHandlers.js`) and the
 * interaction record they read: the handler the canvas hook calls on each
 * mouse move, and the `data` object the starters build and the moves update.
 *
 * `src/utils/transformations` is not part of this model: the four
 * transformations these handlers delegate to are parameters.
 */
module ActionHandlers {
  import opened Model
  import opened Geometry
  import Transformations

  /** The interactions of the older wiring: the handler function and the matching `data.type`. */
  datatype Gesture = Panning | Selecting | Dragging | Rotating | Resizing

  /**
   * A single-element transform's start entry `{element: {...el, startAngle}, pivot}`.
   * The entry has no `id` property of its own.
   */
  datatype TransformStart = TransformStart(element: Element, startAngle: real, pivot: Point)

  /** `initialGroupState`: what a drag or a group transform records at the start. */
  datatype GroupStart =
    | DragGroup(elements: Scene, boundingBox: Element)
    | TransformGroup(elements: Scene, boundingBox: Element, pivot: Point, startAngle: real, rotation: real)

  /**
   * `interactionState.current.data`. Absent properties are `None`.
   * `startElements` holds a drag's elements and `transformStarts` a
   * transform's entries: the source keeps both under `startElements`.
   */
  datatype Data = Data(
    kind: Option<Gesture>,
    lastPanPoint: Option<Point>,
    startWorldPoint: Option<Point>,
    lastWorldPos: Option<Point>,
    startElements: Scene,
    transformStarts: seq<TransformStart>,
    initialGroupState: Option<GroupStart>,
    activeHandle: Option<HandleKind>,
    interactionBox: Option<Element>,
    liveElements: Option<Scene>)

  const NoData: Data := Data(None, None, None, None, [], [], None, None, None, None)

  /** `interactionState.current`: `{handler, data}`. */
  datatype Interaction = Interaction(handler: Option<Gesture>, data: Data)

  /** `{handler: null, data: {}}`. */
  const Idle: Interaction := Interaction(None, NoData)

  /** A truthy handler result: `{updatedElements, newBoundingBox}`, either possibly absent. */
  datatype Returned = Returned(updatedElements: Option<Scene>, newBoundingBox: Option<Element>)

  /**
   * One handler call as the canvas hook makes it: what it returned when
   * that was truthy, and the `setSelectionRect` call it made. Called that
   * way, no handler reaches `setOffset`.
   */
  datatype Step = Step(result: Option<Returned>, rect: Option<Box>)

  /** The move context's fields the handlers read. */
  datatype MoveContext = MoveContext(
    worldPos: Point,
    mousePos: Point,
    shiftKey: bool,
    ctrlKey: bool,
    metaKey: bool,
    selectedIds: seq<Id>,
    dx: real,
    dy: real)

  /** The functions of `src/utils/transformations` the handlers call. */
  datatype LegacyTransforms = LegacyTransforms(
    rotateElement: (Element, Point, real, Point, bool) -> Element,
    resizeElement: (Element, Point, Point, HandleKind, bool, bool) -> Option<Element>,
    transformGroupRotate: (Scene, seq<Id>, Point, real, GroupStart) -> HandlerResult,
    transformGroupResize: (Scene, seq<Id>, Element, GroupStart) -> Scene)

  // ---- handlePanning ---------------------------------------------------------

  /**
   * `handlePanning(mousePos, lastPanPoint, setOffset)`: shift the offset
   * by the pointer's travel since the last point; the first call only
   * reports the pointer. Returns the point to remember and the new offset.
   */
  function HandlePanning(mousePos: Point, lastPanPoint: Option<Point>, offset: Point): (r: (Point, Point))
    ensures r.0 == mousePos
    ensures lastPanPoint.None? ==> r.1 == offset
    ensures lastPanPoint.Some? ==>
              r.1 == Point(offset.x + (mousePos.x - lastPanPoint.value.x), offset.y + (mousePos.y - lastPanPoint.value.y))
  {
    if lastPanPoint.None? then (mousePos, offset)
    else
      var dx := mousePos.x - lastPanPoint.value.x;
      var dy := mousePos.y - lastPanPoint.value.y;
      (mousePos, Point(offset.x + dx, offset.y + dy))
  }

  /**
   * Panning keeps the grabbed world point under the pointer: the world
   * point under the new pointer position, with the new offset, is the one
   * that was under the last position with the old offset.
   */
  lemma PanKeepsGrabbedPoint(mousePos: Point, last: Point, offset: Point, scale: Scale)
    ensures PointInWorld(mousePos, HandlePanning(mousePos, Some(last), offset).1, scale) ==
            PointInWorld(last, offset, scale)
  {
    var o := HandlePanning(mousePos, Some(last), offset).1;
    assert mousePos.x - o.x == last.x - offset.x;
    assert mousePos.y - o.y == last.y - offset.y;
  }

  /**
   * What the canvas hook's move actually runs for a pan: it calls
   * `handlePanning(context)`, so `mousePos` is the context object and
   * `lastPanPoint` is undefined. The call returns the context itself (truthy,
   * with no `updatedElements`) and never calls `setOffset`.
   */
  function PanningCalledWithContext(): (s: Step)
    ensures s.rect.None?
    ensures s.result == Some(Returned(None, None))
  {
    Step(Some(Returned(None, None)), None)
  }

  // ---- handleSelecting -------------------------------------------------------

  /** The marquee from the start point to the pointer; width and height may be negative. */
  function MarqueeRect(start: Point, worldPos: Point): (b: Box)
    ensures b.x == start.x && b.y == start.y
    ensures b.x + b.width == worldPos.x && b.y + b.height == worldPos.y
  {
    Box(start.x, start.y, worldPos.x - start.x, worldPos.y - start.y)
  }

  /** Whichever way it is dragged, the normalised marquee spans both of its corners. */
  lemma MarqueeSpansBothCorners(start: Point, worldPos: Point)
    ensures var n := NormalizeRect(MarqueeRect(start, worldPos));
            PointInRect(start, n) && PointInRect(worldPos, n)
  {
  }

  /** `handleSelecting`: sets the marquee and returns nothing. */
  function HandleSelecting(ctx: MoveContext, data: Data): (s: Step)
    requires data.startWorldPoint.Some?
    ensures s.result.None?
    ensures s.rect == Some(MarqueeRect(data.startWorldPoint.value, ctx.worldPos))
  {
    Step(None, Some(MarqueeRect(data.startWorldPoint.value, ctx.worldPos)))
  }

  // ---- handleDragging --------------------------------------------------------

  /** The elements whose id is in `ids` moved by `(dx, dy)`; the others unchanged. */
  function MoveBy(els: Scene, ids: seq<Id>, dx: real, dy: real): (r: Scene)
    ensures |r| == |els|
    ensures forall i :: 0 <= i < |els| && els[i].id in ids ==>
              r[i] == els[i].(x := els[i].x + dx, y := els[i].y + dy)
    ensures forall i :: 0 <= i < |els| && els[i].id !in ids ==> r[i] == els[i]
  {
    seq(|els|, i requires 0 <= i < |els| =>
      if els[i].id in ids then els[i].(x := els[i].x + dx, y := els[i].y + dy) else els[i])
  }

  /** The older drag is incremental: two moves add up to one move by the summed delta. */
  lemma MoveByComposes(els: Scene, ids: seq<Id>, dx1: real, dy1: real, dx2: real, dy2: real)
    ensures MoveBy(MoveBy(els, ids, dx1, dy1), ids, dx2, dy2) == MoveBy(els, ids, dx1 + dx2, dy1 + dy2)
  {
    var a := MoveBy(MoveBy(els, ids, dx1, dy1), ids, dx2, dy2);
    var b := MoveBy(els, ids, dx1 + dx2, dy1 + dy2);
    assert forall i :: 0 <= i < |els| ==> MoveBy(els, ids, dx1, dy1)[i].id == els[i].id;
    assert forall i :: 0 <= i < |els| ==> a[i] == b[i];
  }

  /**
   * `handleDragging`: nothing moves without an interaction box; otherwise
   * the dragged ids and the box move by this move's `(dx, dy)`.
   */
  function HandleDragging(ctx: MoveContext, data: Data, elements: Scene): (s: Step)
    ensures s.rect.None? && s.result.Some? && s.result.value.updatedElements.Some?
    ensures data.interactionBox.None? ==> s.result.value == Returned(Some(elements), None)
    ensures data.interactionBox.Some? ==>
              s.result.value.updatedElements.value == MoveBy(elements, Ids(data.startElements), ctx.dx, ctx.dy) &&
              var b := data.interactionBox.value;
              s.result.value.newBoundingBox == Some(b.(x := b.x + ctx.dx, y := b.y + ctx.dy))
  {
    if data.interactionBox.None? then Step(Some(Returned(Some(elements), None)), None)
    else
      var elementIdsToMove := Ids(data.startElements);
      var updatedElements := MoveBy(elements, elementIdsToMove, ctx.dx, ctx.dy);
      var b := data.interactionBox.value;
      Step(Some(Returned(Some(updatedElements), Some(b.(x := b.x + ctx.dx, y := b.y + ctx.dy)))), None)
  }

  // ---- handleRotating --------------------------------------------------------

  /** The centre of a group's recorded box. */
  function GroupCenter(b: Element): Point {
    Point(b.x + Num(b.width) / 2.0, b.y + Num(b.height) / 2.0)
  }

  /**
   * A group's new angle: its recorded rotation plus the angle the pointer
   * swept about the group centre, snapped to 15° with Shift.
   */
  function GroupAngle(t: Trig, g: GroupStart, worldPos: Point, shift: bool): (a: real)
    requires g.TransformGroup?
    ensures var c := GroupCenter(g.boundingBox);
            var swept := g.rotation + (t.atan2(worldPos.y - c.y, worldPos.x - c.x) - g.startAngle);
            (!shift ==> a == swept) &&
            (shift ==> Abs(a - swept) <= Transformations.SnapStep / 2.0 &&
                       (a / Transformations.SnapStep).Floor as real == a / Transformations.SnapStep)
  {
    var groupCenter := GroupCenter(g.boundingBox);
    var currentAngle := t.atan2(worldPos.y - groupCenter.y, worldPos.x - groupCenter.x);
    var newAngle := g.rotation + (currentAngle - g.startAngle);
    if shift then Transformations.SnapAngle(newAngle) else newAngle
  }

  /** What a start record must hold for the transform handlers to run. */
  predicate TransformReady(data: Data) {
    (data.initialGroupState.Some? ==> data.initialGroupState.value.TransformGroup?) &&
    (data.initialGroupState.None? ==> |data.transformStarts| >= 1)
  }

  /**
   * `handleRotating`: a group turns through `transformGroup_rotate` to its
   * new angle; a single element is turned about its box centre and replaces
   * the element with its id.
   */
  function HandleRotating(t: Trig, lt: LegacyTransforms, ctx: MoveContext, data: Data, elements: Scene): (s: Step)
    requires TransformReady(data)
    ensures s.rect.None? && s.result.Some? && s.result.value.updatedElements.Some?
    ensures data.initialGroupState.Some? ==>
              var g := data.initialGroupState.value;
              var res := lt.transformGroupRotate(elements, ctx.selectedIds, GroupCenter(g.boundingBox),
                                                 GroupAngle(t, g, ctx.worldPos, ctx.shiftKey), g);
              s.result.value == Returned(Some(res.updatedElements), res.newBoundingBox)
    ensures data.initialGroupState.None? ==>
              var e := data.transformStarts[0].element;
              var updated := lt.rotateElement(e, BoxCenter(e), data.transformStarts[0].startAngle, ctx.worldPos, ctx.shiftKey);
              s.result.value == Returned(Some(ReplaceById(elements, e.id, updated)), Some(updated))
  {
    if data.initialGroupState.Some? then
      var g := data.initialGroupState.value;
      var groupCenter := GroupCenter(g.boundingBox);
      var newAngle := GroupAngle(t, g, ctx.worldPos, ctx.shiftKey);
      var res := lt.transformGroupRotate(elements, ctx.selectedIds, groupCenter, newAngle, g);
      Step(Some(Returned(Some(res.updatedElements), res.newBoundingBox)), None)
    else
      var element := data.transformStarts[0].element;
      var center := Point(element.x + Or(element.width, 0.0) / 2.0, element.y + Or(element.height, 0.0) / 2.0);
      var updatedElement := lt.rotateElement(element, center, data.transformStarts[0].startAngle, ctx.worldPos, ctx.shiftKey);
      Step(Some(Returned(Some(ReplaceById(elements, element.id, updatedElement)), Some(updatedElement))), None)
  }

  // ---- handleResizing --------------------------------------------------------

  /**
   * `handleResizing`: a group's recorded box is resized about the recorded
   * pivot and, when that gives a box, the members are remapped into it;
   * otherwise the scene comes back as it was, with no box. A single element
   * is resized about its pivot and replaces the element with its id. Ctrl
   * or Meta resizes from the centre.
   */
  function HandleResizing(lt: LegacyTransforms, ctx: MoveContext, data: Data, elements: Scene): (s: Step)
    requires TransformReady(data) && data.activeHandle.Some?
    ensures s.rect.None? && s.result.Some? && s.result.value.updatedElements.Some?
    ensures data.initialGroupState.Some? ==>
              var g := data.initialGroupState.value;
              var box := lt.resizeElement(g.boundingBox, g.pivot, ctx.worldPos, data.activeHandle.value,
                                          ctx.shiftKey, ctx.ctrlKey || ctx.metaKey);
              && (box.Some? ==>
                    s.result.value == Returned(Some(lt.transformGroupResize(elements, ctx.selectedIds, box.value, g)), box))
              && (box.None? ==> s.result.value == Returned(Some(elements), None))
    ensures data.initialGroupState.None? ==>
              var st := data.transformStarts[0];
              var updated := lt.resizeElement(st.element, st.pivot, ctx.worldPos, data.activeHandle.value,
                                              ctx.shiftKey, ctx.ctrlKey || ctx.metaKey);
              && (updated.Some? ==>
                    s.result.value == Returned(Some(ReplaceById(elements, st.element.id, updated.value)), updated))
              && (updated.None? ==> s.result.value == Returned(Some(elements), None))
  {
    var fromCenter := ctx.ctrlKey || ctx.metaKey;
    if data.initialGroupState.Some? then
      var g := data.initialGroupState.value;
      var newBoundingBox := lt.resizeElement(g.boundingBox, g.pivot, ctx.worldPos, data.activeHandle.value, ctx.shiftKey, fromCenter);
      if newBoundingBox.Some? then
        var updatedElements := lt.transformGroupResize(elements, ctx.selectedIds, newBoundingBox.value, g);
        Step(Some(Returned(Some(updatedElements), newBoundingBox)), None)
      else
        Step(Some(Returned(Some(elements), None)), None)
    else
      var st := data.transformStarts[0];
      var updatedElement := lt.resizeElement(st.element, st.pivot, ctx.worldPos, data.activeHandle.value, ctx.shiftKey, fromCenter);
      if updatedElement.Some? then
        Step(Some(Returned(Some(ReplaceById(elements, st.element.id, updatedElement.value)), updatedElement)), None)
      else
        Step(Some(Returned(Some(elements), None)), None)
  }
}
