/**
 * The newer interaction modules (the files under `src/modules/interactions`):
 * the pan, marquee, drag and transform starters and their per-move
 * handlers. Unlike the older handlers, the newer drag places every dragged
 * element from where the drag started, snapping the primary element to
 * the other elements, and the transforms go through `src/core/transformations`.
 *
 * `src/core/geometry`, which these modules import, is not part of this
 * model; its functions of the same names are taken to be those of
 * `src/utils/geometry` (module Geometry).
 */
module Gestures {
  import opened Model
  import opened Geometry
  import Transformations
  import Snapping
  import ArtboardAssociation
  import Interactions
  import ActionHandlers

  // ---- panInteraction.js -----------------------------------------------------

  /** `tryStartPanning`: the middle button starts a pan that remembers the pointer. */
  function TryStartPanning(button: int, mousePos: Point): (lastPanPoint: Option<Point>)
    ensures lastPanPoint.None? <==> button != 1
    ensures lastPanPoint.Some? ==> lastPanPoint.value == mousePos
  {
    if button != 1 then None else Some(mousePos)
  }

  /** What `handlePanning` returns, and the offset after its `setOffset` call. */
  datatype PanStep = PanStep(returned: Option<Point>, offset: Point)

  /**
   * `handlePanning`: without a last point it does nothing; otherwise it
   * shifts the offset by the pointer's screen movement and returns the pointer.
   */
  function HandlePanning(mousePos: Point, lastPanPoint: Option<Point>, offset: Point): (r: PanStep)
    ensures lastPanPoint.None? ==> r == PanStep(None, offset)
    ensures lastPanPoint.Some? ==>
              r.returned == Some(mousePos) &&
              r.offset.x - offset.x == mousePos.x - lastPanPoint.value.x &&
              r.offset.y - offset.y == mousePos.y - lastPanPoint.value.y
  {
    if lastPanPoint.None? then PanStep(None, offset)
    else
      var dx := mousePos.x - lastPanPoint.value.x;
      var dy := mousePos.y - lastPanPoint.value.y;
      PanStep(Some(mousePos), Point(offset.x + dx, offset.y + dy))
  }

  /** A pan keeps the grabbed world point under the pointer. */
  lemma PanKeepsWorldPointUnderPointer(mousePos: Point, last: Point, offset: Point, scale: Scale)
    ensures PointInWorld(mousePos, HandlePanning(mousePos, Some(last), offset).offset, scale) ==
            PointInWorld(last, offset, scale)
  {
    var o := HandlePanning(mousePos, Some(last), offset).offset;
    assert mousePos.x - o.x == last.x - offset.x;
    assert mousePos.y - o.y == last.y - offset.y;
  }

  // ---- selectionInteraction.js -----------------------------------------------

  /** What `startMarqueeSelection` sets and records. */
  datatype MarqueeStart = MarqueeStart(selection: seq<Id>, rect: Box, startWorldPoint: Point)

  /** `startMarqueeSelection`: clears the selection and opens an empty marquee at the pointer. */
  function StartMarqueeSelection(worldPos: Point): (r: MarqueeStart)
    ensures r.selection == [] && r.startWorldPoint == worldPos
    ensures r.rect.x == worldPos.x && r.rect.y == worldPos.y && r.rect.width == 0.0 && r.rect.height == 0.0
  {
    MarqueeStart([], Interactions.ZeroRect(worldPos), worldPos)
  }

  /** `handleSelecting`: the marquee from the start point to the pointer, signed. */
  function HandleSelecting(startWorldPoint: Point, worldPos: Point): (r: Box)
    ensures r.x == startWorldPoint.x && r.y == startWorldPoint.y
    ensures r.x + r.width == worldPos.x && r.y + r.height == worldPos.y
  {
    Box(startWorldPoint.x, startWorldPoint.y, worldPos.x - startWorldPoint.x, worldPos.y - startWorldPoint.y)
  }

  /** Both revisions draw the same marquee, and a pointer back at the start gives the empty one. */
  lemma MarqueeAgreesWithOlderRevision(startWorldPoint: Point, worldPos: Point)
    ensures HandleSelecting(startWorldPoint, worldPos) == ActionHandlers.MarqueeRect(startWorldPoint, worldPos)
    ensures HandleSelecting(startWorldPoint, startWorldPoint) == StartMarqueeSelection(startWorldPoint).rect
  {
  }

  // ---- dragInteraction.js: starting --------------------------------------------

  /** Where the pointer grabbed an element, relative to its top-left. */
  datatype ElementOffset = ElementOffset(id: Id, offsetX: real, offsetY: real)

  /** `initialGroupState` of a drag: the dragged elements and the box. */
  datatype DragGroupState = DragGroupState(elements: Scene, boundingBox: Element)

  /** A drag's `data`. */
  datatype DragState = DragState(
    startWorldPoint: Point,
    lastWorldPos: Point,
    startElements: Scene,
    elementOffsets: seq<ElementOffset>,
    initialGroupState: Option<DragGroupState>,
    interactionBox: Option<Element>,
    liveElements: Scene)

  /** A non-null starter answer: `{handler: null, data: {}}`, or a drag. */
  datatype DragReturn = NullHandler | Drag(state: DragState)

  /** The starter's answer (None for null) and the setter calls it made. */
  datatype DragOutcome = DragOutcome(result: Option<DragReturn>, selection: Option<seq<Id>>, rect: Option<Box>)

  /** The grab offset of each element to drag. */
  function Offsets(els: Scene, worldPos: Point): (r: seq<ElementOffset>)
    ensures |r| == |els|
    ensures forall i :: 0 <= i < |els| ==> r[i] == ElementOffset(els[i].id, worldPos.x - els[i].x, worldPos.y - els[i].y)
  {
    seq(|els|, i requires 0 <= i < |els| => ElementOffset(els[i].id, worldPos.x - els[i].x, worldPos.y - els[i].y))
  }

  /** The drag data for the elements to drag and the box that moves with them. */
  function DragStateFor(ctx: Interactions.DownContext, elementsToDrag: Scene, interactionBox: Option<Element>): (d: DragState)
    ensures d.startWorldPoint == ctx.worldPos && d.lastWorldPos == ctx.worldPos
    ensures d.startElements == elementsToDrag && d.elementOffsets == Offsets(elementsToDrag, ctx.worldPos)
    ensures d.interactionBox == interactionBox && d.liveElements == ctx.elements
    ensures d.initialGroupState == (if interactionBox.Some? then Some(DragGroupState(elementsToDrag, interactionBox.value)) else None)
  {
    DragState(ctx.worldPos, ctx.worldPos, elementsToDrag, Offsets(elementsToDrag, ctx.worldPos),
              if interactionBox.Some? then Some(DragGroupState(elementsToDrag, interactionBox.value)) else None,
              interactionBox, ctx.elements)
  }

  /**
   * `tryStartDragging`, newer revision. A click on an unselected element
   * drags that element with itself as the box; a click on a selected one,
   * or inside the selection box, drags the whole selection with the
   * selection box. With nothing to drag it declines, only leaving an
   * empty marquee at the pointer; no marquee interaction is started.
   */
  function TryStartDragging(t: Trig, ctx: Interactions.DownContext): (r: DragOutcome)
    ensures var clicked := ClickedElement(t, ctx.worldPos, ctx.elements);
            var inBox := ctx.selectionBox.Some? && PointInsideRotatedBox(t, ctx.worldPos, ctx.selectionBox.value);
            clicked.None? && !inBox ==> r == DragOutcome(None, None, None)
    ensures var clicked := ClickedElement(t, ctx.worldPos, ctx.elements);
            clicked.Some? && ctx.shiftKey ==>
              r == DragOutcome(Some(NullHandler), Some(Interactions.Toggled(ctx.selectedIds, clicked.value.id)), None)
    ensures var clicked := ClickedElement(t, ctx.worldPos, ctx.elements);
            var inBox := ctx.selectionBox.Some? && PointInsideRotatedBox(t, ctx.worldPos, ctx.selectionBox.value);
            clicked.None? && inBox && Partition(ctx.elements, ctx.selectedIds, true) == [] ==>
              r == DragOutcome(None, None, Some(Interactions.ZeroRect(ctx.worldPos)))
    ensures var clicked := ClickedElement(t, ctx.worldPos, ctx.elements);
            clicked.Some? && !ctx.shiftKey && clicked.value.id !in ctx.selectedIds ==>
              r == DragOutcome(Some(Drag(DragStateFor(ctx, [clicked.value], Some(clicked.value)))), Some([clicked.value.id]), None)
    ensures var clicked := ClickedElement(t, ctx.worldPos, ctx.elements);
            var inBox := ctx.selectionBox.Some? && PointInsideRotatedBox(t, ctx.worldPos, ctx.selectionBox.value);
            var sel := Partition(ctx.elements, ctx.selectedIds, true);
            ((clicked.Some? && !ctx.shiftKey && clicked.value.id in ctx.selectedIds) || (clicked.None? && inBox && sel != [])) ==>
              r == DragOutcome(Some(Drag(DragStateFor(ctx, sel, ctx.selectionBox))), None, None)
  {
    var clickedElement := ClickedElement(t, ctx.worldPos, ctx.elements);
    var inBox := ctx.selectionBox.Some? && PointInsideRotatedBox(t, ctx.worldPos, ctx.selectionBox.value);
    if clickedElement.None? && !inBox then DragOutcome(None, None, None)
    else if clickedElement.Some? && ctx.shiftKey then
      DragOutcome(Some(NullHandler), Some(Interactions.Toggled(ctx.selectedIds, clickedElement.value.id)), None)
    else
      var isNewSelection := clickedElement.Some? && clickedElement.value.id !in ctx.selectedIds;
      var elementsToDrag := if isNewSelection then [clickedElement.value] else Partition(ctx.elements, ctx.selectedIds, true);
      if |elementsToDrag| == 0 then
        if clickedElement.None? then DragOutcome(None, None, Some(Interactions.ZeroRect(ctx.worldPos)))
        else DragOutcome(None, None, None)
      else
        var interactionBox :=
          if isNewSelection then
            (if |elementsToDrag| == 1 then Some(elementsToDrag[0]) else GroupSelectionBox(t, elementsToDrag, None))
          else ctx.selectionBox;
        DragOutcome(Some(Drag(DragStateFor(ctx, elementsToDrag, interactionBox))),
                    if isNewSelection then Some([clickedElement.value.id]) else None, None)
  }

  /**
   * Every drag this starter begins has elements to drag, one grab offset per
   * element, and its primary element in the scene it starts over.
   */
  lemma StartedDragIsWellFormed(t: Trig, ctx: Interactions.DownContext)
    requires TryStartDragging(t, ctx).result.Some? && TryStartDragging(t, ctx).result.value.Drag?
    ensures var d := TryStartDragging(t, ctx).result.value.state;
            d.startElements != [] && |d.elementOffsets| == |d.startElements| &&
            d.elementOffsets[0].id == d.startElements[0].id &&
            (d.initialGroupState.Some? <==> d.interactionBox.Some?) &&
            FindById(ctx.elements, d.startElements[0].id).Some?
  {
  }

  // ---- dragInteraction.js: moving ------------------------------------------------

  /** `SNAP_STRENGTH_MODIFIER`. */
  const SnapStrengthModifier: real := 2.0

  /** The move context the drag handler reads. */
  datatype DragMove = DragMove(
    worldPos: Point,
    scale: Scale,
    snapSettings: Option<Snapping.SnapSettings>,
    shiftKey: bool,
    metaKey: bool,
    ctrlKey: bool)

  /**
   * One drag move: what the handler returns, the `setSnapLines` call, and the
   * `setHighlightedArtboardId` call (None where it made no such call).
   */
  datatype DragStep = DragStep(
    updatedElements: Scene,
    newBoundingBox: Option<Element>,
    snapLines: Option<seq<Snapping.Guide>>,
    highlight: Option<Option<Id>>)

  /** The snap tolerance after the modifiers: Shift strengthens it; otherwise Meta or Ctrl turns it off. */
  function Tolerance(settings: Snapping.SnapSettings, shiftKey: bool, metaKey: bool, ctrlKey: bool): (r: real)
    ensures shiftKey ==> r == settings.tolerance * SnapStrengthModifier
    ensures !shiftKey && (metaKey || ctrlKey) ==> r == 0.0
    ensures !shiftKey && !metaKey && !ctrlKey ==> r == settings.tolerance
  {
    var currentTolerance := settings.tolerance;
    if shiftKey then currentTolerance * SnapStrengthModifier
    else if metaKey || ctrlKey then 0.0
    else currentTolerance
  }

  /** `elementOffsets.find(offset => offset.id === id)`. */
  function FindOffset(offsets: seq<ElementOffset>, id: Id): (r: Option<ElementOffset>)
    ensures r.None? <==> forall i :: 0 <= i < |offsets| ==> offsets[i].id != id
    ensures r.Some? ==> exists i :: 0 <= i < |offsets| && offsets[i] == r.value && r.value.id == id &&
                          forall j :: 0 <= j < i ==> offsets[j].id != id
  {
    if offsets == [] then None
    else if offsets[0].id == id then Some(offsets[0])
    else
      var r := FindOffset(offsets[1..], id);
      assert forall i :: 0 < i < |offsets| ==> offsets[i] == offsets[1..][i - 1];
      r
  }

  /** Whether the handler gets past its first guard. */
  predicate Armed(mv: DragMove, data: DragState) {
    data.interactionBox.Some? && mv.snapSettings.Some? && data.initialGroupState.Some?
  }

  /** Whether the handler moves anything: past both guards. */
  predicate Moving(mv: DragMove, data: DragState) {
    Armed(mv, data) && data.startElements != [] && FindOffset(data.elementOffsets, data.startElements[0].id).Some?
  }

  /** Where the primary element would go without snapping: the pointer less its grab offset. */
  function IdealPosition(mv: DragMove, data: DragState): (p: Point)
    requires Moving(mv, data)
    ensures var off := FindOffset(data.elementOffsets, data.startElements[0].id).value;
            p.x + off.offsetX == mv.worldPos.x && p.y + off.offsetY == mv.worldPos.y
  {
    var off := FindOffset(data.elementOffsets, data.startElements[0].id).value;
    Point(mv.worldPos.x - off.offsetX, mv.worldPos.y - off.offsetY)
  }

  /**
   * The snap of the primary element at its ideal position against the
   * elements not being dragged; nothing when snapping is off or the
   * tolerance is not positive.
   */
  function DragSnap(mv: DragMove, data: DragState, elements: Scene): (r: Snapping.SnapResult)
    requires Moving(mv, data)
    ensures var s := mv.snapSettings.value;
            !s.isEnabled || Tolerance(s, mv.shiftKey, mv.metaKey, mv.ctrlKey) <= 0.0 ==>
              r == Snapping.SnapResult(Origin, [])
    ensures var tol := Tolerance(mv.snapSettings.value, mv.shiftKey, mv.metaKey, mv.ctrlKey);
            (r.snapOffset.x != 0.0 ==> Abs(r.snapOffset.x) < tol / mv.scale) &&
            (r.snapOffset.y != 0.0 ==> Abs(r.snapOffset.y) < tol / mv.scale)
  {
    var settings := mv.snapSettings.value;
    var tol := Tolerance(settings, mv.shiftKey, mv.metaKey, mv.ctrlKey);
    if settings.isEnabled && tol > 0.0 then
      var ideal := IdealPosition(mv, data);
      var potentialNextElement := data.startElements[0].(x := ideal.x, y := ideal.y);
      var staticElements := Partition(elements, Ids(data.startElements), false);
      Snapping.SnapAdjustments(potentialNextElement, staticElements, mv.scale, tol, settings)
    else Snapping.SnapResult(Origin, [])
  }

  /** The drag's total displacement from its start: the primary element's final spot less its start. */
  function TotalDelta(mv: DragMove, data: DragState, elements: Scene): (d: Point)
    requires Moving(mv, data)
    ensures var ideal := IdealPosition(mv, data);
            var snap := DragSnap(mv, data, elements);
            data.startElements[0].x + d.x == ideal.x + snap.snapOffset.x &&
            data.startElements[0].y + d.y == ideal.y + snap.snapOffset.y
  {
    var ideal := IdealPosition(mv, data);
    var snap := DragSnap(mv, data, elements);
    Point(ideal.x + snap.snapOffset.x - data.startElements[0].x, ideal.y + snap.snapOffset.y - data.startElements[0].y)
  }

  /**
   * Every element with a start entry placed at that entry's position plus
   * `(dx, dy)` (the first entry with its id); the others unchanged.
   */
  function MovedFromStart(els: Scene, starts: Scene, dx: real, dy: real): (r: Scene)
    ensures |r| == |els|
    ensures forall i :: 0 <= i < |els| ==>
              var s := FindById(starts, els[i].id);
              r[i] == if s.Some? then els[i].(x := s.value.x + dx, y := s.value.y + dy) else els[i]
  {
    if els == [] then []
    else
      var s := FindById(starts, els[0].id);
      [if s.Some? then els[0].(x := s.value.x + dx, y := s.value.y + dy) else els[0]] + MovedFromStart(els[1..], starts, dx, dy)
  }

  /** With unique start ids the first and the last entry of an id coincide. */
  lemma FirstIsLastWhenUnique(starts: Scene, id: Id)
    requires UniqueIds(starts)
    ensures FindById(starts, id) == Transformations.LastById(starts, id)
  {
    var k := IndexById(starts, id);
    var l := Transformations.LastIndexById(starts, id);
    if k != -1 {
      assert l != -1;
      assert k == l;
    }
  }

  /** With unique start ids the drag moves elements exactly as `translateElements` does. */
  lemma MovedFromStartIsTranslate(els: Scene, starts: Scene, dx: real, dy: real)
    requires UniqueIds(starts)
    ensures MovedFromStart(els, starts, dx, dy) == Transformations.TranslateElements(els, starts, dx, dy)
  {
    forall i | 0 <= i < |els|
      ensures MovedFromStart(els, starts, dx, dy)[i] == Transformations.TranslateElements(els, starts, dx, dy)[i]
    {
      FirstIsLastWhenUnique(starts, els[i].id);
    }
  }

  /**
   * The ids whose moved elements the artboard highlight is computed for:
   * the dragged ids, plus, when the primary element is an artboard, the ids
   * of elements whose own start entry names it as parent.
   */
  function ArtboardChildIds(updated: Scene, starts: Scene, artboardId: Id): (r: seq<Id>)
    ensures forall x :: x in r ==> exists i :: 0 <= i < |updated| && updated[i].id == x && FindById(starts, x).Some?
  {
    if updated == [] then []
    else
      var s := FindById(starts, updated[0].id);
      var rest := ArtboardChildIds(updated[1..], starts, artboardId);
      assert forall x :: x in rest ==> exists i :: 0 <= i < |updated| && updated[i].id == x && FindById(starts, x).Some? by {
        forall x | x in rest
          ensures exists i :: 0 <= i < |updated| && updated[i].id == x && FindById(starts, x).Some?
        {
          var i :| 0 <= i < |updated[1..]| && updated[1..][i].id == x && FindById(starts, x).Some?;
          assert updated[i + 1].id == x;
        }
      }
      (if s.Some? && s.value.parentId == Some(artboardId) then [updated[0].id] else []) + rest
  }

  /**
   * The artboard step adds no id: it only looks at elements that have a
   * start entry of their own, and those are already dragged.
   */
  lemma ArtboardStepAddsNoId(updated: Scene, starts: Scene, artboardId: Id, x: Id)
    requires x in ArtboardChildIds(updated, starts, artboardId)
    ensures x in Ids(starts)
  {
    var s := FindById(starts, x).value;
    var k :| 0 <= k < |starts| && starts[k] == s;
    assert Ids(starts)[k] == x;
  }

  /** Moving keeps every element's id at its index, so whatever was found is still found. */
  lemma MovedKeepsIds(els: Scene, starts: Scene, dx: real, dy: real, id: Id)
    requires FindById(els, id).Some?
    ensures FindById(MovedFromStart(els, starts, dx, dy), id).Some?
  {
    var k :| 0 <= k < |els| && els[k].id == id;
    assert MovedFromStart(els, starts, dx, dy)[k].id == id;
  }

  /**
   * The artboard the moved elements would join: computed for the dragged
   * elements, plus the children of the primary element when it is an artboard.
   * Those children are dragged already, so the artboard that lights up is
   * the parent, under the 50% rule among the scene's artboards, of the
   * first dragged element in scene order (not necessarily the primary one).
   */
  function DragHighlight(t: Trig, overlap: ArtboardAssociation.Overlap, updated: Scene, starts: Scene, elements: Scene): (r: Option<Id>)
    requires starts != [] && FindById(updated, starts[0].id).Some?
    ensures var moved := Partition(updated, Ids(starts), true);
            moved != [] && r == ArtboardAssociation.ParentArtboard(t, overlap, moved[0], ArtboardAssociation.Artboards(elements))
    ensures r.Some? ==> exists a :: a in elements && a.kind == Artboard && a.id == r.value
  {
    var primary := FindById(updated, starts[0].id).value;
    var childIds := if primary.kind == Artboard then ArtboardChildIds(updated, starts, primary.id) else [];
    var elementIdsToMove := Ids(starts) + childIds;
    forall e | e in updated ensures e.id in elementIdsToMove <==> e.id in Ids(starts) {
      if e.id in childIds {
        ArtboardStepAddsNoId(updated, starts, primary.id, e.id);
      }
    }
    PartitionSameMembership(updated, elementIdsToMove, Ids(starts), true);
    assert Ids(starts)[0] == starts[0].id;
    assert primary in Partition(updated, Ids(starts), true);
    ArtboardAssociation.ArtboardHighlight(t, overlap, Partition(updated, elementIdsToMove, true), elements)
  }

  /**
   * The first dragged element in scene order, the one `DragHighlight`
   * reads, is dragged and comes before every other dragged element.
   */
  lemma HighlightReadsFirstDragged(updated: Scene, starts: Scene)
    requires starts != [] && FindById(updated, starts[0].id).Some?
    ensures var moved := Partition(updated, Ids(starts), true);
            moved != [] &&
            exists i :: 0 <= i < |updated| && updated[i] == moved[0] && updated[i].id in Ids(starts) &&
                        forall j :: 0 <= j < i ==> updated[j].id !in Ids(starts)
  {
    var primary := FindById(updated, starts[0].id).value;
    assert Ids(starts)[0] == starts[0].id;
    assert primary in Partition(updated, Ids(starts), true);
    PartitionHead(updated, Ids(starts), true);
  }

  /**
   * `handleDragging`, newer revision. Without a box, snap settings, grab
   * offsets or start group it returns the scene unchanged; likewise when
   * the primary element has no grab offset. Otherwise every dragged element
   * is placed at its start position plus one total displacement: the one
   * that takes the primary element to the pointer less its grab offset,
   * plus the snap; the box moves by the same displacement from its start.
   * The source reads the primary element's kind from the moved scene, so
   * that element must be in it.
   */
  function HandleDragging(t: Trig, overlap: ArtboardAssociation.Overlap, mv: DragMove, data: DragState, elements: Scene): (r: DragStep)
    requires Moving(mv, data) ==> FindById(elements, data.startElements[0].id).Some?
    ensures !Moving(mv, data) ==> r == DragStep(elements, None, None, None)
    ensures Moving(mv, data) ==>
              var d := TotalDelta(mv, data, elements);
              r.updatedElements == MovedFromStart(elements, data.startElements, d.x, d.y) &&
              r.newBoundingBox == Some(ShiftedBox(data.initialGroupState.value.boundingBox, d)) &&
              r.snapLines == Some(DragSnap(mv, data, elements).snapLines) && r.highlight.Some?
    ensures Moving(mv, data) ==>
              var moved := Partition(r.updatedElements, Ids(data.startElements), true);
              moved != [] &&
              r.highlight.value == ArtboardAssociation.ParentArtboard(t, overlap, moved[0], ArtboardAssociation.Artboards(elements))
  {
    if !Armed(mv, data) then DragStep(elements, None, None, None)
    else if data.startElements == [] || FindOffset(data.elementOffsets, data.startElements[0].id).None? then
      DragStep(elements, None, None, None)
    else MovingStep(t, overlap, mv, data, elements)
  }

  /** The part of `handleDragging` past both guards. */
  function MovingStep(t: Trig, overlap: ArtboardAssociation.Overlap, mv: DragMove, data: DragState, elements: Scene): (r: DragStep)
    requires Moving(mv, data) && FindById(elements, data.startElements[0].id).Some?
    ensures var d := TotalDelta(mv, data, elements);
            r.updatedElements == MovedFromStart(elements, data.startElements, d.x, d.y)
    ensures r.newBoundingBox == Some(ShiftedBox(data.initialGroupState.value.boundingBox, TotalDelta(mv, data, elements)))
    ensures r.snapLines == Some(DragSnap(mv, data, elements).snapLines) && r.highlight.Some?
    ensures var moved := Partition(r.updatedElements, Ids(data.startElements), true);
            moved != [] &&
            r.highlight.value == ArtboardAssociation.ParentArtboard(t, overlap, moved[0], ArtboardAssociation.Artboards(elements))
  {
    var snapResult := DragSnap(mv, data, elements);
    var d := TotalDelta(mv, data, elements);
    var updatedElements := MovedFromStart(elements, data.startElements, d.x, d.y);
    MovedKeepsIds(elements, data.startElements, d.x, d.y, data.startElements[0].id);
    var highlightedArtboardId := DragHighlight(t, overlap, updatedElements, data.startElements, elements);
    DragStep(updatedElements, Some(ShiftedBox(data.initialGroupState.value.boundingBox, d)), Some(snapResult.snapLines), Some(highlightedArtboardId))
  }

  /** The box moved by `d`. */
  function ShiftedBox(box: Element, d: Point): (r: Element)
    ensures r.x - box.x == d.x && r.y - box.y == d.y
    ensures r == box.(x := r.x, y := r.y)
  {
    box.(x := box.x + d.x, y := box.y + d.y)
  }

  /**
   * All dragged elements move by the same displacement from their start
   * positions, the box by that displacement too, and the other elements
   * stay where they are.
   */
  lemma DraggedElementsShareOneDelta(t: Trig, overlap: ArtboardAssociation.Overlap, mv: DragMove, data: DragState,
                                     elements: Scene, i: int)
    requires Moving(mv, data) && FindById(elements, data.startElements[0].id).Some?
    requires 0 <= i < |elements|
    ensures var r := HandleDragging(t, overlap, mv, data, elements);
            var s := FindById(data.startElements, elements[i].id);
            var box := data.initialGroupState.value.boundingBox;
            (s.Some? ==> r.updatedElements[i].x - s.value.x == r.newBoundingBox.value.x - box.x &&
                         r.updatedElements[i].y - s.value.y == r.newBoundingBox.value.y - box.y) &&
            (s.None? ==> r.updatedElements[i] == elements[i])
  {
  }

  /**
   * With snapping off, or with Meta or Ctrl held without Shift, the primary
   * element lands exactly at the pointer less its grab offset.
   */
  lemma UnsnappedPrimaryFollowsPointer(t: Trig, overlap: ArtboardAssociation.Overlap, mv: DragMove, data: DragState,
                                       elements: Scene, i: int)
    requires Moving(mv, data) && FindById(elements, data.startElements[0].id).Some?
    requires !mv.snapSettings.value.isEnabled || (!mv.shiftKey && (mv.metaKey || mv.ctrlKey))
    requires 0 <= i < |elements| && elements[i].id == data.startElements[0].id
    ensures var r := HandleDragging(t, overlap, mv, data, elements);
            var off := FindOffset(data.elementOffsets, data.startElements[0].id).value;
            r.updatedElements[i].x == mv.worldPos.x - off.offsetX &&
            r.updatedElements[i].y == mv.worldPos.y - off.offsetY
  {
    assert FindById(data.startElements, elements[i].id) == Some(data.startElements[0]);
  }

  /**
   * With snapping, the primary element lands within the tolerance, divided
   * by the zoom, of the pointer less its grab offset on each axis; Shift
   * doubles the tolerance.
   */
  lemma SnappedPrimaryStaysNearPointer(t: Trig, overlap: ArtboardAssociation.Overlap, mv: DragMove, data: DragState,
                                       elements: Scene, i: int)
    requires Moving(mv, data) && FindById(elements, data.startElements[0].id).Some?
    requires 0 <= i < |elements| && elements[i].id == data.startElements[0].id
    ensures var r := HandleDragging(t, overlap, mv, data, elements);
            var ideal := IdealPosition(mv, data);
            var tol := Tolerance(mv.snapSettings.value, mv.shiftKey, mv.metaKey, mv.ctrlKey);
            (r.updatedElements[i].x != ideal.x ==> Abs(r.updatedElements[i].x - ideal.x) < tol / mv.scale) &&
            (r.updatedElements[i].y != ideal.y ==> Abs(r.updatedElements[i].y - ideal.y) < tol / mv.scale)
  {
    var r := HandleDragging(t, overlap, mv, data, elements);
    var d := TotalDelta(mv, data, elements);
    var snap := DragSnap(mv, data, elements);
    var start := data.startElements[0];
    assert FindById(data.startElements, elements[i].id) == Some(start);
    assert r.updatedElements == MovedFromStart(elements, data.startElements, d.x, d.y);
    assert r.updatedElements[i].x == start.x + d.x && r.updatedElements[i].y == start.y + d.y;
    assert r.updatedElements[i].x - IdealPosition(mv, data).x == snap.snapOffset.x;
    assert r.updatedElements[i].y - IdealPosition(mv, data).y == snap.snapOffset.y;
  }

  /** The elements the snap is measured against are the same in two scenes that differ only in the dragged positions. */
  lemma {:induction false} StaticsAgree(a: Scene, b: Scene, starts: Scene)
    requires |a| == |b|
    requires forall i :: 0 <= i < |a| ==> b[i] == a[i].(x := b[i].x, y := b[i].y)
    requires forall i :: 0 <= i < |a| && FindById(starts, a[i].id).None? ==> b[i] == a[i]
    ensures Partition(a, Ids(starts), false) == Partition(b, Ids(starts), false)
  {
    if a != [] {
      assert b[0].id == a[0].id;
      StaticsAgree(a[1..], b[1..], starts);
    }
  }

  /** The snap, and so the displacement, depend on the scene only through the elements not dragged. */
  lemma SnapSeesOnlyStatics(mv: DragMove, data: DragState, a: Scene, b: Scene)
    requires Moving(mv, data)
    requires Partition(a, Ids(data.startElements), false) == Partition(b, Ids(data.startElements), false)
    ensures DragSnap(mv, data, a) == DragSnap(mv, data, b)
    ensures TotalDelta(mv, data, a) == TotalDelta(mv, data, b)
  {
  }

  /** Placing from the start snapshot forgets where the dragged elements were. */
  lemma MovedForgetsPositions(a: Scene, b: Scene, starts: Scene, dx: real, dy: real)
    requires |a| == |b|
    requires forall i :: 0 <= i < |a| ==> b[i] == a[i].(x := b[i].x, y := b[i].y)
    requires forall i :: 0 <= i < |a| && FindById(starts, a[i].id).None? ==> b[i] == a[i]
    ensures MovedFromStart(a, starts, dx, dy) == MovedFromStart(b, starts, dx, dy)
  {
    var ma, mb := MovedFromStart(a, starts, dx, dy), MovedFromStart(b, starts, dx, dy);
    forall i | 0 <= i < |a|
      ensures ma[i] == mb[i]
    {
      MovedForgetsPositionAt(a, b, starts, dx, dy, i);
    }
  }

  /** One index of `MovedForgetsPositions`. */
  lemma MovedForgetsPositionAt(a: Scene, b: Scene, starts: Scene, dx: real, dy: real, i: int)
    requires |a| == |b| && 0 <= i < |a|
    requires b[i] == a[i].(x := b[i].x, y := b[i].y)
    requires FindById(starts, a[i].id).None? ==> b[i] == a[i]
    ensures MovedFromStart(a, starts, dx, dy)[i] == MovedFromStart(b, starts, dx, dy)[i]
  {
    assert b[i].id == a[i].id;
  }

  /**
   * The newer drag is absolute: where the dragged elements currently are
   * does not matter, so two scenes that differ only in the dragged
   * elements' positions give the same result and box.
   */
  lemma DragIsAbsolute(t: Trig, overlap: ArtboardAssociation.Overlap, mv: DragMove, data: DragState, a: Scene, b: Scene)
    requires Moving(mv, data) && FindById(a, data.startElements[0].id).Some?
    requires |a| == |b|
    requires forall i :: 0 <= i < |a| ==> b[i] == a[i].(x := b[i].x, y := b[i].y)
    requires forall i :: 0 <= i < |a| && FindById(data.startElements, a[i].id).None? ==> b[i] == a[i]
    ensures FindById(b, data.startElements[0].id).Some?
    ensures var ra, rb := HandleDragging(t, overlap, mv, data, a), HandleDragging(t, overlap, mv, data, b);
            ra.updatedElements == rb.updatedElements && ra.newBoundingBox == rb.newBoundingBox && ra.snapLines == rb.snapLines
  {
    var k :| 0 <= k < |a| && a[k].id == data.startElements[0].id;
    assert b[k].id == a[k].id;
    StaticsAgree(a, b, data.startElements);
    SnapSeesOnlyStatics(mv, data, a, b);
    var d := TotalDelta(mv, data, a);
    MovedForgetsPositions(a, b, data.startElements, d.x, d.y);
  }

  // ---- transformInteraction.js -------------------------------------------------

  /** A transform's `data`, newer revision. */
  datatype TransformState = TransformState(
    rotating: bool,
    initialGroupState: Option<Transformations.GroupState>,
    startElements: seq<ActionHandlers.TransformStart>,
    activeHandle: HandleKind,
    interactionBox: Element,
    liveElements: Scene,
    lastWorldPos: Point)

  /**
   * `tryStartTransform`, newer revision: a hit handle on the selection box
   * starts a rotation (the rotation handle) or a resize (any other). A group
   * box records the group's start; any other box records one entry for the
   * selected element.
   */
  function TryStartTransform(t: Trig, ctx: Interactions.DownContext): (r: Option<TransformState>)
    requires ctx.selectionBox.Some? && ctx.selectionBox.value.kind != Group ==>
               Partition(ctx.elements, ctx.selectedIds, true) != []
    ensures var h := HandleAtPoint(t, ctx.worldPos, ctx.selectionBox, ctx.scale);
            (r.None? <==> ctx.selectionBox.None? || h.None?) &&
            (r.Some? ==>
               var box := ctx.selectionBox.value;
               var sel := Partition(ctx.elements, ctx.selectedIds, true);
               r.value.rotating == (h.value.kind == RotationHandle) && r.value.activeHandle == h.value.kind &&
               r.value.interactionBox == box && r.value.liveElements == ctx.elements &&
               r.value.lastWorldPos == ctx.worldPos &&
               (box.kind == Group ==>
                  r.value.startElements == [] && r.value.initialGroupState.Some? &&
                  var g := r.value.initialGroupState.value;
                  g.elements == sel && g.boundingBox == box && g.pivot == Some(h.value.pivot) &&
                  g.startAngle.Some? && g.rotation == Some(Rotation(box))) &&
               (box.kind != Group ==>
                  r.value.initialGroupState.None? && |r.value.startElements| == 1 &&
                  r.value.startElements[0].element == sel[0] && r.value.startElements[0].pivot == h.value.pivot))
  {
    if ctx.selectionBox.None? then None
    else
      var box := ctx.selectionBox.value;
      var handle := HandleAtPoint(t, ctx.worldPos, ctx.selectionBox, ctx.scale);
      if handle.None? then None
      else
        var isRotation := handle.value.kind == RotationHandle;
        var selectedElements := Partition(ctx.elements, ctx.selectedIds, true);
        if box.kind == Group then
          var groupCenter := Point(box.x + Num(box.width) / 2.0, box.y + Num(box.height) / 2.0);
          var startAngle := t.atan2(ctx.worldPos.y - groupCenter.y, ctx.worldPos.x - groupCenter.x);
          var g := Transformations.GroupState(selectedElements, box, Some(handle.value.pivot), Some(startAngle), Some(Rotation(box)));
          Some(TransformState(isRotation, Some(g), [], handle.value.kind, box, ctx.elements, ctx.worldPos))
        else
          var element := selectedElements[0];
          var center := Center(element);
          var startAngle := t.atan2(ctx.worldPos.y - center.y, ctx.worldPos.x - center.x);
          var entry := ActionHandlers.TransformStart(element, startAngle, handle.value.pivot);
          Some(TransformState(isRotation, None, [entry], handle.value.kind, box, ctx.elements, ctx.worldPos))
  }

  /**
   * The two revisions of the transform starter agree: they start on the
   * same presses, pick the same handler and handle, and record the same
   * single-element entry or the same group box, pivot and rotation.
   */
  lemma TransformStartersAgree(t: Trig, ctx: Interactions.DownContext)
    requires ctx.selectionBox.Some? && ctx.selectionBox.value.kind != Group ==>
               Partition(ctx.elements, ctx.selectedIds, true) != []
    ensures var n, o := TryStartTransform(t, ctx), Interactions.TryStartTransform(t, ctx);
            n.None? == o.None? &&
            (n.Some? ==>
               var d := o.value.interaction.data;
               d.kind == Some(if n.value.rotating then ActionHandlers.Rotating else ActionHandlers.Resizing) &&
               d.activeHandle == Some(n.value.activeHandle) && d.transformStarts == n.value.startElements &&
               d.initialGroupState.Some? == n.value.initialGroupState.Some? &&
               (d.initialGroupState.Some? ==>
                  var g, og := n.value.initialGroupState.value, d.initialGroupState.value;
                  og.elements == g.elements && og.boundingBox == g.boundingBox &&
                  Some(og.pivot) == g.pivot && Some(og.rotation) == g.rotation))
  {
    var n, o := TryStartTransform(t, ctx), Interactions.TryStartTransform(t, ctx);
    if n.Some? && n.value.initialGroupState.None? {
      var d := o.value.interaction.data;
      var sel := Partition(ctx.elements, ctx.selectedIds, true);
      assert d.transformStarts[0].element == sel[0] == n.value.startElements[0].element;
    }
  }

  /** What the transform handlers need from their data. */
  predicate TransformReady(data: TransformState) {
    (data.initialGroupState.Some? ==>
       data.initialGroupState.value.startAngle.Some? && data.initialGroupState.value.rotation.Some? &&
       data.initialGroupState.value.pivot.Some?) &&
    (data.initialGroupState.None? ==> |data.startElements| >= 1)
  }

  /** The transform move context's fields the handlers read. */
  datatype TransformMove = TransformMove(worldPos: Point, shiftKey: bool, ctrlKey: bool, metaKey: bool, selectedIds: seq<Id>)

  /**
   * A group's new angle: its start rotation plus the angle the pointer
   * swept about the box centre, snapped to 15° with Shift.
   */
  function GroupNewAngle(t: Trig, g: Transformations.GroupState, worldPos: Point, shift: bool): (a: real)
    requires g.startAngle.Some? && g.rotation.Some?
    ensures var c := BoxCenter(g.boundingBox);
            var swept := g.rotation.value + (t.atan2(worldPos.y - c.y, worldPos.x - c.x) - g.startAngle.value);
            (!shift ==> a == swept) &&
            (shift ==> Abs(a - swept) <= Transformations.SnapStep / 2.0 &&
                       (a / Transformations.SnapStep).Floor as real == a / Transformations.SnapStep)
  {
    var groupCenter := BoxCenter(g.boundingBox);
    var currentAngle := t.atan2(worldPos.y - groupCenter.y, worldPos.x - groupCenter.x);
    var newAngle := g.rotation.value + (currentAngle - g.startAngle.value);
    if shift then Transformations.SnapAngle(newAngle) else newAngle
  }

  /**
   * `handleRotating`, newer revision: a group turns through
   * `transformGroup_rotate` to its new angle; a single element turns about
   * its box centre and replaces every element with its id.
   */
  function HandleRotating(t: Trig, mv: TransformMove, data: TransformState, elements: Scene): (r: HandlerResult)
    requires TransformReady(data)
    ensures data.initialGroupState.Some? ==>
              var g := data.initialGroupState.value;
              var res := Transformations.TransformGroupRotate(t, elements, mv.selectedIds, BoxCenter(g.boundingBox),
                                                              GroupNewAngle(t, g, mv.worldPos, mv.shiftKey), g);
              r == HandlerResult(res.updatedElements, Some(res.newBoundingBox))
    ensures data.initialGroupState.None? ==>
              var st := data.startElements[0];
              var e := st.element;
              var updated := Transformations.RotateElement(t, e, st.startAngle, BoxCenter(e), st.startAngle, mv.worldPos, mv.shiftKey);
              r == HandlerResult(ReplaceById(elements, e.id, updated), Some(updated))
  {
    if data.initialGroupState.Some? then
      var g := data.initialGroupState.value;
      var groupCenter := BoxCenter(g.boundingBox);
      var newAngle := GroupNewAngle(t, g, mv.worldPos, mv.shiftKey);
      var res := Transformations.TransformGroupRotate(t, elements, mv.selectedIds, groupCenter, newAngle, g);
      HandlerResult(res.updatedElements, Some(res.newBoundingBox))
    else
      var st := data.startElements[0];
      var element := st.element;
      var center := BoxCenter(element);
      var updatedElement := Transformations.RotateElement(t, element, st.startAngle, center, st.startAngle, mv.worldPos, mv.shiftKey);
      HandlerResult(ReplaceById(elements, element.id, updatedElement), Some(updatedElement))
  }

  /**
   * A group rotation turns the box to the new angle and adds the same turn
   * to every selected member's start rotation; with Shift the angle is a
   * multiple of 15°.
   */
  lemma GroupRotationTurnsMembersAlike(t: Trig, mv: TransformMove, data: TransformState, elements: Scene, i: int)
    requires TransformReady(data) && data.initialGroupState.Some?
    requires 0 <= i < |elements| && elements[i].id in mv.selectedIds
    requires FindById(data.initialGroupState.value.elements, elements[i].id).Some?
    ensures var g := data.initialGroupState.value;
            var a := GroupNewAngle(t, g, mv.worldPos, mv.shiftKey);
            var r := HandleRotating(t, mv, data, elements);
            var s := FindById(g.elements, elements[i].id).value;
            r.newBoundingBox.value.rotation == Some(a) &&
            r.updatedElements[i].rotation == Some(Rotation(s) + (a - g.rotation.value)) &&
            (mv.shiftKey ==> (a / Transformations.SnapStep).Floor as real == a / Transformations.SnapStep)
  {
  }

  /** A single rotation changes only the elements with the rotated element's id, and only their rotation. */
  lemma SingleRotationTouchesOnlyItsElement(t: Trig, mv: TransformMove, data: TransformState, elements: Scene, i: int)
    requires TransformReady(data) && data.initialGroupState.None?
    requires 0 <= i < |elements|
    ensures var e := data.startElements[0].element;
            var r := HandleRotating(t, mv, data, elements);
            (elements[i].id != e.id ==> r.updatedElements[i] == elements[i]) &&
            (elements[i].id == e.id ==> r.updatedElements[i] == e.(rotation := r.updatedElements[i].rotation) &&
                                        r.newBoundingBox == Some(r.updatedElements[i]))
  {
  }

  /**
   * `handleResizing`, newer revision: a group's recorded box is resized about
   * the recorded pivot and the members remapped into it; a single element is
   * resized about its pivot and replaces every element with its id. Ctrl or
   * Meta resizes from the centre. `resizeElement` always returns an element,
   * so the handler's final fallback is never reached.
   */
  function HandleResizing(t: Trig, mv: TransformMove, data: TransformState, elements: Scene): (r: HandlerResult)
    requires TransformReady(data)
    ensures data.initialGroupState.Some? ==>
              var g := data.initialGroupState.value;
              var box := Transformations.ResizeElement(t, g.boundingBox, g.pivot.value, mv.worldPos, data.activeHandle,
                                                       mv.shiftKey, mv.ctrlKey || mv.metaKey);
              r == HandlerResult(Transformations.TransformGroupResize(t, elements, mv.selectedIds, box, g), Some(box))
    ensures data.initialGroupState.None? ==>
              var st := data.startElements[0];
              var updated := Transformations.ResizeElement(t, st.element, st.pivot, mv.worldPos, data.activeHandle,
                                                           mv.shiftKey, mv.ctrlKey || mv.metaKey);
              r == HandlerResult(ReplaceById(elements, st.element.id, updated), Some(updated))
  {
    var fromCenter := mv.ctrlKey || mv.metaKey;
    if data.initialGroupState.Some? then
      var g := data.initialGroupState.value;
      var newBoundingBox := Transformations.ResizeElement(t, g.boundingBox, g.pivot.value, mv.worldPos, data.activeHandle,
                                                          mv.shiftKey, fromCenter);
      var updatedElements := Transformations.TransformGroupResize(t, elements, mv.selectedIds, newBoundingBox, g);
      HandlerResult(updatedElements, Some(newBoundingBox))
    else
      var st := data.startElements[0];
      var updatedElement := Transformations.ResizeElement(t, st.element, st.pivot, mv.worldPos, data.activeHandle,
                                                          mv.shiftKey, fromCenter);
      HandlerResult(ReplaceById(elements, st.element.id, updatedElement), Some(updatedElement))
  }

  /**
   * Resizing one element with Ctrl or Meta held leaves its centre where it
   * was, and touches no element with another id.
   */
  lemma CenterResizeKeepsElementCenter(t: Trig, mv: TransformMove, data: TransformState, elements: Scene, i: int)
    requires TransformReady(data) && data.initialGroupState.None?
    requires mv.ctrlKey || mv.metaKey
    requires HasHandles(data.startElements[0].element)
    requires 0 <= i < |elements|
    ensures var e := data.startElements[0].element;
            var r := HandleResizing(t, mv, data, elements);
            (elements[i].id == e.id ==> Center(r.updatedElements[i]) == Center(e)) &&
            (elements[i].id != e.id ==> r.updatedElements[i] == elements[i])
  {
    var st := data.startElements[0];
    Transformations.ResizeFromCenterKeepsCenter(t, st.element, st.pivot, mv.worldPos, data.activeHandle, mv.shiftKey);
  }

  /** Resizing a group box with Ctrl or Meta held leaves the box centre where it was. */
  lemma CenterResizeKeepsGroupCenter(t: Trig, mv: TransformMove, data: TransformState, elements: Scene)
    requires TransformReady(data) && data.initialGroupState.Some?
    requires mv.ctrlKey || mv.metaKey
    requires HasHandles(data.initialGroupState.value.boundingBox)
    ensures Center(HandleResizing(t, mv, data, elements).newBoundingBox.value) == Center(data.initialGroupState.value.boundingBox)
  {
    var g := data.initialGroupState.value;
    Transformations.ResizeFromCenterKeepsCenter(t, g.boundingBox, g.pivot.value, mv.worldPos, data.activeHandle, mv.shiftKey);
  }
}
