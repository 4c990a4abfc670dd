/**
 * The older interaction starters (the files under `src/interactions`): each looks at a
 * mouse-down and either declines (null) or returns the interaction to run,
 * possibly after setting the selection or the marquee. Also the
 * duplicate-on-drag step.
 */
module Interactions {
  import opened Model
  import opened Geometry
  import opened ActionHandlers

  /** The mouse-down context the starters read. */
  datatype DownContext = DownContext(
    button: int,
    shiftKey: bool,
    mousePos: Point,
    worldPos: Point,
    scale: Scale,
    elements: Scene,
    selectedIds: seq<Id>,
    selectionBox: Option<Element>)

  /**
   * A starter's answer: the interaction, and the `setSelectedElementIds` and
   * `setSelectionRect` calls it made on the way.
   */
  datatype Start = Start(interaction: Interaction, selection: Option<seq<Id>>, rect: Option<Box>)

  /** The zero-size marquee at a point. */
  function ZeroRect(p: Point): Box {
    Box(p.x, p.y, 0.0, 0.0)
  }

  /** The marquee interaction starting at `worldPos`. */
  function SelectingFrom(worldPos: Point): (i: Interaction)
    ensures i.handler == Some(Selecting) && i.data.kind == Some(Selecting)
    ensures i.data.startWorldPoint == Some(worldPos) && i.data.lastWorldPos.None?
  {
    Interaction(Some(Selecting), NoData.(kind := Some(Selecting), startWorldPoint := Some(worldPos)))
  }

  // ---- pan.js ----------------------------------------------------------------

  /** `tryStartPanning`: only the middle button pans; nothing else is touched. */
  function TryStartPanning(ctx: DownContext): (r: Option<Start>)
    ensures r.None? <==> ctx.button != 1
    ensures r.Some? ==> r.value.selection.None? && r.value.rect.None? &&
                        r.value.interaction.handler == Some(Panning) &&
                        r.value.interaction.data == NoData.(kind := Some(Panning), lastPanPoint := Some(ctx.mousePos))
  {
    if ctx.button != 1 then None
    else Some(Start(Interaction(Some(Panning), NoData.(kind := Some(Panning), lastPanPoint := Some(ctx.mousePos))), None, None))
  }

  // ---- transform.js ----------------------------------------------------------

  /**
   * `tryStartTransform`: a hit handle on the selection box starts a rotation
   * (the rotation handle) or a resize (any other). A group box records the
   * group's start; a single box records one entry for its element.
   * The box of a single element is the one selected element, so the
   * selection holds an element whenever the box is not a group box.
   */
  function TryStartTransform(t: Trig, ctx: DownContext): (r: Option<Start>)
    requires ctx.selectionBox.Some? && ctx.selectionBox.value.kind != Group ==>
               Partition(ctx.elements, ctx.selectedIds, true) != []
    ensures var h := HandleAtPoint(t, ctx.worldPos, ctx.selectionBox, ctx.scale);
            (r.None? <==> ctx.selectionBox.None? || h.None?) &&
            (r.Some? ==>
               var d := r.value.interaction.data;
               var kind := if h.value.kind == RotationHandle then Rotating else Resizing;
               r.value.selection.None? && r.value.rect.None? &&
               r.value.interaction.handler == Some(kind) && d.kind == Some(kind) &&
               d.activeHandle == Some(h.value.kind) && d.interactionBox == ctx.selectionBox &&
               d.liveElements == Some(ctx.elements) && d.lastWorldPos == Some(ctx.worldPos) &&
               TransformReady(d) &&
               (ctx.selectionBox.value.kind == Group ==>
                  d.transformStarts == [] && d.initialGroupState.Some? &&
                  d.initialGroupState.value.boundingBox == ctx.selectionBox.value &&
                  d.initialGroupState.value.pivot == h.value.pivot &&
                  d.initialGroupState.value.rotation == Rotation(ctx.selectionBox.value)) &&
               (ctx.selectionBox.value.kind != Group ==>
                  d.initialGroupState.None? && |d.transformStarts| == 1 &&
                  d.transformStarts[0].element == Partition(ctx.elements, ctx.selectedIds, true)[0] &&
                  d.transformStarts[0].pivot == h.value.pivot))
  {
    if ctx.selectionBox.None? then None
    else
      var box := ctx.selectionBox.value;
      var handle := HandleAtPoint(t, ctx.worldPos, ctx.selectionBox, ctx.scale);
      if handle.None? then None
      else
        var isRotation := handle.value.kind == RotationHandle;
        var selectedElements := Partition(ctx.elements, ctx.selectedIds, true);
        var kind := if isRotation then Rotating else Resizing;
        var data := NoData.(kind := Some(kind), activeHandle := Some(handle.value.kind), interactionBox := ctx.selectionBox,
                            liveElements := Some(ctx.elements), lastWorldPos := Some(ctx.worldPos));
        if box.kind == Group then
          var groupCenter := Point(box.x + Num(box.width) / 2.0, box.y + Num(box.height) / 2.0);
          var startAngle := t.atan2(ctx.worldPos.y - groupCenter.y, ctx.worldPos.x - groupCenter.x);
          var g := TransformGroup(selectedElements, box, handle.value.pivot, startAngle, Rotation(box));
          Some(Start(Interaction(Some(kind), data.(initialGroupState := Some(g))), None, None))
        else
          var element := selectedElements[0];
          var center := Center(element);
          var startAngle := t.atan2(ctx.worldPos.y - center.y, ctx.worldPos.x - center.x);
          var entry := TransformStart(element, startAngle, handle.value.pivot);
          Some(Start(Interaction(Some(kind), data.(transformStarts := [entry])), None, None))
  }

  // ---- drag.js ---------------------------------------------------------------

  /** Shift-click: the clicked id leaves the selection if it was in it, otherwise joins at the end. */
  function Toggled(selectedIds: seq<Id>, id: Id): (r: seq<Id>)
    ensures id in selectedIds ==> forall x :: x in r <==> x in selectedIds && x != id
    ensures id !in selectedIds ==> r == selectedIds + [id]
  {
    if id in selectedIds then FilterOut(selectedIds, id) else selectedIds + [id]
  }

  function FilterOut(ids: seq<Id>, id: Id): (r: seq<Id>)
    ensures forall x :: x in r <==> x in ids && x != id
  {
    if ids == [] then [] else (if ids[0] == id then [] else [ids[0]]) + FilterOut(ids[1..], id)
  }

  /** The box a drag moves: computed afresh for a new selection, the current selection box otherwise. */
  function DragBox(t: Trig, ctx: DownContext, isNewSelection: bool, elementsToDrag: Scene): (r: Option<Element>)
    ensures !isNewSelection ==> r == ctx.selectionBox
    ensures isNewSelection ==> (r.None? <==> |elementsToDrag| <= 1) && (r.Some? ==> r.value.kind == Group)
  {
    if isNewSelection then GroupSelectionBox(t, elementsToDrag, None) else ctx.selectionBox
  }

  /** The drag interaction for the elements to drag. */
  function DraggingFrom(t: Trig, ctx: DownContext, isNewSelection: bool, elementsToDrag: Scene): (r: Interaction)
    ensures r.handler == Some(Dragging) && r.data.kind == Some(Dragging)
    ensures r.data.startElements == elementsToDrag && r.data.liveElements == Some(ctx.elements)
    ensures r.data.startWorldPoint == Some(ctx.worldPos) && r.data.lastWorldPos == Some(ctx.worldPos)
    ensures r.data.interactionBox == DragBox(t, ctx, isNewSelection, elementsToDrag)
    ensures r.data.initialGroupState.Some? <==> r.data.interactionBox.Some?
  {
    var interactionBox := DragBox(t, ctx, isNewSelection, elementsToDrag);
    var initialGroupState := if interactionBox.Some? then Some(DragGroup(elementsToDrag, interactionBox.value)) else None;
    Interaction(Some(Dragging),
                NoData.(kind := Some(Dragging), startWorldPoint := Some(ctx.worldPos), lastWorldPos := Some(ctx.worldPos),
                        startElements := elementsToDrag, initialGroupState := initialGroupState,
                        interactionBox := interactionBox, liveElements := Some(ctx.elements)))
  }

  /**
   * `tryStartDragging`. It declines when the click hits no element and
   * falls outside the selection box. A shift-click toggles the clicked id
   * and stops. A click on an unselected element selects and drags only it;
   * otherwise the whole selection is dragged. A click inside the box with
   * nothing selected falls back to a marquee.
   */
  function TryStartDragging(t: Trig, ctx: DownContext): (r: Option<Start>)
    ensures var clicked := ClickedElement(t, ctx.worldPos, ctx.elements);
            var inBox := ctx.selectionBox.Some? && PointInsideRotatedBox(t, ctx.worldPos, ctx.selectionBox.value);
            clicked.None? && !inBox ==> r.None?
    ensures var clicked := ClickedElement(t, ctx.worldPos, ctx.elements);
            clicked.Some? && ctx.shiftKey ==>
              r == Some(Start(Idle, Some(Toggled(ctx.selectedIds, clicked.value.id)), None))
    ensures var clicked := ClickedElement(t, ctx.worldPos, ctx.elements);
            var inBox := ctx.selectionBox.Some? && PointInsideRotatedBox(t, ctx.worldPos, ctx.selectionBox.value);
            clicked.None? && inBox && Partition(ctx.elements, ctx.selectedIds, true) == [] ==>
              r == Some(Start(SelectingFrom(ctx.worldPos), None, Some(ZeroRect(ctx.worldPos))))
    ensures var clicked := ClickedElement(t, ctx.worldPos, ctx.elements);
            clicked.Some? && !ctx.shiftKey && clicked.value.id !in ctx.selectedIds ==>
              r == Some(Start(DraggingFrom(t, ctx, true, [clicked.value]), Some([clicked.value.id]), None))
    ensures var clicked := ClickedElement(t, ctx.worldPos, ctx.elements);
            var inBox := ctx.selectionBox.Some? && PointInsideRotatedBox(t, ctx.worldPos, ctx.selectionBox.value);
            var sel := Partition(ctx.elements, ctx.selectedIds, true);
            ((clicked.Some? && !ctx.shiftKey && clicked.value.id in ctx.selectedIds) || (clicked.None? && inBox && sel != [])) ==>
              r == Some(Start(DraggingFrom(t, ctx, false, sel), None, None))
  {
    var clickedElement := ClickedElement(t, ctx.worldPos, ctx.elements);
    var inBox := ctx.selectionBox.Some? && PointInsideRotatedBox(t, ctx.worldPos, ctx.selectionBox.value);
    if clickedElement.None? && !inBox then None
    else if clickedElement.Some? && ctx.shiftKey then
      Some(Start(Idle, Some(Toggled(ctx.selectedIds, clickedElement.value.id)), None))
    else
      var isNewSelection := clickedElement.Some? && clickedElement.value.id !in ctx.selectedIds;
      var elementsToDrag := if isNewSelection then [clickedElement.value] else Partition(ctx.elements, ctx.selectedIds, true);
      if |elementsToDrag| == 0 then
        if clickedElement.None? then Some(Start(SelectingFrom(ctx.worldPos), None, Some(ZeroRect(ctx.worldPos))))
        else None
      else
        var selection := if isNewSelection then Some([clickedElement.value.id]) else None;
        Some(Start(DraggingFrom(t, ctx, isNewSelection, elementsToDrag), selection, None))
  }

  /** A click on a selected element always has something to drag: the selection holds it. */
  lemma ClickedSelectedIsDragged(t: Trig, ctx: DownContext)
    requires var clicked := ClickedElement(t, ctx.worldPos, ctx.elements);
             clicked.Some? && clicked.value.id in ctx.selectedIds
    ensures ClickedElement(t, ctx.worldPos, ctx.elements).value in Partition(ctx.elements, ctx.selectedIds, true)
  {
  }

  /**
   * Clicking an element that is not selected and dragging it records no
   * interaction box: the group box of a single element is null, so the
   * drag handler leaves every element where it is.
   */
  lemma NewClickDragHasNoBox(t: Trig, ctx: DownContext)
    requires var clicked := ClickedElement(t, ctx.worldPos, ctx.elements);
             clicked.Some? && clicked.value.id !in ctx.selectedIds && !ctx.shiftKey
    ensures var r := TryStartDragging(t, ctx).value;
            r.interaction.data.interactionBox.None? &&
            forall mc: MoveContext, els: Scene :: HandleDragging(mc, r.interaction.data, els).result.value.updatedElements == Some(els)
  {
  }

  /**
   * The box a new single-element drag evidently means: the element itself,
   * as the selection box of one selected element is.
   */
  function DragBoxCorrected(t: Trig, ctx: DownContext, isNewSelection: bool, elementsToDrag: Scene): (r: Option<Element>)
    requires elementsToDrag != []
    ensures |elementsToDrag| == 1 && isNewSelection ==> r == Some(elementsToDrag[0])
    ensures r.None? ==> !isNewSelection && ctx.selectionBox.None?
  {
    if isNewSelection then
      if |elementsToDrag| == 1 then Some(elementsToDrag[0]) else GroupSelectionBox(t, elementsToDrag, None)
    else ctx.selectionBox
  }

  /** With the corrected box, a drag started on a new element moves it with the pointer. */
  lemma NewClickDragMovesWhenCorrected(t: Trig, ctx: DownContext, mc: MoveContext, data: Data, i: int)
    requires var clicked := ClickedElement(t, ctx.worldPos, ctx.elements);
             clicked.Some? && clicked.value.id !in ctx.selectedIds && !ctx.shiftKey
    requires var clicked := ClickedElement(t, ctx.worldPos, ctx.elements);
             data == TryStartDragging(t, ctx).value.interaction.data.(interactionBox := DragBoxCorrected(t, ctx, true, [clicked.value]))
    requires 0 <= i < |ctx.elements| && ctx.elements[i].id == ClickedElement(t, ctx.worldPos, ctx.elements).value.id
    ensures var moved := HandleDragging(mc, data, ctx.elements).result.value.updatedElements.value;
            moved[i] == ctx.elements[i].(x := ctx.elements[i].x + mc.dx, y := ctx.elements[i].y + mc.dy)
  {
    var clicked := ClickedElement(t, ctx.worldPos, ctx.elements).value;
    assert Ids([clicked]) == [clicked.id];
  }

  // ---- select.js -------------------------------------------------------------

  /** `startMarqueeSelection`: never declines; clears the selection and starts a zero marquee. */
  function StartMarqueeSelection(ctx: DownContext): (r: Start)
    ensures r.selection == Some([]) && r.rect == Some(ZeroRect(ctx.worldPos))
    ensures r.interaction == SelectingFrom(ctx.worldPos)
  {
    Start(SelectingFrom(ctx.worldPos), Some([]), Some(ZeroRect(ctx.worldPos)))
  }

  // ---- duplicate.js ----------------------------------------------------------

  /** The clones: each start element with the id `now + index`. */
  function Clones(startElements: Scene, now: Id): (r: Scene)
    ensures |r| == |startElements|
    ensures forall i :: 0 <= i < |r| ==> r[i] == startElements[i].(id := now + i)
  {
    seq(|startElements|, i requires 0 <= i < |startElements| => startElements[i].(id := now + i))
  }

  /** Clones made in one call carry pairwise different ids. */
  lemma ClonesHaveDistinctIds(startElements: Scene, now: Id)
    ensures UniqueIds(Clones(startElements, now))
  {
  }

  /** Whether `tryDuplicateOnDrag` acts: a drag, Meta or Ctrl held, and no duplicate yet in this drag. */
  predicate ShouldDuplicate(data: Data, metaKey: bool, ctrlKey: bool, didDuplicate: bool): (b: bool)
    ensures didDuplicate ==> !b
    ensures b ==> data.kind == Some(Dragging) && (metaKey || ctrlKey)
  {
    data.kind == Some(Dragging) && (metaKey || ctrlKey) && !didDuplicate
  }

  /**
   * The data after a duplication: the clones are appended to the live
   * scene and become what is dragged.
   */
  function Duplicated(data: Data, now: Id): (d: Data)
    requires data.liveElements.Some?
    ensures d.liveElements == Some(data.liveElements.value + Clones(data.startElements, now))
    ensures d.startElements == Clones(data.startElements, now)
    ensures d == data.(liveElements := d.liveElements, startElements := d.startElements)
  {
    var clonedElements := Clones(data.startElements, now);
    data.(liveElements := Some(data.liveElements.value + clonedElements), startElements := clonedElements)
  }
}
