/**
 * The older canvas gesture machine (`useCanvasInteraction`). A mouse-down
 * asks the starters in priority order for an interaction; each mouse-move
 * runs that interaction's handler and folds its answer into the live
 * record; the mouse-up decides what to commit to history, may set the
 * selection, and returns to idle.
 *
 * The hook's state is `interactionState.current` (handler and data), the
 * selected ids and the marquee rectangle. The duplicate-on-drag step also
 * needs the `didDuplicateOnDragRef` latch, which is not the hook's own but
 * belongs to the context `tryDuplicateOnDrag` is called with; the class
 * carries it as a field so that step can be stated. The pan
 * offset belongs to the navigation hook; it is carried here because a pan
 * would change it.
 */
module CanvasInteraction {
  import opened Model
  import opened Geometry
  import opened ActionHandlers
  import opened Interactions
  import SelectionBox
  import ChangeDetection

  /** The fields of a mouse event the hook reads; `mousePos` is already canvas-relative. */
  datatype MouseEvent = MouseEvent(button: int, shiftKey: bool, ctrlKey: bool, metaKey: bool, mousePos: Point)

  /** The hook's state between events. */
  datatype Canvas = Canvas(interaction: Interaction, selectedIds: seq<Id>, selectionRect: Option<Box>, offset: Point)

  /**
   * What every interaction a starter builds, and every move keeps, holds:
   * the data's type names the handler, and each handler finds the fields
   * it reads.
   */
  predicate Coherent(i: Interaction) {
    match i.handler
    case None => i.data.kind.None?
    case Some(g) =>
      i.data.kind == Some(g) &&
      (g == Selecting ==> i.data.startWorldPoint.Some?) &&
      (g == Dragging || g == Rotating || g == Resizing ==> i.data.liveElements.Some? && i.data.lastWorldPos.Some?) &&
      (g == Rotating || g == Resizing ==> TransformReady(i.data) && i.data.activeHandle.Some?)
  }

  // ---- Mouse-down ------------------------------------------------------------

  /**
   * The context the starters see. The older hook never sets an active
   * group box, so the selection box is the one chosen from the selection.
   */
  function DownContextOf(t: Trig, c: Canvas, ev: MouseEvent, elements: Scene, scale: Scale): (ctx: DownContext)
    ensures ctx.worldPos == PointInWorld(ev.mousePos, c.offset, scale)
    ensures ctx.selectionBox.Some? && ctx.selectionBox.value.kind != Group ==>
              Partition(elements, c.selectedIds, true) != []
  {
    var choice := SelectionBox.ChooseSelectionBox(t, None, elements, c.selectedIds);
    DownContext(ev.button, ev.shiftKey, ev.mousePos, PointInWorld(ev.mousePos, c.offset, scale), scale,
                elements, c.selectedIds, choice.selectionBox)
  }

  /** `tryStartPanning || tryStartTransform || tryStartDragging || startMarqueeSelection`. */
  function FirstStart(t: Trig, ctx: DownContext): (s: Start)
    requires ctx.selectionBox.Some? && ctx.selectionBox.value.kind != Group ==>
               Partition(ctx.elements, ctx.selectedIds, true) != []
    ensures TryStartPanning(ctx).Some? ==> s == TryStartPanning(ctx).value
    ensures TryStartPanning(ctx).None? && TryStartTransform(t, ctx).Some? ==> s == TryStartTransform(t, ctx).value
    ensures TryStartPanning(ctx).None? && TryStartTransform(t, ctx).None? && TryStartDragging(t, ctx).Some? ==>
              s == TryStartDragging(t, ctx).value
    ensures TryStartPanning(ctx).None? && TryStartTransform(t, ctx).None? && TryStartDragging(t, ctx).None? ==>
              s == StartMarqueeSelection(ctx)
    ensures Coherent(s.interaction)
  {
    var pan := TryStartPanning(ctx);
    if pan.Some? then pan.value
    else
      var transform := TryStartTransform(t, ctx);
      if transform.Some? then transform.value
      else
        var drag := TryStartDragging(t, ctx);
        if drag.Some? then drag.value
        else StartMarqueeSelection(ctx)
  }

  /** `handleMouseDown`: the winning starter's interaction replaces the current one. */
  function Down(t: Trig, c: Canvas, ev: MouseEvent, elements: Scene, scale: Scale): (r: Canvas)
    ensures var s := FirstStart(t, DownContextOf(t, c, ev, elements, scale));
            r.interaction == s.interaction &&
            r.selectedIds == (if s.selection.Some? then s.selection.value else c.selectedIds) &&
            r.selectionRect == (if s.rect.Some? then s.rect else c.selectionRect) &&
            r.offset == c.offset
    ensures Coherent(r.interaction)
  {
    var s := FirstStart(t, DownContextOf(t, c, ev, elements, scale));
    Canvas(s.interaction,
           if s.selection.Some? then s.selection.value else c.selectedIds,
           if s.rect.Some? then s.rect else c.selectionRect,
           c.offset)
  }

  /** The middle button pans wherever it is pressed, and leaves selection and marquee alone. */
  lemma MiddleButtonAlwaysPans(t: Trig, c: Canvas, ev: MouseEvent, elements: Scene, scale: Scale)
    requires ev.button == 1
    ensures var r := Down(t, c, ev, elements, scale);
            r.interaction.handler == Some(Panning) && r.interaction.data.lastPanPoint == Some(ev.mousePos) &&
            r.selectedIds == c.selectedIds && r.selectionRect == c.selectionRect
  {
  }

  /**
   * A primary click that hits no element and no selection box starts a
   * marquee at the pointer and clears the selection.
   */
  lemma EmptyClickStartsMarquee(t: Trig, c: Canvas, ev: MouseEvent, elements: Scene, scale: Scale)
    requires ev.button != 1
    requires Partition(elements, c.selectedIds, true) == []
    requires ClickedElement(t, PointInWorld(ev.mousePos, c.offset, scale), elements).None?
    ensures var r := Down(t, c, ev, elements, scale);
            var w := PointInWorld(ev.mousePos, c.offset, scale);
            r.interaction == SelectingFrom(w) && r.selectedIds == [] && r.selectionRect == Some(ZeroRect(w))
  {
    var ctx := DownContextOf(t, c, ev, elements, scale);
    assert ctx.selectionBox.None?;
  }

  /**
   * A shift-click on an element, off every handle, toggles it in the
   * selection and leaves the machine idle: the following moves and the
   * mouse-up do nothing.
   */
  lemma ShiftClickTogglesAndIdles(t: Trig, c: Canvas, ev: MouseEvent, elements: Scene, scale: Scale)
    requires ev.button != 1 && ev.shiftKey
    requires var ctx := DownContextOf(t, c, ev, elements, scale);
             TryStartTransform(t, ctx).None? && ClickedElement(t, ctx.worldPos, elements).Some?
    ensures var r := Down(t, c, ev, elements, scale);
            var w := PointInWorld(ev.mousePos, c.offset, scale);
            r.interaction == Idle &&
            r.selectedIds == Toggled(c.selectedIds, ClickedElement(t, w, elements).value.id)
  {
  }

  // ---- Mouse-move ------------------------------------------------------------

  /** `handler(context)` for the running gesture, on the live scene. */
  function RunHandler(t: Trig, lt: LegacyTransforms, g: Gesture, ctx: MoveContext, data: Data): (s: Step)
    requires Coherent(Interaction(Some(g), data))
    ensures g == Panning ==> s == PanningCalledWithContext()
    ensures g == Selecting ==> s == HandleSelecting(ctx, data)
    ensures g == Dragging ==> s == HandleDragging(ctx, data, data.liveElements.value)
    ensures g == Rotating ==> s == HandleRotating(t, lt, ctx, data, data.liveElements.value)
    ensures g == Resizing ==> s == HandleResizing(lt, ctx, data, data.liveElements.value)
  {
    match g
    case Panning => PanningCalledWithContext()
    case Selecting => HandleSelecting(ctx, data)
    case Dragging => HandleDragging(ctx, data, data.liveElements.value)
    case Rotating => HandleRotating(t, lt, ctx, data, data.liveElements.value)
    case Resizing => HandleResizing(lt, ctx, data, data.liveElements.value)
  }

  /** This move's world-space delta: from the last recorded world position, or zero. */
  function MoveDelta(data: Data, worldPos: Point): (d: (real, real))
    ensures data.lastWorldPos.None? ==> d == (0.0, 0.0)
    ensures data.lastWorldPos.Some? ==>
              data.lastWorldPos.value.x + d.0 == worldPos.x && data.lastWorldPos.value.y + d.1 == worldPos.y
  {
    if data.lastWorldPos.Some? then (worldPos.x - data.lastWorldPos.value.x, worldPos.y - data.lastWorldPos.value.y)
    else (0.0, 0.0)
  }

  /** The data after a move: the handler's answer folded in, then the pointers advanced. */
  function MovedData(data: Data, s: Step, mousePos: Point, worldPos: Point): (d: Data)
    ensures d.kind == data.kind && d.startWorldPoint == data.startWorldPoint
    ensures d.startElements == data.startElements && d.transformStarts == data.transformStarts
    ensures d.initialGroupState == data.initialGroupState && d.activeHandle == data.activeHandle
    ensures d.liveElements == (if s.result.Some? then s.result.value.updatedElements else data.liveElements)
    ensures d.interactionBox ==
              (if s.result.Some? && s.result.value.newBoundingBox.Some? then s.result.value.newBoundingBox else data.interactionBox)
    ensures d.lastPanPoint == (if data.kind == Some(Panning) then Some(mousePos) else data.lastPanPoint)
    ensures d.lastWorldPos == (if data.lastWorldPos.Some? then Some(worldPos) else None)
  {
    var d1 := if s.result.Some? then
                var res := s.result.value;
                var withLive := data.(liveElements := res.updatedElements);
                if res.newBoundingBox.Some? then withLive.(interactionBox := res.newBoundingBox) else withLive
              else data;
    var d2 := if data.kind == Some(Panning) then d1.(lastPanPoint := Some(mousePos)) else d1;
    if data.lastWorldPos.Some? then d2.(lastWorldPos := Some(worldPos)) else d2
  }

  /** `handleMouseMove`. */
  function Move(t: Trig, lt: LegacyTransforms, c: Canvas, ev: MouseEvent, scale: Scale): (r: Canvas)
    requires Coherent(c.interaction)
    ensures c.interaction.handler.None? ==> r == c
    ensures r.interaction.handler == c.interaction.handler && r.selectedIds == c.selectedIds
    ensures Coherent(r.interaction)
    ensures c.interaction.handler.Some? ==>
              var worldPos := PointInWorld(ev.mousePos, c.offset, scale);
              var data := c.interaction.data;
              var d := MoveDelta(data, worldPos);
              var ctx := MoveContext(worldPos, ev.mousePos, ev.shiftKey, ev.ctrlKey, ev.metaKey, c.selectedIds, d.0, d.1);
              var s := RunHandler(t, lt, c.interaction.handler.value, ctx, data);
              r.interaction.data == MovedData(data, s, ev.mousePos, worldPos) &&
              r.selectionRect == (if s.rect.Some? then s.rect else c.selectionRect)
    ensures r.offset == c.offset
  {
    if c.interaction.handler.None? then c
    else
      var worldPos := PointInWorld(ev.mousePos, c.offset, scale);
      var data := c.interaction.data;
      var d := MoveDelta(data, worldPos);
      var ctx := MoveContext(worldPos, ev.mousePos, ev.shiftKey, ev.ctrlKey, ev.metaKey, c.selectedIds, d.0, d.1);
      var s := RunHandler(t, lt, c.interaction.handler.value, ctx, data);
      Canvas(Interaction(c.interaction.handler, MovedData(data, s, ev.mousePos, worldPos)),
             c.selectedIds,
             if s.rect.Some? then s.rect else c.selectionRect,
             c.offset)
  }

  /** A run of moves, in order. */
  function Moves(t: Trig, lt: LegacyTransforms, c: Canvas, evs: seq<MouseEvent>, scale: Scale): (r: Canvas)
    requires Coherent(c.interaction)
    ensures Coherent(r.interaction)
    decreases |evs|
  {
    if evs == [] then c else Moves(t, lt, Move(t, lt, c, evs[0], scale), evs[1..], scale)
  }

  /** What a gesture recorded at its start. */
  predicate SameStart(a: Interaction, b: Interaction) {
    a.handler == b.handler && a.data.kind == b.data.kind && a.data.startElements == b.data.startElements &&
    a.data.transformStarts == b.data.transformStarts && a.data.initialGroupState == b.data.initialGroupState &&
    a.data.startWorldPoint == b.data.startWorldPoint && a.data.activeHandle == b.data.activeHandle
  }

  /** No move touches what the gesture recorded at its start, nor the selection. */
  lemma {:induction false} MovesKeepStart(t: Trig, lt: LegacyTransforms, c: Canvas, evs: seq<MouseEvent>, scale: Scale)
    requires Coherent(c.interaction)
    ensures var r := Moves(t, lt, c, evs, scale);
            SameStart(r.interaction, c.interaction) && r.selectedIds == c.selectedIds
    decreases |evs|
  {
    if evs != [] {
      MovesKeepStart(t, lt, Move(t, lt, c, evs[0], scale), evs[1..], scale);
    }
  }

  /** Once idle, any run of moves changes nothing. */
  lemma {:induction false} IdleIgnoresMoves(t: Trig, lt: LegacyTransforms, c: Canvas, evs: seq<MouseEvent>, scale: Scale)
    requires Coherent(c.interaction) && c.interaction.handler.None?
    ensures Moves(t, lt, c, evs, scale) == c
    decreases |evs|
  {
    if evs != [] {
      IdleIgnoresMoves(t, lt, Move(t, lt, c, evs[0], scale), evs[1..], scale);
    }
  }

  /**
   * A drag move with an interaction box moves the dragged elements, and the
   * box, from where they were by the pointer's world displacement since the
   * last move, and records the new pointer position.
   */
  lemma DragMoveFollowsPointer(t: Trig, lt: LegacyTransforms, c: Canvas, ev: MouseEvent, scale: Scale)
    requires Coherent(c.interaction) && c.interaction.handler == Some(Dragging)
    requires c.interaction.data.interactionBox.Some?
    ensures var data := c.interaction.data;
            var w := PointInWorld(ev.mousePos, c.offset, scale);
            var last := data.lastWorldPos.value;
            var r := Move(t, lt, c, ev, scale).interaction.data;
            var b := data.interactionBox.value;
            r.liveElements == Some(MoveBy(data.liveElements.value, Ids(data.startElements), w.x - last.x, w.y - last.y)) &&
            r.interactionBox == Some(b.(x := b.x + (w.x - last.x), y := b.y + (w.y - last.y))) &&
            r.lastWorldPos == Some(w)
  {
  }

  /**
   * The incremental drag telescopes: after two moves the dragged elements
   * have moved by the pointer's world displacement from where the first
   * move started to where the second ended.
   */
  lemma TwoDragMovesAddUp(t: Trig, lt: LegacyTransforms, c: Canvas, ev1: MouseEvent, ev2: MouseEvent, scale: Scale)
    requires Coherent(c.interaction) && c.interaction.handler == Some(Dragging)
    requires c.interaction.data.interactionBox.Some?
    ensures var data := c.interaction.data;
            var w2 := PointInWorld(ev2.mousePos, c.offset, scale);
            var last := data.lastWorldPos.value;
            Move(t, lt, Move(t, lt, c, ev1, scale), ev2, scale).interaction.data.liveElements ==
              Some(MoveBy(data.liveElements.value, Ids(data.startElements), w2.x - last.x, w2.y - last.y))
  {
    var data := c.interaction.data;
    var last := data.lastWorldPos.value;
    var w1 := PointInWorld(ev1.mousePos, c.offset, scale);
    var w2 := PointInWorld(ev2.mousePos, c.offset, scale);
    var c1 := Move(t, lt, c, ev1, scale);
    DragMoveFollowsPointer(t, lt, c, ev1, scale);
    DragMoveFollowsPointer(t, lt, c1, ev2, scale);
    MoveByComposes(data.liveElements.value, Ids(data.startElements), w1.x - last.x, w1.y - last.y, w2.x - w1.x, w2.y - w1.y);
  }

  /**
   * As wired, a pan move never moves the canvas: the offset stays, the
   * live scene is dropped, and only the last pan point advances.
   */
  lemma PanMoveLeavesOffset(t: Trig, lt: LegacyTransforms, c: Canvas, ev: MouseEvent, scale: Scale)
    requires Coherent(c.interaction) && c.interaction.handler == Some(Panning)
    ensures var r := Move(t, lt, c, ev, scale);
            r.offset == c.offset && r.interaction.data.liveElements.None? &&
            r.interaction.data.lastPanPoint == Some(ev.mousePos) && r.selectionRect == c.selectionRect
  {
  }

  /** A marquee move stretches the rectangle from the start point to the pointer. */
  lemma MarqueeMoveStretchesRect(t: Trig, lt: LegacyTransforms, c: Canvas, ev: MouseEvent, scale: Scale)
    requires Coherent(c.interaction) && c.interaction.handler == Some(Selecting)
    ensures var r := Move(t, lt, c, ev, scale);
            var w := PointInWorld(ev.mousePos, c.offset, scale);
            var start := c.interaction.data.startWorldPoint.value;
            r.selectionRect.Some? &&
            PointInRect(start, NormalizeRect(r.selectionRect.value)) && PointInRect(w, NormalizeRect(r.selectionRect.value))
  {
    var w := PointInWorld(ev.mousePos, c.offset, scale);
    MarqueeSpansBothCorners(c.interaction.data.startWorldPoint.value, w);
  }

  // ---- Mouse-up --------------------------------------------------------------

  /** What a mouse-up leaves: the new state, and the scene committed to history if any. */
  datatype UpResult = UpResult(canvas: Canvas, committed: Option<Scene>)

  /**
   * The static copies a duplicating drop leaves behind: each start element
   * with the id `newId(i)` (the source draws `Date.now() + Math.random()`).
   */
  function StaticCopies(startElements: Scene, newId: nat -> Id): (r: Scene)
    ensures |r| == |startElements|
    ensures forall i :: 0 <= i < |r| ==> r[i] == startElements[i].(id := newId(i))
  {
    seq(|startElements|, i requires 0 <= i < |startElements| => startElements[i].(id := newId(i)))
  }

  /** The elements a marquee catches, in scene order. */
  function Caught(t: Trig, elements: Scene, rect: Box): (r: Scene)
    ensures forall e :: e in r <==> e in elements && IntersectsSelection(t, e, rect)
    ensures |r| <= |elements|
  {
    if elements == [] then []
    else (if IntersectsSelection(t, elements[0], rect) then [elements[0]] else []) + Caught(t, elements[1..], rect)
  }

  /**
   * The commit decision for a finished drag or transform. A drag compares
   * its start elements with the same ids in the live scene. A transform
   * compares its start entries with the live elements whose id matches an
   * entry's id; entries carry no id, so nothing matches, the second list is
   * empty, and the comparison reduces to whether there were any entries.
   */
  function CommitOnUp(data: Data, duplicateIntended: bool, newId: nat -> Id): (committed: Option<Scene>)
    requires data.kind == Some(Dragging) ==> data.liveElements.Some?
    ensures data.kind == Some(Dragging) && duplicateIntended ==>
              committed == Some(data.liveElements.value + StaticCopies(data.startElements, newId))
    ensures data.kind == Some(Dragging) && !duplicateIntended ==>
              var live := data.liveElements.value;
              committed == (if ChangeDetection.ElementsChanged(data.startElements, Partition(live, Ids(data.startElements), true))
                            then Some(live) else None)
    ensures (data.kind == Some(Rotating) || data.kind == Some(Resizing)) && data.liveElements.Some? ==>
              committed == (if |data.transformStarts| != 0 then data.liveElements else None)
    ensures committed.Some? ==> data.liveElements.Some? && (data.kind == Some(Dragging) || data.kind == Some(Rotating) || data.kind == Some(Resizing))
  {
    if data.kind == Some(Dragging) then
      var live := data.liveElements.value;
      if duplicateIntended then Some(live + StaticCopies(data.startElements, newId))
      else if ChangeDetection.ElementsChanged(data.startElements, Partition(live, Ids(data.startElements), true)) then Some(live)
      else None
    else if (data.kind == Some(Resizing) || data.kind == Some(Rotating)) && data.liveElements.Some? then
      var matched: Scene := [];
      if |data.transformStarts| != |matched| then data.liveElements else None
    else None
  }

  /** The selection a mouse-up sets, if any. */
  function SelectionOnUp(t: Trig, c: Canvas, elements: Scene, duplicateIntended: bool): (sel: Option<seq<Id>>)
    ensures var data := c.interaction.data;
            data.kind == Some(Dragging) && duplicateIntended ==> sel == Some(Ids(data.startElements))
    ensures var data := c.interaction.data;
            data.kind == Some(Selecting) && c.selectionRect.Some? ==>
              sel == Some(Ids(Caught(t, elements, c.selectionRect.value)))
    ensures var data := c.interaction.data;
            sel.Some? ==> (data.kind == Some(Dragging) && duplicateIntended) || (data.kind == Some(Selecting) && c.selectionRect.Some?)
  {
    var data := c.interaction.data;
    if data.kind == Some(Dragging) && duplicateIntended then Some(Ids(data.startElements))
    else if data.kind == Some(Selecting) && c.selectionRect.Some? then Some(Ids(Caught(t, elements, c.selectionRect.value)))
    else None
  }

  /**
   * `handleMouseUp`: nothing while idle; otherwise commit and select as
   * decided, then drop the interaction and the marquee.
   */
  function Up(t: Trig, c: Canvas, elements: Scene, duplicateIntended: bool, newId: nat -> Id): (r: UpResult)
    requires Coherent(c.interaction)
    ensures c.interaction.handler.None? ==> r == UpResult(c, None)
    ensures c.interaction.handler.Some? ==>
              var sel := SelectionOnUp(t, c, elements, duplicateIntended);
              r.canvas == Canvas(Idle, if sel.Some? then sel.value else c.selectedIds, None, c.offset) &&
              r.committed == CommitOnUp(c.interaction.data, duplicateIntended, newId)
  {
    if c.interaction.handler.None? then UpResult(c, None)
    else
      var committed := CommitOnUp(c.interaction.data, duplicateIntended, newId);
      var sel := SelectionOnUp(t, c, elements, duplicateIntended);
      UpResult(Canvas(Idle, if sel.Some? then sel.value else c.selectedIds, None, c.offset), committed)
  }

  /**
   * A drag released without moving commits nothing: the live scene is the
   * scene the drag started from, in which the dragged elements sit
   * unchanged (ids in the scene are unique).
   */
  lemma ClickWithoutMoveDoesNotCommit(t: Trig, c: Canvas, ev: MouseEvent, elements: Scene, scale: Scale, newId: nat -> Id)
    requires UniqueIds(elements)
    requires Down(t, c, ev, elements, scale).interaction.handler == Some(Dragging)
    ensures Up(t, Down(t, c, ev, elements, scale), elements, false, newId).committed.None?
  {
    var down := Down(t, c, ev, elements, scale);
    DragDownStartsFromScene(t, c, ev, elements, scale);
    var d := down.interaction.data;
    ChangeDetection.UnchangedAgainstItself(d.startElements);
    assert CommitOnUp(d, false, newId).None?;
    assert Up(t, down, elements, false, newId).committed == CommitOnUp(d, false, newId);
  }

  /**
   * A drag starts on the scene as it is: its live scene is that scene, and
   * picking the dragged ids out of it gives back the start elements.
   */
  lemma DragDownStartsFromScene(t: Trig, c: Canvas, ev: MouseEvent, elements: Scene, scale: Scale)
    requires UniqueIds(elements)
    requires Down(t, c, ev, elements, scale).interaction.handler == Some(Dragging)
    ensures var d := Down(t, c, ev, elements, scale).interaction.data;
            d.kind == Some(Dragging) && d.liveElements == Some(elements) && UniqueIds(d.startElements) &&
            Partition(elements, Ids(d.startElements), true) == d.startElements
  {
    var ctx := DownContextOf(t, c, ev, elements, scale);
    assert TryStartPanning(ctx).None? && TryStartTransform(t, ctx).None? && TryStartDragging(t, ctx).Some?;
    DragStartFromScene(t, ctx);
  }

  /** The drag starter's half of DragDownStartsFromScene. */
  lemma DragStartFromScene(t: Trig, ctx: DownContext)
    requires UniqueIds(ctx.elements)
    requires TryStartDragging(t, ctx).Some? && TryStartDragging(t, ctx).value.interaction.handler == Some(Dragging)
    ensures var d := TryStartDragging(t, ctx).value.interaction.data;
            d.kind == Some(Dragging) && d.liveElements == Some(ctx.elements) && UniqueIds(d.startElements) &&
            Partition(ctx.elements, Ids(d.startElements), true) == d.startElements
  {
    var d := TryStartDragging(t, ctx).value.interaction.data;
    var clicked := ClickedElement(t, ctx.worldPos, ctx.elements);
    var start := d.startElements;
    if clicked.Some? && clicked.value.id !in ctx.selectedIds {
      assert start == [clicked.value];
      PartitionByOneId(ctx.elements, clicked.value);
      assert Ids(start) == [clicked.value.id];
    } else {
      assert start == Partition(ctx.elements, ctx.selectedIds, true);
      PartitionByOwnIds(ctx.elements, ctx.selectedIds);
      PartitionUnique(ctx.elements, ctx.selectedIds, true);
    }
  }

  /**
   * A duplicating drop commits the moved live scene followed by copies of
   * the start elements, unchanged but for their ids, and keeps the moved
   * originals selected.
   */
  lemma DuplicatingDropKeepsCopies(t: Trig, c: Canvas, elements: Scene, newId: nat -> Id)
    requires Coherent(c.interaction) && c.interaction.handler == Some(Dragging)
    ensures var data := c.interaction.data;
            var r := Up(t, c, elements, true, newId);
            var live := data.liveElements.value;
            r.committed.Some? && |r.committed.value| == |live| + |data.startElements| &&
            r.committed.value[..|live|] == live &&
            (forall i :: 0 <= i < |data.startElements| ==>
               r.committed.value[|live| + i] == data.startElements[i].(id := newId(i))) &&
            r.canvas.selectedIds == Ids(data.startElements)
  {
    var data := c.interaction.data;
    var live := data.liveElements.value;
    var committed := live + StaticCopies(data.startElements, newId);
    assert committed[..|live|] == live;
  }

  /**
   * As written, a group transform never reaches history: it records no
   * start entries, so however the pointer moves the mouse-up compares two
   * empty lists.
   */
  lemma GroupTransformNeverCommits(t: Trig, lt: LegacyTransforms, c: Canvas, down: MouseEvent, elements: Scene,
                                   moves: seq<MouseEvent>, scale: Scale, duplicateIntended: bool, newId: nat -> Id)
    requires var d := Down(t, c, down, elements, scale).interaction;
             (d.handler == Some(Rotating) || d.handler == Some(Resizing)) && d.data.initialGroupState.Some?
    ensures var c1 := Moves(t, lt, Down(t, c, down, elements, scale), moves, scale);
            Up(t, c1, elements, duplicateIntended, newId).committed.None?
  {
    var c0 := Down(t, c, down, elements, scale);
    var ctx := DownContextOf(t, c, down, elements, scale);
    assert TryStartPanning(ctx).None? && TryStartTransform(t, ctx).Some?;
    assert c0.interaction.data.transformStarts == [];
    MovesKeepStart(t, lt, c0, moves, scale);
  }

  /**
   * As written, a single-element transform always reaches history, even a
   * press on a handle released without moving.
   */
  lemma SingleTransformAlwaysCommits(t: Trig, lt: LegacyTransforms, c: Canvas, down: MouseEvent, elements: Scene,
                                     moves: seq<MouseEvent>, scale: Scale, duplicateIntended: bool, newId: nat -> Id)
    requires var d := Down(t, c, down, elements, scale).interaction;
             (d.handler == Some(Rotating) || d.handler == Some(Resizing)) && d.data.initialGroupState.None?
    ensures var c1 := Moves(t, lt, Down(t, c, down, elements, scale), moves, scale);
            Up(t, c1, elements, duplicateIntended, newId).committed == c1.interaction.data.liveElements
  {
    var c0 := Down(t, c, down, elements, scale);
    MovesKeepStart(t, lt, c0, moves, scale);
  }

  /**
   * The evidently intended decision for a transform: compare the elements
   * it started from (the group's recorded members, or the single entry's
   * element) with the live elements of the same ids.
   */
  function TransformCommitCorrected(data: Data): (committed: Option<Scene>)
    requires data.liveElements.Some? && TransformReady(data)
    ensures committed.Some? ==> committed == data.liveElements
  {
    var live := data.liveElements.value;
    var started := if data.initialGroupState.Some? then data.initialGroupState.value.elements
                   else [data.transformStarts[0].element];
    if ChangeDetection.ElementsChanged(started, Partition(live, Ids(started), true)) then Some(live) else None
  }

  /**
   * With the corrected decision a group transform that moved, sized or
   * turned one of its members is committed.
   */
  lemma CorrectedCommitsChangedGroup(data: Data, i: int, j: int)
    requires data.liveElements.Some? && TransformReady(data) && data.initialGroupState.Some?
    requires UniqueIds(data.liveElements.value)
    requires var g := data.initialGroupState.value.elements;
             var live := data.liveElements.value;
             0 <= i < |g| && 0 <= j < |live| && live[j].id == g[i].id && !ChangeDetection.SameGeometry(g[i], live[j])
    ensures TransformCommitCorrected(data) == data.liveElements
  {
    var g := data.initialGroupState.value.elements;
    var live := data.liveElements.value;
    var matched := Partition(live, Ids(g), true);
    assert g[i].id == Ids(g)[i];
    assert live[j] in matched;
    PartitionUnique(live, Ids(g), true);
    var k :| 0 <= k < |matched| && matched[k] == live[j];
    FindByIdUnique(matched, k);
    assert ChangeDetection.ElementChanged(g[i], matched);
  }

  /**
   * With the corrected decision a transform whose members are where they
   * started is not committed.
   */
  lemma CorrectedSkipsUnchanged(data: Data, elements: Scene, selectedIds: seq<Id>)
    requires data.liveElements == Some(elements) && TransformReady(data) && data.initialGroupState.Some?
    requires UniqueIds(elements) && data.initialGroupState.value.elements == Partition(elements, selectedIds, true)
    ensures TransformCommitCorrected(data).None?
  {
    var g := data.initialGroupState.value.elements;
    PartitionByOwnIds(elements, selectedIds);
    PartitionUnique(elements, selectedIds, true);
    ChangeDetection.UnchangedAgainstItself(g);
  }

  /** An id is among the caught ids exactly when some caught element carries it. */
  lemma CaughtIds(t: Trig, elements: Scene, rect: Box, x: Id)
    ensures x in Ids(Caught(t, elements, rect)) <==> exists e :: e in elements && e.id == x && IntersectsSelection(t, e, rect)
  {
    var caught := Caught(t, elements, rect);
    if x in Ids(caught) {
      var k :| 0 <= k < |caught| && Ids(caught)[k] == x;
      assert caught[k] in caught;
    }
    if exists e :: e in elements && e.id == x && IntersectsSelection(t, e, rect) {
      var e :| e in elements && e.id == x && IntersectsSelection(t, e, rect);
      var k :| 0 <= k < |caught| && caught[k] == e;
      assert Ids(caught)[k] == x;
    }
  }

  /** A marquee release commits nothing and selects exactly the elements the rectangle catches. */
  lemma MarqueeUpSelectsCaught(t: Trig, c: Canvas, elements: Scene, duplicateIntended: bool, newId: nat -> Id, x: Id)
    requires Coherent(c.interaction) && c.interaction.handler == Some(Selecting) && c.selectionRect.Some?
    ensures var r := Up(t, c, elements, duplicateIntended, newId);
            r.committed.None? &&
            (x in r.canvas.selectedIds <==> exists e :: e in elements && e.id == x && IntersectsSelection(t, e, c.selectionRect.value))
  {
    assert Up(t, c, elements, duplicateIntended, newId).canvas.selectedIds == Ids(Caught(t, elements, c.selectionRect.value));
    CaughtIds(t, elements, c.selectionRect.value, x);
  }

  /** Every gesture ends idle, with no marquee, the pan offset where it was. */
  lemma UpEndsGesture(t: Trig, c: Canvas, elements: Scene, duplicateIntended: bool, newId: nat -> Id)
    requires Coherent(c.interaction) && c.interaction.handler.Some?
    ensures var r := Up(t, c, elements, duplicateIntended, newId).canvas;
            r.interaction == Idle && r.selectionRect.None? && r.offset == c.offset
  {
  }

  // ---- The hook's state ------------------------------------------------------

  /**
   * The hook's mutable state: `interactionState.current`, the selection and
   * marquee state, the pan offset, and the duplicate latch.
   */
  class CanvasInteractionState {
    var handler: Option<Gesture>
    var data: Data
    var selectedElementIds: seq<Id>
    var selectionRect: Option<Box>
    var offset: Point
    var didDuplicateOnDrag: bool

    /** The state as the pure machine sees it. */
    function Snapshot(): (c: Canvas)
      reads this
      ensures c.interaction == Interaction(handler, data) && c.selectedIds == selectedElementIds
      ensures c.selectionRect == selectionRect && c.offset == offset
    {
      Canvas(Interaction(handler, data), selectedElementIds, selectionRect, offset)
    }

    predicate Valid()
      reads this
    {
      Coherent(Interaction(handler, data))
    }

    constructor(initialOffset: Point)
      ensures Valid() && Snapshot() == Canvas(Idle, [], None, initialOffset) && !didDuplicateOnDrag
    {
      handler := None;
      data := NoData;
      selectedElementIds := [];
      selectionRect := None;
      offset := initialOffset;
      didDuplicateOnDrag := false;
    }

    /** `handleMouseDown`. */
    method HandleMouseDown(t: Trig, ev: MouseEvent, elements: Scene, scale: Scale)
      modifies this
      ensures Valid()
      ensures Snapshot() == Down(t, old(Snapshot()), ev, elements, scale)
      ensures didDuplicateOnDrag == old(didDuplicateOnDrag)
    {
      var context := DownContextOf(t, Snapshot(), ev, elements, scale);
      var interaction := FirstStart(t, context);
      if interaction.selection.Some? {
        selectedElementIds := interaction.selection.value;
      }
      if interaction.rect.Some? {
        selectionRect := interaction.rect;
      }
      handler := interaction.interaction.handler;
      data := interaction.interaction.data;
    }

    /** `handleMouseMove`. */
    method HandleMouseMove(t: Trig, lt: LegacyTransforms, ev: MouseEvent, scale: Scale)
      requires Valid()
      modifies this
      ensures Valid()
      ensures Snapshot() == Move(t, lt, old(Snapshot()), ev, scale)
      ensures didDuplicateOnDrag == old(didDuplicateOnDrag)
    {
      if handler.None? {
        return;
      }
      var worldPos := PointInWorld(ev.mousePos, offset, scale);
      var dx, dy := 0.0, 0.0;
      if data.lastWorldPos.Some? {
        dx := worldPos.x - data.lastWorldPos.value.x;
        dy := worldPos.y - data.lastWorldPos.value.y;
      }
      var context := MoveContext(worldPos, ev.mousePos, ev.shiftKey, ev.ctrlKey, ev.metaKey, selectedElementIds, dx, dy);
      var step := RunHandler(t, lt, handler.value, context, data);
      if step.rect.Some? {
        selectionRect := step.rect;
      }
      var wasPanning := data.kind == Some(Panning);
      var hadLastWorldPos := data.lastWorldPos.Some?;
      if step.result.Some? {
        data := data.(liveElements := step.result.value.updatedElements);
        if step.result.value.newBoundingBox.Some? {
          data := data.(interactionBox := step.result.value.newBoundingBox);
        }
      }
      if wasPanning {
        data := data.(lastPanPoint := Some(ev.mousePos));
      }
      if hadLastWorldPos {
        data := data.(lastWorldPos := Some(worldPos));
      }
    }

    /** `handleMouseUp`: returns the scene it commits, if any. */
    method HandleMouseUp(t: Trig, elements: Scene, duplicateIntended: bool, newId: nat -> Id)
      returns (committed: Option<Scene>)
      requires Valid()
      modifies this
      ensures Valid()
      ensures Snapshot() == Up(t, old(Snapshot()), elements, duplicateIntended, newId).canvas
      ensures committed == Up(t, old(Snapshot()), elements, duplicateIntended, newId).committed
      ensures didDuplicateOnDrag == old(didDuplicateOnDrag)
    {
      committed := None;
      if handler.None? {
        return;
      }
      var kind := data.kind;
      if kind == Some(Dragging) {
        var live := data.liveElements.value;
        if duplicateIntended {
          var staticCopies := StaticCopies(data.startElements, newId);
          committed := Some(live + staticCopies);
          selectedElementIds := Ids(data.startElements);
        } else {
          var changed := ChangeDetection.HaveElementsChanged(data.startElements, Partition(live, Ids(data.startElements), true));
          if changed {
            committed := Some(live);
          }
        }
      } else if (kind == Some(Resizing) || kind == Some(Rotating)) && data.liveElements.Some? {
        // The start entries carry no id, so no live element matches one.
        var matched: Scene := [];
        if |data.transformStarts| != |matched| {
          committed := data.liveElements;
        }
      }
      if kind == Some(Selecting) && selectionRect.Some? {
        selectedElementIds := Ids(Caught(t, elements, selectionRect.value));
      }
      handler := None;
      data := NoData;
      selectionRect := None;
    }

    /**
     * `tryDuplicateOnDrag`: once per drag, with Meta or Ctrl held, clone the
     * dragged elements (ids `now + i`), append the clones to the live scene,
     * make them what is dragged, and select them.
     */
    method TryDuplicateOnDrag(metaKey: bool, ctrlKey: bool, now: Id)
      requires Valid()
      modifies this
      ensures Valid()
      ensures !ShouldDuplicate(old(data), metaKey, ctrlKey, old(didDuplicateOnDrag)) ==>
                Snapshot() == old(Snapshot()) && didDuplicateOnDrag == old(didDuplicateOnDrag)
      ensures ShouldDuplicate(old(data), metaKey, ctrlKey, old(didDuplicateOnDrag)) ==>
                didDuplicateOnDrag && handler == old(handler) && data == Duplicated(old(data), now) &&
                selectedElementIds == Ids(Clones(old(data).startElements, now)) &&
                selectionRect == old(selectionRect) && offset == old(offset)
    {
      var shouldDuplicate := data.kind == Some(Dragging) && (metaKey || ctrlKey) && !didDuplicateOnDrag;
      if !shouldDuplicate {
        return;
      }
      didDuplicateOnDrag := true;
      var clonedElements := Clones(data.startElements, now);
      data := data.(liveElements := Some(data.liveElements.value + clonedElements));
      data := data.(startElements := clonedElements);
      selectedElementIds := Ids(clonedElements);
    }
  }
}
