/**
 * The selection box (`useSelectionBox`): the frame the canvas draws around
 * the selection and hands to the transform and drag starters. A box set
 * by a running interaction wins; otherwise one element is its own box and
 * several elements get a group box, turned to their common rotation when
 * they share one.
 */
module SelectionBox {
  import opened Model
  import opened Geometry

  /** Rotations closer than this count as the same. */
  const RotationEpsilon: real := 0.00001

  datatype Choice = Choice(selectionBox: Option<Element>, groupRotation: real)

  /** Every selected element's rotation is within the tolerance of `first`. */
  predicate AllSameRotation(sel: Scene, first: real) {
    forall i :: 0 <= i < |sel| ==> Abs(Rotation(sel[i]) - first) < RotationEpsilon
  }

  /** The rotation a group of several elements is drawn at: their common one, or 0. */
  function GroupRotation(sel: Scene): (r: real)
    requires sel != []
    ensures r != 0.0 ==> r == Rotation(sel[0]) && forall i :: 0 <= i < |sel| ==> Abs(Rotation(sel[i]) - r) < RotationEpsilon
    ensures r == 0.0 ==> Rotation(sel[0]) == 0.0 || !AllSameRotation(sel, Rotation(sel[0]))
  {
    var firstRotation := Rotation(sel[0]);
    if AllSameRotation(sel, firstRotation) then firstRotation else 0.0
  }

  /** The memoised choice of box and rotation. */
  function ChooseSelectionBox(t: Trig, active: Option<Element>, elements: Scene, selectedIds: seq<Id>): (c: Choice)
    ensures active.Some? ==> c == Choice(active, Rotation(active.value))
    ensures var sel := Partition(elements, selectedIds, true);
            active.None? ==>
              (sel == [] ==> c == Choice(None, 0.0)) &&
              (|sel| == 1 ==> c == Choice(Some(sel[0]), 0.0)) &&
              (|sel| >= 2 ==>
                 c.selectionBox.Some? && c.selectionBox.value.kind == Group &&
                 c.selectionBox.value.rotation == Some(c.groupRotation) &&
                 (c.groupRotation != 0.0 ==> c.selectionBox == GroupSelectionBox(t, sel, Some(c.groupRotation))) &&
                 (c.groupRotation == 0.0 ==> c.selectionBox == AxisAlignedBoundingBox(t, sel)))
  {
    if active.Some? then Choice(active, Rotation(active.value))
    else
      var sel := Partition(elements, selectedIds, true);
      if |sel| == 0 then Choice(None, 0.0)
      else if |sel| == 1 then Choice(Some(sel[0]), 0.0)
      else
        var rotation := GroupRotation(sel);
        if rotation != 0.0 then Choice(GroupSelectionBox(t, sel, Some(rotation)), rotation)
        else Choice(AxisAlignedBoundingBox(t, sel), 0.0)
  }

  /**
   * For two or more selected elements the chosen box encloses every corner
   * of every one of them, read as `isPointInsideRotatedBox` reads it,
   * provided the trigonometric identities hold at the box's angle.
   */
  lemma GroupChoiceEnclosesSelection(t: Trig, elements: Scene, selectedIds: seq<Id>, i: int, p: Point)
    requires var sel := Partition(elements, selectedIds, true);
             |sel| >= 2 && 0 <= i < |sel| && p in ElementCorners(t, sel[i])
    requires t.ZeroAngle() && t.IdentitiesAt(ChooseSelectionBox(t, None, elements, selectedIds).groupRotation)
    ensures PointInsideRotatedBox(t, p, ChooseSelectionBox(t, None, elements, selectedIds).selectionBox.value)
  {
    var sel := Partition(elements, selectedIds, true);
    var c := ChooseSelectionBox(t, None, elements, selectedIds);
    if c.groupRotation != 0.0 {
      GroupSelectionBoxHoldsCorners(t, sel, Some(c.groupRotation), i, p);
    } else {
      AxisAlignedBoxEncloses(t, sel, i, p);
    }
  }

  /** The unrotated group box, read through `isPointInsideRotatedBox`, holds every corner. */
  lemma AxisAlignedBoxEncloses(t: Trig, els: Scene, i: int, p: Point)
    requires 0 <= i < |els| && p in ElementCorners(t, els[i]) && t.ZeroAngle()
    ensures PointInsideRotatedBox(t, p, AxisAlignedBoundingBox(t, els).value)
  {
    AxisAlignedBoxHoldsCorners(t, els, i, p);
    var box := AxisAlignedBoundingBox(t, els).value;
    UnrotatedBoxHolds(t, p, box);
  }

  /** With rotation 0, `isPointInsideRotatedBox` is the plain closed-box test. */
  lemma UnrotatedBoxHolds(t: Trig, p: Point, box: Element)
    requires t.ZeroAngle() && box.rotation == Some(0.0) && box.width.Some? && box.height.Some?
    requires InBox(p, Box(box.x, box.y, box.width.value, box.height.value))
    ensures PointInsideRotatedBox(t, p, box)
  {
    var c := BoxCenter(box);
    assert -Rotation(box) == 0.0;
    assert RotatePoint(t, p, c, 0.0) == p;
  }

  /**
   * The hook's state: the box an interaction pinned with
   * `setActiveGroupBoundingBox`, and the selection the clearing effect last
   * ran for.
   */
  class SelectionBoxState {
    var activeGroupBoundingBox: Option<Element>
    var seenSelectedIds: seq<Id>

    constructor(selectedIds: seq<Id>)
      ensures activeGroupBoundingBox.None? && seenSelectedIds == selectedIds
    {
      activeGroupBoundingBox := None;
      seenSelectedIds := selectedIds;
    }

    /** The memoised box and rotation for the current state. */
    function Current(t: Trig, elements: Scene, selectedIds: seq<Id>): (c: Choice)
      reads this
      ensures activeGroupBoundingBox.None? ==> c == ChooseSelectionBox(t, None, elements, selectedIds)
      ensures activeGroupBoundingBox.Some? ==> c.selectionBox == activeGroupBoundingBox
    {
      ChooseSelectionBox(t, activeGroupBoundingBox, elements, selectedIds)
    }

    method SetActiveGroupBoundingBox(box: Option<Element>)
      modifies this
      ensures activeGroupBoundingBox == box && seenSelectedIds == old(seenSelectedIds)
    {
      activeGroupBoundingBox := box;
    }

    /**
     * The effect on `selectedElementIds`: a selection other than the one it
     * last ran for drops the pinned box, so the box is computed from the
     * new selection again. React reruns the effect when the array is a new
     * object; the model compares the ids by value, so a fresh array with
     * the same ids keeps the box here where React would drop it.
     */
    method SelectionRendered(selectedIds: seq<Id>)
      modifies this
      ensures seenSelectedIds == selectedIds
      ensures selectedIds != old(seenSelectedIds) ==> activeGroupBoundingBox.None?
      ensures selectedIds == old(seenSelectedIds) ==> activeGroupBoundingBox == old(activeGroupBoundingBox)
    {
      if selectedIds != seenSelectedIds {
        activeGroupBoundingBox := None;
      }
      seenSelectedIds := selectedIds;
    }
  }
}
