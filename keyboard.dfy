/**
 * Keyboard shortcuts (`useKeyboardInteractions`): undo and redo, layer
 * ordering, copy, paste and delete. The hook owns one piece of state, the
 * clipboard; everything else it does is a call into the editor (undo,
 * redo, the four layer operations, `commit`, `setSelectedElementIds`),
 * which the model returns as a list of commands in the order they are made.
 */
module Keyboard {
  import opened Model

  /** The fields of a `keydown` event the handler reads. */
  datatype KeyEvent = KeyEvent(key: string, metaKey: bool, ctrlKey: bool, shiftKey: bool)

  /** The editor calls the handler makes. */
  datatype Command =
    | Undo
    | Redo
    | BringToFront
    | BringForward
    | SendToBack
    | SendBackward
    | Commit(elements: Scene)
    | SetSelection(ids: seq<Id>)

  predicate Modified(ev: KeyEvent) { ev.metaKey || ev.ctrlKey }

  /**
   * Paste: each clipboard element cloned with a new id and moved 20 units
   * right and down. `newId(i)` is the id drawn for the i-th clone (the
   * source draws `Date.now() + Math.random()`).
   */
  function Pasted(clipboard: Scene, newId: nat -> Id): (r: Scene)
    ensures |r| == |clipboard|
    ensures forall i :: 0 <= i < |r| ==>
      r[i].id == newId(i) && r[i].x == clipboard[i].x + 20.0 && r[i].y == clipboard[i].y + 20.0 &&
      r[i].(id := clipboard[i].id, x := clipboard[i].x, y := clipboard[i].y) == clipboard[i]
  {
    seq(|clipboard|, i requires 0 <= i < |clipboard| =>
      clipboard[i].(id := newId(i), x := clipboard[i].x + 20.0, y := clipboard[i].y + 20.0))
  }

  /** The pasted clones get pairwise different ids whenever the drawn ids are. */
  lemma PastedIdsDistinct(clipboard: Scene, newId: nat -> Id)
    requires forall i: nat, j: nat :: i != j ==> newId(i) != newId(j)
    ensures UniqueIds(Pasted(clipboard, newId))
  {
  }

  /**
   * Two pastes of the same clipboard place their clones at the same spot:
   * the offset is taken from the copied elements, not from the last paste.
   */
  lemma RepeatedPasteSameOffset(clipboard: Scene, newId1: nat -> Id, newId2: nat -> Id)
    ensures var p1, p2 := Pasted(clipboard, newId1), Pasted(clipboard, newId2);
            |p1| == |p2| && forall i :: 0 <= i < |p1| ==> p1[i].(id := 0) == p2[i].(id := 0)
  {
  }

  class KeyboardHandler {
    /** `clipboardRef.current`: the last non-empty copy, or nothing yet. */
    var clipboard: Option<Scene>

    constructor()
      ensures clipboard == None
    {
      clipboard := None;
    }

    /**
     * `handleKeyDown`. `newId` supplies the ids of pasted clones.
     */
    method HandleKeyDown(ev: KeyEvent, elements: Scene, selectedIds: seq<Id>, newId: nat -> Id)
      returns (commands: seq<Command>)
      modifies this
      // Cmd/Ctrl+z: undo, or redo with Shift, and nothing else.
      ensures Modified(ev) && ev.key == "z" ==>
        commands == [if ev.shiftKey then Redo else Undo] && clipboard == old(clipboard)
      // Cmd/Ctrl+] and Cmd/Ctrl+[: one layer step, or all the way with Shift.
      ensures Modified(ev) && ev.key == "]" ==>
        commands == [if ev.shiftKey then BringToFront else BringForward] && clipboard == old(clipboard)
      ensures Modified(ev) && ev.key == "[" ==>
        commands == [if ev.shiftKey then SendToBack else SendBackward] && clipboard == old(clipboard)
      // Cmd/Ctrl+c: the clipboard takes the selected elements, unless there are none.
      ensures Modified(ev) && ev.key == "c" ==>
        commands == [] &&
        clipboard == (if Partition(elements, selectedIds, true) != [] then Some(Partition(elements, selectedIds, true)) else old(clipboard))
      // Cmd/Ctrl+v: the clones are appended and selected; the clipboard stays as it was.
      ensures Modified(ev) && ev.key == "v" ==>
        clipboard == old(clipboard) &&
        (old(clipboard).None? ==> commands == []) &&
        (old(clipboard).Some? ==>
          var clones := Pasted(old(clipboard).value, newId);
          commands == [Commit(elements + clones), SetSelection(Ids(clones))])
      // Delete or Backspace, with or without modifiers: commit the rest and clear the selection.
      ensures ev.key == "Delete" || ev.key == "Backspace" ==>
        commands == [Commit(Partition(elements, selectedIds, false)), SetSelection([])] && clipboard == old(clipboard)
      // Any other key does nothing.
      ensures ev.key !in {"z", "]", "[", "c", "v", "Delete", "Backspace"} || (!Modified(ev) && ev.key !in {"Delete", "Backspace"}) ==>
        commands == [] && clipboard == old(clipboard)
    {
      commands := [];
      if ev.metaKey || ev.ctrlKey {
        if ev.key == "z" {
          if ev.shiftKey {
            commands := commands + [Redo];
          } else {
            commands := commands + [Undo];
          }
          return;
        }
        if ev.key == "]" {
          if ev.shiftKey {
            commands := commands + [BringToFront];
          } else {
            commands := commands + [BringForward];
          }
        }
        if ev.key == "[" {
          if ev.shiftKey {
            commands := commands + [SendToBack];
          } else {
            commands := commands + [SendBackward];
          }
        }
      }
      if ev.key == "c" && (ev.metaKey || ev.ctrlKey) {
        var selectedElements := Partition(elements, selectedIds, true);
        if |selectedElements| > 0 {
          clipboard := Some(selectedElements);
        }
      }
      if ev.key == "v" && (ev.metaKey || ev.ctrlKey) {
        if clipboard.Some? {
          var newElements := Pasted(clipboard.value, newId);
          var updatedElements := elements + newElements;
          commands := commands + [Commit(updatedElements), SetSelection(Ids(newElements))];
        }
      }
      if ev.key == "Delete" || ev.key == "Backspace" {
        var updatedElements := Partition(elements, selectedIds, false);
        commands := commands + [Commit(updatedElements), SetSelection([])];
      }
    }
  }
}
