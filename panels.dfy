/**
 * The side-panel manager (`usePanelManager`): four toggleable panels of
 * which at most two are meant to be open at once, plus the export panel,
 * which the toggle never touches.
 */
module Panels {
  import opened Model

  datatype Panel = TransformPanel | LayersPanel | SnapPanel | TextPanel

  /** Which of the four toggleable panels are open. */
  datatype Flags = Flags(transform: bool, layers: bool, snap: bool, text: bool) {
    function IsOpen(p: Panel): bool {
      match p
      case TransformPanel => transform
      case LayersPanel => layers
      case SnapPanel => snap
      case TextPanel => text
    }

    /** The flags with one panel set. */
    function With(p: Panel, v: bool): (r: Flags)
      ensures r.IsOpen(p) == v
      ensures forall q :: q != p ==> r.IsOpen(q) == IsOpen(q)
    {
      match p
      case TransformPanel => this.(transform := v)
      case LayersPanel => this.(layers := v)
      case SnapPanel => this.(snap := v)
      case TextPanel => this.(text := v)
    }

    /** How many of the four are open. */
    function OpenCount(): (n: nat)
      ensures n <= 4
    {
      (if transform then 1 else 0) + (if layers then 1 else 0) + (if snap then 1 else 0) + (if text then 1 else 0)
    }
  }

  /** The order in which the toggle closes a panel to make room. */
  const ClosePriority: seq<Panel> := [TransformPanel, SnapPanel, TextPanel, LayersPanel]

  /** The first panel in `order` that is open and is not the target. */
  function FirstToClose(f: Flags, target: Panel, order: seq<Panel>): (r: Option<Panel>)
    ensures r.Some? ==> r.value in order && f.IsOpen(r.value) && r.value != target
    ensures r.None? <==> forall i :: 0 <= i < |order| ==> !f.IsOpen(order[i]) || order[i] == target
    ensures r.Some? ==> exists i :: 0 <= i < |order| && order[i] == r.value &&
                          forall j :: 0 <= j < i ==> !f.IsOpen(order[j]) || order[j] == target
  {
    if order == [] then None
    else if f.IsOpen(order[0]) && order[0] != target then Some(order[0])
    else
      var r := FirstToClose(f, target, order[1..]);
      assert forall i :: 1 <= i < |order| ==> order[i] == order[1..][i - 1];
      if r.Some? then
        var i :| 0 <= i < |order[1..]| && order[1..][i] == r.value &&
                 forall j :: 0 <= j < i ==> !f.IsOpen(order[1..][j]) || order[1..][j] == target;
        SkipFirst(f, target, order, i);
        r
      else r
  }

  /** A panel first among the tail, after a head that is not closable, is first in the whole order. */
  lemma SkipFirst(f: Flags, target: Panel, order: seq<Panel>, i: int)
    requires order != [] && (!f.IsOpen(order[0]) || order[0] == target)
    requires 0 <= i < |order| - 1
    requires forall j :: 0 <= j < i ==> !f.IsOpen(order[1..][j]) || order[1..][j] == target
    ensures order[i + 1] == order[1..][i]
    ensures forall j :: 0 <= j < i + 1 ==> !f.IsOpen(order[j]) || order[j] == target
  {
    forall j | 0 <= j < i + 1
      ensures !f.IsOpen(order[j]) || order[j] == target
    {
      if j > 0 {
        assert order[j] == order[1..][j - 1];
      }
    }
  }

  /**
   * `handlePanelToggle`: an open panel closes; a closed one opens, first
   * closing the highest-priority other open panel when two or more are open.
   */
  function Toggle(f: Flags, target: Panel): (r: Flags)
    ensures f.IsOpen(target) ==> r == f.With(target, false)
    ensures !f.IsOpen(target) && f.OpenCount() < 2 ==> r == f.With(target, true)
    ensures !f.IsOpen(target) && f.OpenCount() >= 2 ==>
              var c := FirstToClose(f, target, ClosePriority);
              c.Some? && r == f.With(c.value, false).With(target, true)
  {
    if f.IsOpen(target) then f.With(target, false)
    else if f.OpenCount() < 2 then f.With(target, true)
    else
      var c := FirstToClose(f, target, ClosePriority);
      assert c.Some? by {
        var i :| 0 <= i < 4 && f.IsOpen(ClosePriority[i]) && ClosePriority[i] != target by {
          if f.transform && target != TransformPanel {
            assert ClosePriority[0] == TransformPanel;
          } else if f.snap && target != SnapPanel {
            assert ClosePriority[1] == SnapPanel;
          } else if f.text && target != TextPanel {
            assert ClosePriority[2] == TextPanel;
          } else {
            assert ClosePriority[3] == LayersPanel;
          }
        }
      }
      (if c.Some? then f.With(c.value, false) else f).With(target, true)
  }

  /** With at most two panels open before a toggle, at most two are open after it. */
  lemma ToggleKeepsAtMostTwoOpen(f: Flags, target: Panel)
    requires f.OpenCount() <= 2
    ensures Toggle(f, target).OpenCount() <= 2
  {
  }

  /** A toggle opens a closed panel and closes an open one. */
  lemma ToggleFlipsTarget(f: Flags, target: Panel)
    ensures Toggle(f, target).IsOpen(target) == !f.IsOpen(target)
  {
  }

  /** A toggle touches at most one panel besides the target, and only to close it. */
  lemma ToggleClosesAtMostOneOther(f: Flags, target: Panel, q: Panel, q2: Panel)
    requires q != target && q2 != target && q != q2
    requires Toggle(f, target).IsOpen(q) != f.IsOpen(q)
    ensures !Toggle(f, target).IsOpen(q) && Toggle(f, target).IsOpen(q2) == f.IsOpen(q2)
  {
  }

  /** Opening a panel while fewer than two are open and then toggling it again restores the flags. */
  lemma ToggleTwiceRestores(f: Flags, target: Panel)
    requires !f.IsOpen(target) && f.OpenCount() < 2
    ensures Toggle(Toggle(f, target), target) == f
  {
  }

  /** The hook's state: the five open flags. */
  class PanelManager {
    var isSnapPanelOpen: bool
    var isExportPanelOpen: bool
    var isTransformPanelOpen: bool
    var isLayersPanelOpen: bool
    var isTextPanelOpen: bool

    /** Only the layers panel starts open. */
    constructor()
      ensures Current() == Flags(false, true, false, false) && !isExportPanelOpen
    {
      isSnapPanelOpen := false;
      isExportPanelOpen := false;
      isTransformPanelOpen := false;
      isLayersPanelOpen := true;
      isTextPanelOpen := false;
    }

    /** `panelStates`: the four toggleable flags. */
    function Current(): Flags
      reads this
    {
      Flags(isTransformPanelOpen, isLayersPanelOpen, isSnapPanelOpen, isTextPanelOpen)
    }

    /** `panelSetters[p](v)`. */
    method SetOpen(p: Panel, v: bool)
      modifies this
      ensures Current() == old(Current()).With(p, v)
      ensures isExportPanelOpen == old(isExportPanelOpen)
    {
      match p
      case TransformPanel => isTransformPanelOpen := v;
      case LayersPanel => isLayersPanelOpen := v;
      case SnapPanel => isSnapPanelOpen := v;
      case TextPanel => isTextPanelOpen := v;
    }

    /** `handlePanelToggle`, with the close-priority scan. */
    method HandlePanelToggle(panelToToggle: Panel)
      modifies this
      ensures Current() == Toggle(old(Current()), panelToToggle)
      ensures isExportPanelOpen == old(isExportPanelOpen)
    {
      var panelStates := Current();
      if panelStates.IsOpen(panelToToggle) {
        SetOpen(panelToToggle, false);
        return;
      }
      var openCount := panelStates.OpenCount();
      if openCount < 2 {
        SetOpen(panelToToggle, true);
      } else {
        var i := 0;
        while i < |ClosePriority|
          invariant 0 <= i <= |ClosePriority|
          invariant Current() == panelStates && isExportPanelOpen == old(isExportPanelOpen)
          invariant FirstToClose(panelStates, panelToToggle, ClosePriority) ==
                    FirstToClose(panelStates, panelToToggle, ClosePriority[i..])
        {
          var panelNameToClose := ClosePriority[i];
          if panelStates.IsOpen(panelNameToClose) && panelNameToClose != panelToToggle {
            SetOpen(panelNameToClose, false);
            break;
          }
          assert ClosePriority[i..][1..] == ClosePriority[i + 1..];
          i := i + 1;
        }
        SetOpen(panelToToggle, true);
      }
    }
  }
}
