/**
 * Object snapping while dragging: each element offers three vertical lines
 * (left, centre, right) and three horizontal lines (top, centre, bottom);
 * the moving element snaps, on each axis independently, by the smallest
 * distance from one of its lines to a line of another element that is
 * under the threshold (in screen pixels, so divided by the zoom), and a
 * guide is drawn spanning both elements.
 */
module Snapping {
  import opened Model

  /** The lines an element offers, in the order left/centre/right and top/centre/bottom. */
  datatype SnapLines = SnapLines(vertical: seq<real>, horizontal: seq<real>)

  /**
   * `getElementSnapLines`, on the element's `getBoundingBox`: a circle's lines are computed from its box centre
   * and half-sizes, any other element's from its edges.
   */
  function ElementSnapLines(e: Element): (r: SnapLines)
    ensures |r.vertical| == 3 && |r.horizontal| == 3
    ensures r.vertical[0] == e.x && r.vertical[2] == e.x + Num(e.width)
    ensures r.horizontal[0] == e.y && r.horizontal[2] == e.y + Num(e.height)
    ensures 2.0 * r.vertical[1] == r.vertical[0] + r.vertical[2]
    ensures 2.0 * r.horizontal[1] == r.horizontal[0] + r.horizontal[2]
    ensures Num(e.width) >= 0.0 ==> r.vertical[0] <= r.vertical[1] <= r.vertical[2]
    ensures Num(e.height) >= 0.0 ==> r.horizontal[0] <= r.horizontal[1] <= r.horizontal[2]
  {
    var box := BoxOf(e);
    if e.kind == Circle then
      var cx, cy := box.x + box.width / 2.0, box.y + box.height / 2.0;
      var rx, ry := box.width / 2.0, box.height / 2.0;
      SnapLines([cx - rx, cx, cx + rx], [cy - ry, cy, cy + ry])
    else
      SnapLines([box.x, box.x + box.width / 2.0, box.x + box.width],
                [box.y, box.y + box.height / 2.0, box.y + box.height])
  }

  /**
   * A circle carries no width or height, so with absent sizes read as 0 all
   * three lines of each axis fall on its position, which is its centre.
   */
  lemma CircleSnapLinesAtCentre(e: Element)
    requires e.kind == Circle && e.width.None? && e.height.None?
    ensures forall v :: v in ElementSnapLines(e).vertical ==> v == e.x
    ensures forall h :: h in ElementSnapLines(e).horizontal ==> h == e.y
  {
  }

  datatype Axis = Vertical | Horizontal

  function AxisLines(e: Element, axis: Axis): (r: seq<real>)
    ensures |r| == 3
  {
    if axis == Vertical then ElementSnapLines(e).vertical else ElementSnapLines(e).horizontal
  }

  /** A snap opportunity: the distance to move, the static line and the element it belongs to. */
  datatype Snap = Snap(d: real, staticLine: real, staticElement: Element)

  /** One step of the search: a candidate under the threshold replaces a strictly worse best. */
  function Consider(best: Option<Snap>, c: Snap, threshold: real): (r: Option<Snap>)
    ensures r == best || r == Some(c)
  {
    if Abs(c.d) < threshold && (best.None? || Abs(c.d) < Abs(best.value.d)) then Some(c) else best
  }

  /** The search run over `cands` in order, starting from `init`. */
  function BestFrom(init: Option<Snap>, cands: seq<Snap>, threshold: real): (r: Option<Snap>)
    ensures r == init || (r.Some? && r.value in cands && Abs(r.value.d) < threshold)
  {
    if cands == [] then init
    else Consider(BestFrom(init, cands[..|cands| - 1], threshold), cands[|cands| - 1], threshold)
  }

  /** Running the search over two runs of candidates is running it over their concatenation. */
  lemma {:induction false} BestFromAppend(init: Option<Snap>, xs: seq<Snap>, ys: seq<Snap>, threshold: real)
    ensures BestFrom(init, xs + ys, threshold) == BestFrom(BestFrom(init, xs, threshold), ys, threshold)
    decreases |ys|
  {
    if ys != [] {
      var n := |ys| - 1;
      assert (xs + ys)[..|xs + ys| - 1] == xs + ys[..n];
      assert (xs + ys)[|xs + ys| - 1] == ys[n];
      BestFromAppend(init, xs, ys[..n], threshold);
    } else {
      assert xs + ys == xs;
    }
  }

  /** One more candidate is one more step of the search. */
  lemma BestFromSnoc(init: Option<Snap>, xs: seq<Snap>, c: Snap, threshold: real)
    ensures BestFrom(init, xs + [c], threshold) == Consider(BestFrom(init, xs, threshold), c, threshold)
  {
    assert (xs + [c])[..|xs|] == xs;
  }

  /**
   * The search from nothing finds a candidate exactly when one is under the
   * threshold, and the one it finds is no farther than any such candidate.
   */
  lemma {:induction false} BestIsMinimal(cands: seq<Snap>, threshold: real)
    ensures var r := BestFrom(None, cands, threshold);
            (r.None? <==> forall i :: 0 <= i < |cands| ==> Abs(cands[i].d) >= threshold) &&
            (r.Some? ==> forall i :: 0 <= i < |cands| && Abs(cands[i].d) < threshold ==> Abs(r.value.d) <= Abs(cands[i].d))
  {
    if cands != [] {
      var n := |cands| - 1;
      BestIsMinimal(cands[..n], threshold);
      assert forall i :: 0 <= i < n ==> cands[..n][i] == cands[i];
    }
  }

  /**
   * Ties keep the first candidate found: every earlier candidate under the
   * threshold is strictly farther than the one chosen.
   */
  lemma {:induction false} BestFirstWins(cands: seq<Snap>, threshold: real) returns (k: int)
    requires BestFrom(None, cands, threshold).Some?
    ensures 0 <= k < |cands| && cands[k] == BestFrom(None, cands, threshold).value
    ensures forall j :: 0 <= j < k && Abs(cands[j].d) < threshold ==> Abs(cands[j].d) > Abs(cands[k].d)
  {
    var n := |cands| - 1;
    var prev := BestFrom(None, cands[..n], threshold);
    if prev.Some? && BestFrom(None, cands, threshold) == prev {
      k := BestFirstWins(cands[..n], threshold);
    } else {
      k := n;
      BestIsMinimal(cands[..n], threshold);
      forall j | 0 <= j < k && Abs(cands[j].d) < threshold
        ensures Abs(cands[j].d) > Abs(cands[k].d)
      {
        assert cands[..n][j] == cands[j];
      }
    }
  }

  /** Every pairing of a moving line with a static line, moving lines outermost. */
  function PairCandidates(moving: seq<real>, statics: seq<real>, st: Element): seq<Snap>
  {
    if moving == [] then []
    else PairCandidates(moving[..|moving| - 1], statics, st) + Row(moving[|moving| - 1], statics, st)
  }

  /** One moving line against each static line in order. */
  function Row(m: real, statics: seq<real>, st: Element): seq<Snap>
  {
    if statics == [] then []
    else Row(m, statics[..|statics| - 1], st) + [Snap(statics[|statics| - 1] - m, statics[|statics| - 1], st)]
  }

  /** One more static line appends one pairing to the row. */
  lemma RowSnoc(m: real, statics: seq<real>, st: Element, j: nat)
    requires j < |statics|
    ensures Row(m, statics[..j + 1], st) == Row(m, statics[..j], st) + [Snap(statics[j] - m, statics[j], st)]
  {
    assert statics[..j + 1][..j] == statics[..j];
  }

  /** The opportunities one static element offers; none when it is the moving element. */
  function ElementCandidates(moving: seq<real>, st: Element, movingId: Id, axis: Axis): seq<Snap> {
    if st.id == movingId then [] else PairCandidates(moving, AxisLines(st, axis), st)
  }

  /**
   * All snap opportunities on one axis, in the order the search meets them:
   * static elements in order, skipping the moving element's own id.
   */
  function Candidates(moving: seq<real>, statics: Scene, movingId: Id, axis: Axis): seq<Snap>
  {
    if statics == [] then []
    else Candidates(moving, statics[..|statics| - 1], movingId, axis) +
         ElementCandidates(moving, statics[|statics| - 1], movingId, axis)
  }

  /** Every pairing holds a line of the static element it names. */
  lemma {:induction false} PairCandidatesFrom(moving: seq<real>, statics: seq<real>, st: Element, c: Snap)
    requires c in PairCandidates(moving, statics, st)
    ensures c.staticElement == st && c.staticLine in statics
  {
    var n := |moving| - 1;
    if c in PairCandidates(moving[..n], statics, st) {
      PairCandidatesFrom(moving[..n], statics, st, c);
    } else {
      RowFrom(moving[n], statics, st, c);
    }
  }

  lemma {:induction false} RowFrom(m: real, statics: seq<real>, st: Element, c: Snap)
    requires c in Row(m, statics, st)
    ensures c.staticElement == st && c.staticLine in statics
  {
    var n := |statics| - 1;
    if c in Row(m, statics[..n], st) {
      RowFrom(m, statics[..n], st, c);
    }
  }

  /**
   * Every snap opportunity lies on a line of another element of the scene:
   * the moving element's own id is never snapped to.
   */
  lemma {:induction false} CandidatesFrom(moving: seq<real>, statics: Scene, movingId: Id, axis: Axis, c: Snap)
    requires c in Candidates(moving, statics, movingId, axis)
    ensures c.staticElement in statics && c.staticElement.id != movingId
    ensures c.staticLine in AxisLines(c.staticElement, axis)
  {
    var n := |statics| - 1;
    if c in Candidates(moving, statics[..n], movingId, axis) {
      CandidatesFrom(moving, statics[..n], movingId, axis, c);
    } else {
      PairCandidatesFrom(moving, AxisLines(statics[n], axis), statics[n], c);
    }
  }

  /** The search over one more static element continues from where it stood. */
  lemma CandidatesStep(moving: seq<real>, statics: Scene, i: int, movingId: Id, axis: Axis, threshold: real)
    requires 0 <= i < |statics|
    ensures BestFrom(None, Candidates(moving, statics[..i + 1], movingId, axis), threshold) ==
            BestFrom(BestFrom(None, Candidates(moving, statics[..i], movingId, axis), threshold),
                     ElementCandidates(moving, statics[i], movingId, axis), threshold)
  {
    assert statics[..i + 1][..i] == statics[..i];
    BestFromAppend(None, Candidates(moving, statics[..i], movingId, axis),
                   ElementCandidates(moving, statics[i], movingId, axis), threshold);
  }

  /** Snap settings: the master switch and the object-snapping switch. */
  datatype SnapSettings = SnapSettings(isEnabled: bool, snapToObjects: bool, tolerance: real)

  /** A guide: a vertical line at `x` from `y1` to `y2`, or a horizontal line at `y` from `x1` to `x2`. */
  datatype Guide = VerticalGuide(x: real, y1: real, y2: real) | HorizontalGuide(y: real, x1: real, x2: real)

  datatype SnapResult = SnapResult(snapOffset: Point, snapLines: seq<Guide>)

  /** The best snap on one axis, or none when object snapping is off. */
  function BestSnap(moving: Element, statics: Scene, threshold: real, settings: SnapSettings, axis: Axis): (r: Option<Snap>)
    ensures !settings.snapToObjects ==> r.None?
    ensures r.Some? ==> Abs(r.value.d) < threshold && r.value.staticElement in statics &&
                        r.value.staticElement.id != moving.id && r.value.staticLine in AxisLines(r.value.staticElement, axis)
  {
    if settings.snapToObjects then
      var r := BestFrom(None, Candidates(AxisLines(moving, axis), statics, moving.id, axis), threshold);
      if r.Some? then
        CandidatesFrom(AxisLines(moving, axis), statics, moving.id, axis, r.value);
        r
      else r
    else None
  }

  /** The vertical guide spans both boxes from the higher top to the lower bottom. */
  function VerticalGuideFor(moved: Box, s: Snap): (g: Guide)
    ensures var b := BoxOf(s.staticElement);
            g.VerticalGuide? && g.x == s.staticLine &&
            g.y1 <= moved.y && g.y1 <= b.y && (g.y1 == moved.y || g.y1 == b.y) &&
            g.y2 >= moved.y + moved.height && g.y2 >= b.y + b.height &&
            (g.y2 == moved.y + moved.height || g.y2 == b.y + b.height)
  {
    var b := BoxOf(s.staticElement);
    VerticalGuide(s.staticLine, Min(moved.y, b.y), Max(moved.y + moved.height, b.y + b.height))
  }

  /** The horizontal guide spans both boxes from the leftmost left edge to the rightmost right edge. */
  function HorizontalGuideFor(moved: Box, s: Snap): (g: Guide)
    ensures var b := BoxOf(s.staticElement);
            g.HorizontalGuide? && g.y == s.staticLine &&
            g.x1 <= moved.x && g.x1 <= b.x && (g.x1 == moved.x || g.x1 == b.x) &&
            g.x2 >= moved.x + moved.width && g.x2 >= b.x + b.width &&
            (g.x2 == moved.x + moved.width || g.x2 == b.x + b.width)
  {
    var b := BoxOf(s.staticElement);
    HorizontalGuide(s.staticLine, Min(moved.x, b.x), Max(moved.x + moved.width, b.x + b.width))
  }

  /**
   * The snaps found, applied: the offset on each axis, and a guide per snap,
   * vertical first. The copy of the moving element is only ever read
   * through its bounding box, so the box is what gets shifted. The
   * horizontal guide is measured on the box already shifted by the
   * vertical snap; the vertical guide does not depend on that shift.
   */
  function ApplySnaps(moving: Element, bv: Option<Snap>, bh: Option<Snap>): (r: SnapResult)
    ensures r.snapOffset.x == (if bv.Some? then bv.value.d else 0.0)
    ensures r.snapOffset.y == (if bh.Some? then bh.value.d else 0.0)
    ensures bv.Some? ==> |r.snapLines| >= 1 && r.snapLines[0] == VerticalGuideFor(BoxOf(moving), bv.value)
    ensures bv.None? ==> forall g :: g in r.snapLines ==> g.HorizontalGuide?
    ensures |r.snapLines| <= 2
    ensures forall i :: 0 <= i < |r.snapLines| && r.snapLines[i].VerticalGuide? ==> i == 0
  {
    var box := BoxOf(moving);
    var moved := if bv.Some? then box.(x := box.x + bv.value.d) else box;
    var moved' := if bh.Some? then moved.(y := moved.y + bh.value.d) else moved;
    SnapResult(
      Point(if bv.Some? then bv.value.d else 0.0, if bh.Some? then bh.value.d else 0.0),
      (if bv.Some? then [VerticalGuideFor(moved, bv.value)] else []) +
      (if bh.Some? then [HorizontalGuideFor(moved', bh.value)] else []))
  }

  /**
   * `findSnapAdjustments`: nothing when snapping is off; otherwise the
   * nearest snap on each axis under the threshold divided by the zoom.
   */
  function SnapAdjustments(moving: Element, statics: Scene, scale: Scale, snapThreshold: real,
                           settings: SnapSettings): (r: SnapResult)
    ensures snapThreshold == 0.0 || !settings.isEnabled || !settings.snapToObjects ==> r == SnapResult(Origin, [])
    ensures r.snapOffset.x != 0.0 ==> Abs(r.snapOffset.x) < snapThreshold / scale
    ensures r.snapOffset.y != 0.0 ==> Abs(r.snapOffset.y) < snapThreshold / scale
    ensures |r.snapLines| <= 2
    ensures forall i :: 0 <= i < |r.snapLines| && r.snapLines[i].VerticalGuide? ==> i == 0
  {
    if snapThreshold == 0.0 || !settings.isEnabled then SnapResult(Origin, [])
    else
      var threshold := snapThreshold / scale;
      ApplySnaps(moving, BestSnap(moving, statics, threshold, settings, Vertical),
                 BestSnap(moving, statics, threshold, settings, Horizontal))
  }

  /** With no pair of vertical lines under the threshold there is no vertical snap and no vertical guide. */
  lemma NoVerticalSnapWhenNoneClose(moving: Element, statics: Scene, scale: Scale, snapThreshold: real,
                                    settings: SnapSettings)
    requires snapThreshold != 0.0 && settings.isEnabled
    requires forall c :: c in Candidates(AxisLines(moving, Vertical), statics, moving.id, Vertical) ==>
                         Abs(c.d) >= snapThreshold / scale
    ensures var r := SnapAdjustments(moving, statics, scale, snapThreshold, settings);
            r.snapOffset.x == 0.0 && forall g :: g in r.snapLines ==> g.HorizontalGuide?
  {
    var threshold := snapThreshold / scale;
    var cands := Candidates(AxisLines(moving, Vertical), statics, moving.id, Vertical);
    BestIsMinimal(cands, threshold);
    assert forall i :: 0 <= i < |cands| ==> cands[i] in cands;
    assert BestFrom(None, cands, threshold).None?;
    assert BestSnap(moving, statics, threshold, settings, Vertical).None?;
    var r := SnapAdjustments(moving, statics, scale, snapThreshold, settings);
    assert r == ApplySnaps(moving, None, BestSnap(moving, statics, threshold, settings, Horizontal));
  }

  /**
   * The vertical snap is the nearest under the threshold among all pairs of
   * lines (the first such pair on ties, by BestFirstWins); its guide comes
   * first, lies on a line of another element and spans both elements
   * vertically.
   */
  lemma VerticalSnapIsNearest(moving: Element, statics: Scene, scale: Scale, snapThreshold: real,
                              settings: SnapSettings, i: int)
    requires snapThreshold != 0.0 && settings.isEnabled && settings.snapToObjects
    requires var cands := Candidates(AxisLines(moving, Vertical), statics, moving.id, Vertical);
             0 <= i < |cands| && Abs(cands[i].d) < snapThreshold / scale
    ensures var cands := Candidates(AxisLines(moving, Vertical), statics, moving.id, Vertical);
            var r := SnapAdjustments(moving, statics, scale, snapThreshold, settings);
            Abs(r.snapOffset.x) <= Abs(cands[i].d) && |r.snapLines| >= 1 && r.snapLines[0].VerticalGuide? &&
            exists st :: st in statics && st.id != moving.id && r.snapLines[0].x in AxisLines(st, Vertical) &&
                         r.snapLines[0].y1 == Min(moving.y, st.y) &&
                         r.snapLines[0].y2 == Max(moving.y + Num(moving.height), st.y + Num(st.height))
  {
    VerticalSearchFindsNearest(moving, statics, scale, snapThreshold, i);
    VerticalHalf(moving, statics, scale, snapThreshold, settings);
    var cands := Candidates(AxisLines(moving, Vertical), statics, moving.id, Vertical);
    var bv := BestFrom(None, cands, snapThreshold / scale);
    VerticalGuideOfSnap(moving, bv, BestSnap(moving, statics, snapThreshold / scale, settings, Horizontal));
    CandidatesFrom(AxisLines(moving, Vertical), statics, moving.id, Vertical, bv.value);
  }

  /** A vertical pair under the threshold means the vertical search finds one at least as near. */
  lemma VerticalSearchFindsNearest(moving: Element, statics: Scene, scale: Scale, snapThreshold: real, i: int)
    requires var cands := Candidates(AxisLines(moving, Vertical), statics, moving.id, Vertical);
             0 <= i < |cands| && Abs(cands[i].d) < snapThreshold / scale
    ensures var cands := Candidates(AxisLines(moving, Vertical), statics, moving.id, Vertical);
            var bv := BestFrom(None, cands, snapThreshold / scale);
            bv.Some? && Abs(bv.value.d) <= Abs(cands[i].d)
  {
    BestIsMinimal(Candidates(AxisLines(moving, Vertical), statics, moving.id, Vertical), snapThreshold / scale);
  }

  /** With snapping on, the vertical half of the result is the vertical search's best snap, applied. */
  lemma VerticalHalf(moving: Element, statics: Scene, scale: Scale, snapThreshold: real, settings: SnapSettings)
    requires snapThreshold != 0.0 && settings.isEnabled && settings.snapToObjects
    ensures var threshold := snapThreshold / scale;
            SnapAdjustments(moving, statics, scale, snapThreshold, settings) ==
              ApplySnaps(moving, BestFrom(None, Candidates(AxisLines(moving, Vertical), statics, moving.id, Vertical), threshold),
                         BestSnap(moving, statics, threshold, settings, Horizontal))
  {
    BestSnapIsSearch(moving, statics, snapThreshold / scale, settings, Vertical);
    SnapAdjustmentsApplies(moving, statics, scale, snapThreshold, settings);
  }

  /** With object snapping on, the best snap is the search over all pairs of lines. */
  lemma BestSnapIsSearch(moving: Element, statics: Scene, threshold: real, settings: SnapSettings, axis: Axis)
    requires settings.snapToObjects
    ensures BestSnap(moving, statics, threshold, settings, axis) ==
              BestFrom(None, Candidates(AxisLines(moving, axis), statics, moving.id, axis), threshold)
  {
  }

  /** With snapping on, the result applies the best snap found on each axis. */
  lemma SnapAdjustmentsApplies(moving: Element, statics: Scene, scale: Scale, snapThreshold: real,
                               settings: SnapSettings)
    requires snapThreshold != 0.0 && settings.isEnabled
    ensures var threshold := snapThreshold / scale;
            SnapAdjustments(moving, statics, scale, snapThreshold, settings) ==
              ApplySnaps(moving, BestSnap(moving, statics, threshold, settings, Vertical),
                         BestSnap(moving, statics, threshold, settings, Horizontal))
  {
  }

  /** A vertical snap shifts by its distance and puts its guide, spanning both elements, first. */
  lemma VerticalGuideOfSnap(moving: Element, bv: Option<Snap>, bh: Option<Snap>)
    requires bv.Some?
    ensures var r := ApplySnaps(moving, bv, bh);
            r.snapOffset.x == bv.value.d && |r.snapLines| >= 1 && r.snapLines[0].VerticalGuide? &&
            r.snapLines[0].x == bv.value.staticLine &&
            r.snapLines[0].y1 == Min(moving.y, bv.value.staticElement.y) &&
            r.snapLines[0].y2 == Max(moving.y + Num(moving.height),
                                     bv.value.staticElement.y + Num(bv.value.staticElement.height))
  {
    assert ApplySnaps(moving, bv, bh).snapLines[0] == VerticalGuideFor(BoxOf(moving), bv.value);
  }


  /**
   * The horizontal snap is the nearest under the threshold among all pairs
   * of lines; its guide comes last, lies on a line of another element and
   * spans both elements horizontally, the moving one already shifted by the
   * vertical snap.
   */
  lemma HorizontalSnapIsNearest(moving: Element, statics: Scene, scale: Scale, snapThreshold: real,
                                settings: SnapSettings, i: int)
    requires snapThreshold != 0.0 && settings.isEnabled && settings.snapToObjects
    requires var cands := Candidates(AxisLines(moving, Horizontal), statics, moving.id, Horizontal);
             0 <= i < |cands| && Abs(cands[i].d) < snapThreshold / scale
    ensures var cands := Candidates(AxisLines(moving, Horizontal), statics, moving.id, Horizontal);
            var r := SnapAdjustments(moving, statics, scale, snapThreshold, settings);
            Abs(r.snapOffset.y) <= Abs(cands[i].d) && LastGuideOnStatic(r, moving, statics)
  {
    HorizontalSearchFindsNearest(moving, statics, scale, snapThreshold, i);
    HorizontalHalf(moving, statics, scale, snapThreshold, settings);
    var cands := Candidates(AxisLines(moving, Horizontal), statics, moving.id, Horizontal);
    var bh := BestFrom(None, cands, snapThreshold / scale);
    CandidatesFrom(AxisLines(moving, Horizontal), statics, moving.id, Horizontal, bh.value);
    var bv := BestSnap(moving, statics, snapThreshold / scale, settings, Vertical);
    HorizontalGuideOnStatic(moving, statics, bv, bh);
  }

  /** A horizontal snap on another element's line draws its guide there, spanning both elements. */
  lemma HorizontalGuideOnStatic(moving: Element, statics: Scene, bv: Option<Snap>, bh: Option<Snap>)
    requires bh.Some? && bh.value.staticElement in statics && bh.value.staticElement.id != moving.id
    requires bh.value.staticLine in AxisLines(bh.value.staticElement, Horizontal)
    ensures LastGuideOnStatic(ApplySnaps(moving, bv, bh), moving, statics)
  {
    HorizontalGuideOfSnap(moving, bv, bh);
  }

  /**
   * The last guide is horizontal, lies on a horizontal line of another
   * element and spans that element and the moving one, placed at its
   * snapped left edge.
   */
  predicate LastGuideOnStatic(r: SnapResult, moving: Element, statics: Scene) {
    |r.snapLines| >= 1 &&
    var g := r.snapLines[|r.snapLines| - 1];
    var left := moving.x + r.snapOffset.x;
    g.HorizontalGuide? &&
    exists st :: st in statics && st.id != moving.id && g.y in AxisLines(st, Horizontal) &&
                 g.x1 == Min(left, st.x) && g.x2 == Max(left + Num(moving.width), st.x + Num(st.width))
  }

  /** With snapping on, the horizontal half of the result is the horizontal search's best snap, applied. */
  lemma HorizontalHalf(moving: Element, statics: Scene, scale: Scale, snapThreshold: real, settings: SnapSettings)
    requires snapThreshold != 0.0 && settings.isEnabled && settings.snapToObjects
    ensures var threshold := snapThreshold / scale;
            SnapAdjustments(moving, statics, scale, snapThreshold, settings) ==
              ApplySnaps(moving, BestSnap(moving, statics, threshold, settings, Vertical),
                         BestFrom(None, Candidates(AxisLines(moving, Horizontal), statics, moving.id, Horizontal), threshold))
  {
    BestSnapIsSearch(moving, statics, snapThreshold / scale, settings, Horizontal);
    SnapAdjustmentsApplies(moving, statics, scale, snapThreshold, settings);
  }

  /** A horizontal pair under the threshold means the horizontal search finds one at least as near. */
  lemma HorizontalSearchFindsNearest(moving: Element, statics: Scene, scale: Scale, snapThreshold: real, i: int)
    requires var cands := Candidates(AxisLines(moving, Horizontal), statics, moving.id, Horizontal);
             0 <= i < |cands| && Abs(cands[i].d) < snapThreshold / scale
    ensures var cands := Candidates(AxisLines(moving, Horizontal), statics, moving.id, Horizontal);
            var bh := BestFrom(None, cands, snapThreshold / scale);
            bh.Some? && Abs(bh.value.d) <= Abs(cands[i].d)
  {
    BestIsMinimal(Candidates(AxisLines(moving, Horizontal), statics, moving.id, Horizontal), snapThreshold / scale);
  }

  /**
   * A horizontal snap shifts by its distance and puts its guide last,
   * spanning both elements with the moving one shifted by the vertical snap.
   */
  lemma HorizontalGuideOfSnap(moving: Element, bv: Option<Snap>, bh: Option<Snap>)
    requires bh.Some?
    ensures var r := ApplySnaps(moving, bv, bh);
            r.snapOffset.y == bh.value.d && |r.snapLines| >= 1 &&
            var g := r.snapLines[|r.snapLines| - 1];
            var left := moving.x + r.snapOffset.x;
            g.HorizontalGuide? &&
            g.y == bh.value.staticLine &&
            g.x1 == Min(left, bh.value.staticElement.x) &&
            g.x2 == Max(left + Num(moving.width), bh.value.staticElement.x + Num(bh.value.staticElement.width))
  {
    var box := BoxOf(moving);
    var moved := if bv.Some? then box.(x := box.x + bv.value.d) else box;
    var moved' := moved.(y := moved.y + bh.value.d);
    var r := ApplySnaps(moving, bv, bh);
    assert r.snapLines[|r.snapLines| - 1] == HorizontalGuideFor(moved', bh.value);
  }

  /** The innermost loop: one moving line against every static line of one element. */
  method ScanRow(best: Option<Snap>, m: real, statics: seq<real>, st: Element, threshold: real)
    returns (r: Option<Snap>)
    ensures r == BestFrom(best, Row(m, statics, st), threshold)
  {
    r := best;
    var j := 0;
    while j < |statics|
      invariant 0 <= j <= |statics|
      invariant r == BestFrom(best, Row(m, statics[..j], st), threshold)
    {
      var d := statics[j] - m;
      RowSnoc(m, statics, st, j);
      BestFromSnoc(best, Row(m, statics[..j], st), Snap(d, statics[j], st), threshold);
      if Abs(d) < threshold && (r.None? || Abs(d) < Abs(r.value.d)) {
        r := Some(Snap(d, statics[j], st));
      }
      j := j + 1;
    }
    assert statics[..j] == statics;
  }

  /** The inner double loop: every moving line against every static line of one element. */
  method ScanPairs(best: Option<Snap>, moving: seq<real>, statics: seq<real>, st: Element, threshold: real)
    returns (r: Option<Snap>)
    ensures r == BestFrom(best, PairCandidates(moving, statics, st), threshold)
  {
    r := best;
    var i := 0;
    while i < |moving|
      invariant 0 <= i <= |moving|
      invariant r == BestFrom(best, PairCandidates(moving[..i], statics, st), threshold)
    {
      assert moving[..i + 1][..i] == moving[..i];
      BestFromAppend(best, PairCandidates(moving[..i], statics, st), Row(moving[i], statics, st), threshold);
      r := ScanRow(r, moving[i], statics, st, threshold);
      i := i + 1;
    }
    assert moving[..i] == moving;
  }

  /** The tail of `findSnapAdjustments`: shift the copy of the moving element and push the guides. */
  method ApplyBestSnaps(moving: Element, bestV: Option<Snap>, bestH: Option<Snap>) returns (r: SnapResult)
    ensures r == ApplySnaps(moving, bestV, bestH)
  {
    var offset := Origin;
    var lines: seq<Guide> := [];
    var moved := BoxOf(moving);
    if bestV.Some? {
      offset := offset.(x := bestV.value.d);
      moved := moved.(x := moved.x + offset.x);
      lines := lines + [VerticalGuideFor(moved, bestV.value)];
    }
    ghost var movedV, linesV := moved, lines;
    if bestH.Some? {
      offset := offset.(y := bestH.value.d);
      moved := moved.(y := moved.y + offset.y);
      lines := lines + [HorizontalGuideFor(moved, bestH.value)];
    }
    assert lines == linesV + (if bestH.Some? then [HorizontalGuideFor(moved, bestH.value)] else []);
    return SnapResult(offset, lines);
  }

  /** `findSnapAdjustments` as the source runs it: one pass over the static elements. */
  method FindSnapAdjustments(moving: Element, statics: Scene, scale: Scale, snapThreshold: real,
                             settings: SnapSettings) returns (r: SnapResult)
    ensures r == SnapAdjustments(moving, statics, scale, snapThreshold, settings)
  {
    if snapThreshold == 0.0 || !settings.isEnabled {
      return SnapResult(Origin, []);
    }
    var movingLines := ElementSnapLines(moving);
    var threshold := snapThreshold / scale;
    var bestV: Option<Snap> := None;
    var bestH: Option<Snap> := None;
    if settings.snapToObjects {
      var i := 0;
      while i < |statics|
        invariant 0 <= i <= |statics|
        invariant bestV == BestFrom(None, Candidates(AxisLines(moving, Vertical), statics[..i], moving.id, Vertical), threshold)
        invariant bestH == BestFrom(None, Candidates(AxisLines(moving, Horizontal), statics[..i], moving.id, Horizontal), threshold)
      {
        var st := statics[i];
        CandidatesStep(AxisLines(moving, Vertical), statics, i, moving.id, Vertical, threshold);
        CandidatesStep(AxisLines(moving, Horizontal), statics, i, moving.id, Horizontal, threshold);
        if st.id != moving.id {
          var lines := ElementSnapLines(st);
          bestV := ScanPairs(bestV, movingLines.vertical, lines.vertical, st, threshold);
          bestH := ScanPairs(bestH, movingLines.horizontal, lines.horizontal, st, threshold);
        }
        i := i + 1;
      }
      assert statics[..i] == statics;
    }
    r := ApplyBestSnaps(moving, bestV, bestH);
  }
}
