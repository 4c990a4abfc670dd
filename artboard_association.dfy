/**
 * Which artboard an element belongs to. Two revisions of the rule are in
 * use: the newer one gives an element to the artboard it overlaps most,
 * provided more than half of its box lies there; the older one gives it to
 * the top-most artboard whose rectangle holds the element's centre.
 */
module ArtboardAssociation {
  import opened Model
  import opened Geometry

  /**
   * `getIntersectionArea(a, b)`: the area two boxes share. It lives in a
   * geometry module that is not part of this model and is taken as a
   * parameter; nothing is assumed about it.
   */
  type Overlap = (Box, Box) -> real

  /** The artboards of the scene, in scene order. */
  function Artboards(all: Scene): (r: Scene)
    ensures forall e :: e in r ==> e.kind == Artboard && e in all
    ensures forall e :: e in all && e.kind == Artboard ==> e in r
  {
    if all == [] then []
    else (if all[0].kind == Artboard then [all[0]] else []) + Artboards(all[1..])
  }

  // ---- Newer revision: largest overlap ---------------------------------------

  /** `getAxisAlignedBoundingBox([element])` as a plain box. */
  function ElementBounds(t: Trig, e: Element): (b: Box)
    ensures b.width >= 0.0 && b.height >= 0.0
  {
    BoxOf(AxisAlignedBoundingBox(t, [e]).value)
  }

  /** The overlap of the element's box with each artboard, in order. */
  function Overlaps(overlap: Overlap, eb: Box, artboards: Scene): (r: seq<real>)
    ensures |r| == |artboards|
  {
    if artboards == [] then []
    else Overlaps(overlap, eb, artboards[..|artboards| - 1]) + [overlap(eb, BoxOf(artboards[|artboards| - 1]))]
  }

  lemma {:induction false} OverlapAt(overlap: Overlap, eb: Box, artboards: Scene, i: int)
    requires 0 <= i < |artboards|
    ensures Overlaps(overlap, eb, artboards)[i] == overlap(eb, BoxOf(artboards[i]))
  {
    var n := |artboards| - 1;
    if i < n {
      OverlapAt(overlap, eb, artboards[..n], i);
    }
  }

  /**
   * The index of the strictly largest positive overlap, the earliest on
   * ties, or -1 when no overlap is positive.
   */
  function LargestOverlap(ovs: seq<real>): (k: int)
    ensures -1 <= k < |ovs|
    ensures k == -1 <==> forall i :: 0 <= i < |ovs| ==> ovs[i] <= 0.0
    ensures k >= 0 ==> ovs[k] > 0.0 && (forall j :: 0 <= j < k ==> ovs[j] < ovs[k]) &&
                       (forall j :: k < j < |ovs| ==> ovs[j] <= ovs[k])
  {
    if ovs == [] then -1
    else
      var n := |ovs| - 1;
      var k := LargestOverlap(ovs[..n]);
      assert forall i :: 0 <= i < n ==> ovs[..n][i] == ovs[i];
      var best := if k == -1 then 0.0 else ovs[k];
      if ovs[n] > 0.0 && ovs[n] > best then n else k
  }

  /** The largest overlap found, 0 when none is positive. */
  function MaxOverlap(ovs: seq<real>): (m: real)
    ensures m >= 0.0
    ensures forall i :: 0 <= i < |ovs| ==> ovs[i] <= m
  {
    var k := LargestOverlap(ovs);
    if k == -1 then 0.0 else ovs[k]
  }

  /** Scanning one more artboard is one more step of the search. */
  lemma LargestOverlapSnoc(ovs: seq<real>, v: real)
    ensures var k := LargestOverlap(ovs);
            LargestOverlap(ovs + [v]) == if v > 0.0 && v > MaxOverlap(ovs) then |ovs| else k
    ensures MaxOverlap(ovs + [v]) == if v > 0.0 && v > MaxOverlap(ovs) then v else MaxOverlap(ovs)
  {
    assert (ovs + [v])[..|ovs|] == ovs;
  }

  /** Scanning one more artboard appends its overlap. */
  lemma OverlapsSnoc(overlap: Overlap, eb: Box, artboards: Scene, i: nat)
    requires i < |artboards|
    ensures Overlaps(overlap, eb, artboards[..i + 1]) ==
            Overlaps(overlap, eb, artboards[..i]) + [overlap(eb, BoxOf(artboards[i]))]
  {
    assert artboards[..i + 1][..i] == artboards[..i];
  }

  /** `maxIntersection / elementArea > 0.5`, with JavaScript's x/0 = Infinity and 0/0 = NaN. */
  predicate MoreThanHalf(maxIntersection: real, area: real) {
    if area == 0.0 then maxIntersection > 0.0 else maxIntersection / area > 0.5
  }

  /** On a box of non-negative area the rule reads: the overlap exceeds half the area. */
  lemma MoreThanHalfOfArea(m: real, area: real)
    requires area >= 0.0
    ensures MoreThanHalf(m, area) <==> 2.0 * m > area
  {
    if area > 0.0 {
      var q := m / area;
      assert q * area == m;
      assert q > 0.5 <==> q * area > 0.5 * area;
    }
  }

  /** The id of the artboard at the search's answer, or none. */
  function IdAt(artboards: Scene, k: int): (r: Option<Id>)
    requires -1 <= k < |artboards|
    ensures r.None? <==> k == -1
    ensures r.Some? ==> r.value == artboards[k].id
  {
    if k == -1 then None else Some(artboards[k].id)
  }

  /**
   * `findParentArtboard` on the element's box: the artboard it overlaps
   * most, provided the overlap is more than half of the box.
   */
  function ParentOfBox(overlap: Overlap, eb: Box, artboards: Scene): (r: Option<Id>)
    ensures var ovs := Overlaps(overlap, eb, artboards);
            (r.Some? <==> MoreThanHalf(MaxOverlap(ovs), Area(eb))) &&
            (r.Some? ==> exists k :: 0 <= k < |artboards| && artboards[k].id == r.value &&
                           0.0 < ovs[k] == MaxOverlap(ovs))
  {
    var ovs := Overlaps(overlap, eb, artboards);
    var k := LargestOverlap(ovs);
    if MoreThanHalf(MaxOverlap(ovs), Area(eb)) then
      assert k != -1;
      IdAt(artboards, k)
    else None
  }

  /** `findBestArtboardForElement` on the element's box: the artboard it overlaps most. */
  function BestOfBox(overlap: Overlap, eb: Box, artboards: Scene): (r: Option<Id>)
    ensures r.None? ==> forall i :: 0 <= i < |artboards| ==> Overlaps(overlap, eb, artboards)[i] <= 0.0
    ensures (forall i :: 0 <= i < |artboards| ==> Overlaps(overlap, eb, artboards)[i] <= 0.0) ==> r.None?
    ensures var ovs := Overlaps(overlap, eb, artboards);
            r.Some? ==> exists k :: 0 <= k < |artboards| && artboards[k].id == r.value &&
                          0.0 < ovs[k] == MaxOverlap(ovs)
  {
    IdAt(artboards, LargestOverlap(Overlaps(overlap, eb, artboards)))
  }

  /** `findParentArtboard`. */
  function ParentArtboard(t: Trig, overlap: Overlap, e: Element, artboards: Scene): (r: Option<Id>)
    ensures var eb := ElementBounds(t, e);
            var ovs := Overlaps(overlap, eb, artboards);
            (r.Some? <==> MoreThanHalf(MaxOverlap(ovs), Area(eb))) &&
            (r.Some? ==> exists k :: 0 <= k < |artboards| && artboards[k].id == r.value && 0.0 < ovs[k] == MaxOverlap(ovs))
  {
    ParentOfBox(overlap, ElementBounds(t, e), artboards)
  }

  /** `findBestArtboardForElement`. */
  function BestArtboard(t: Trig, overlap: Overlap, e: Element, artboards: Scene): (r: Option<Id>)
    ensures var eb := ElementBounds(t, e);
            r.None? ==> forall i :: 0 <= i < |artboards| ==> Overlaps(overlap, eb, artboards)[i] <= 0.0
    ensures var eb := ElementBounds(t, e);
            (forall i :: 0 <= i < |artboards| ==> Overlaps(overlap, eb, artboards)[i] <= 0.0) ==> r.None?
    ensures var eb := ElementBounds(t, e);
            var ovs := Overlaps(overlap, eb, artboards);
            r.Some? ==> exists k :: 0 <= k < |artboards| && artboards[k].id == r.value &&
                          0.0 < ovs[k] == MaxOverlap(ovs)
  {
    BestOfBox(overlap, ElementBounds(t, e), artboards)
  }

  /**
   * The two searches agree whenever the 50% rule admits a parent; any
   * positive overlap of at most half the box's area finds a best artboard
   * but no parent.
   */
  lemma ParentIsBestAboveHalf(overlap: Overlap, eb: Box, artboards: Scene)
    ensures ParentOfBox(overlap, eb, artboards).Some? ==>
              ParentOfBox(overlap, eb, artboards) == BestOfBox(overlap, eb, artboards)
    ensures var m := MaxOverlap(Overlaps(overlap, eb, artboards));
            0.0 < m && 2.0 * m <= Area(eb) ==>
              ParentOfBox(overlap, eb, artboards).None? && BestOfBox(overlap, eb, artboards).Some?
  {
    var m := MaxOverlap(Overlaps(overlap, eb, artboards));
    if 0.0 < m && 2.0 * m <= Area(eb) {
      MoreThanHalfOfArea(m, Area(eb));
    }
  }

  /**
   * The loop both `findParentArtboard` and `findBestArtboardForElement`
   * run: keep the artboard with the largest positive overlap so far.
   */
  method ScanOverlaps(overlap: Overlap, eb: Box, artboards: Scene) returns (best: Option<Id>, max: real)
    ensures var ovs := Overlaps(overlap, eb, artboards);
            max == MaxOverlap(ovs) && best == IdAt(artboards, LargestOverlap(ovs))
  {
    best, max := None, 0.0;
    var i := 0;
    while i < |artboards|
      invariant 0 <= i <= |artboards|
      invariant var ovs := Overlaps(overlap, eb, artboards[..i]);
                max == MaxOverlap(ovs) && best == IdAt(artboards, LargestOverlap(ovs))
    {
      var artboard := artboards[i];
      var intersection := overlap(eb, BoxOf(artboard));
      OverlapsSnoc(overlap, eb, artboards, i);
      LargestOverlapSnoc(Overlaps(overlap, eb, artboards[..i]), intersection);
      if intersection > 0.0 && intersection > max {
        max := intersection;
        best := Some(artboard.id);
      }
      i := i + 1;
    }
    assert artboards[..i] == artboards;
  }

  method FindParentArtboard(t: Trig, overlap: Overlap, e: Element, artboards: Scene) returns (r: Option<Id>)
    ensures r == ParentArtboard(t, overlap, e, artboards)
  {
    var eb := ElementBounds(t, e);
    var area := Area(eb);
    var bestFit, maxIntersection := ScanOverlaps(overlap, eb, artboards);
    if MoreThanHalf(maxIntersection, area) {
      return bestFit;
    }
    return None;
  }

  method FindBestArtboardForElement(t: Trig, overlap: Overlap, e: Element, artboards: Scene) returns (r: Option<Id>)
    ensures r == BestArtboard(t, overlap, e, artboards)
  {
    var eb := ElementBounds(t, e);
    var maxArea;
    r, maxArea := ScanOverlaps(overlap, eb, artboards);
  }

  /** `getArtboardHighlight`: the parent artboard of the first moved element. */
  function ArtboardHighlight(t: Trig, overlap: Overlap, moved: Scene, all: Scene): (r: Option<Id>)
    ensures moved == [] ==> r.None?
    ensures moved != [] ==> r == ParentArtboard(t, overlap, moved[0], Artboards(all))
    ensures r.Some? ==> exists a :: a in all && a.kind == Artboard && a.id == r.value
  {
    if moved == [] then None
    else
      var arts := Artboards(all);
      var r := ParentArtboard(t, overlap, moved[0], arts);
      assert r.Some? ==> exists k :: 0 <= k < |arts| && arts[k].id == r.value;
      r
  }

  /** Moved elements of the scene take the parent the 50% rule gives them. */
  function Reparent(t: Trig, overlap: Overlap, el: Element, movedIds: seq<Id>, arts: Scene): (r: Element)
    ensures r == el.(parentId := r.parentId)
    ensures !(el.id in movedIds) ==> r == el
    ensures el.id in movedIds ==> r.parentId == ParentArtboard(t, overlap, el, arts)
  {
    if el.id in movedIds then el.(parentId := ParentArtboard(t, overlap, el, arts)) else el
  }

  function ReparentAll(t: Trig, overlap: Overlap, els: Scene, movedIds: seq<Id>, arts: Scene): (r: Scene)
    ensures |r| == |els|
    ensures forall i :: 0 <= i < |els| ==> r[i] == Reparent(t, overlap, els[i], movedIds, arts)
  {
    if els == [] then []
    else [Reparent(t, overlap, els[0], movedIds, arts)] + ReparentAll(t, overlap, els[1..], movedIds, arts)
  }

  /**
   * `updateArtboardAssociation` (newer revision): the scene in the same
   * order, where only the moved elements' parent changes, to the artboard
   * that holds more than half of each.
   */
  function UpdateArtboardAssociation(t: Trig, overlap: Overlap, moved: Scene, all: Scene): (r: Scene)
    ensures |r| == |all|
    ensures forall i :: 0 <= i < |all| ==> r[i] == all[i].(parentId := r[i].parentId)
    ensures forall i :: 0 <= i < |all| && !(all[i].id in Ids(moved)) ==> r[i] == all[i]
    ensures forall i :: 0 <= i < |all| && all[i].id in Ids(moved) ==>
              r[i].parentId == ParentArtboard(t, overlap, all[i], Artboards(all))
  {
    ReparentAll(t, overlap, all, Ids(moved), Artboards(all))
  }

  /** Two scenes that differ at most in their elements' parents. */
  ghost predicate SameButParents(a: Scene, b: Scene) {
    |a| == |b| && forall i :: 0 <= i < |a| ==> b[i] == a[i].(parentId := b[i].parentId)
  }

  lemma {:induction false} ArtboardsSameButParents(a: Scene, b: Scene)
    requires SameButParents(a, b)
    ensures SameButParents(Artboards(a), Artboards(b))
  {
    if a != [] {
      assert b[0] == a[0].(parentId := b[0].parentId);
      assert SameButParents(a[1..], b[1..]) by {
        forall i | 0 <= i < |a| - 1
          ensures b[1..][i] == a[1..][i].(parentId := b[1..][i].parentId)
        {
          assert b[i + 1] == a[i + 1].(parentId := b[i + 1].parentId);
        }
      }
      ArtboardsSameButParents(a[1..], b[1..]);
      var ha: Scene := if a[0].kind == Artboard then [a[0]] else [];
      var hb: Scene := if b[0].kind == Artboard then [b[0]] else [];
      var ta, tb := Artboards(a[1..]), Artboards(b[1..]);
      assert Artboards(a) == ha + ta && Artboards(b) == hb + tb;
      forall i | 0 <= i < |ha + ta|
        ensures (hb + tb)[i] == (ha + ta)[i].(parentId := (hb + tb)[i].parentId)
      {
        if i >= |ha| {
          assert (ha + ta)[i] == ta[i - |ha|] && (hb + tb)[i] == tb[i - |hb|];
        }
      }
    }
  }

  lemma ElementBoundsIgnoreParent(t: Trig, e: Element, p: Option<Id>)
    ensures ElementBounds(t, e.(parentId := p)) == ElementBounds(t, e)
  {
    var e' := e.(parentId := p);
    assert ElementCorners(t, e') == ElementCorners(t, e);
    assert AllCorners(t, [e']) == AllCorners(t, [e]);
  }

  /** Artboards that differ only in their parents overlap a box alike. */
  lemma OverlapsIgnoreParents(overlap: Overlap, eb: Box, a: Scene, b: Scene)
    requires SameButParents(a, b)
    ensures Overlaps(overlap, eb, a) == Overlaps(overlap, eb, b)
  {
    forall i | 0 <= i < |a|
      ensures Overlaps(overlap, eb, a)[i] == Overlaps(overlap, eb, b)[i]
    {
      assert b[i] == a[i].(parentId := b[i].parentId);
      assert BoxOf(b[i]) == BoxOf(a[i]);
      OverlapAt(overlap, eb, a, i);
      OverlapAt(overlap, eb, b, i);
    }
  }

  /** Artboards that differ only in their parents carry the same ids. */
  lemma IdsIgnoreParents(a: Scene, b: Scene)
    requires SameButParents(a, b)
    ensures forall i :: 0 <= i < |a| ==> a[i].id == b[i].id
  {
    forall i | 0 <= i < |a|
      ensures a[i].id == b[i].id
    {
      assert b[i] == a[i].(parentId := b[i].parentId);
    }
  }

  /** Only an element's shape decides its parent: not its own parent, nor the artboards'. */
  lemma ParentIgnoresParents(t: Trig, overlap: Overlap, e: Element, p: Option<Id>, a: Scene, b: Scene)
    requires SameButParents(a, b)
    ensures ParentArtboard(t, overlap, e.(parentId := p), b) == ParentArtboard(t, overlap, e, a)
  {
    ElementBoundsIgnoreParent(t, e, p);
    ParentOfBoxIgnoresParents(overlap, ElementBounds(t, e), a, b);
  }

  /** The box's parent among artboards that differ only in their parents is the same. */
  lemma ParentOfBoxIgnoresParents(overlap: Overlap, eb: Box, a: Scene, b: Scene)
    requires SameButParents(a, b)
    ensures ParentOfBox(overlap, eb, b) == ParentOfBox(overlap, eb, a)
  {
    OverlapsIgnoreParents(overlap, eb, a, b);
    IdsIgnoreParents(a, b);
    var k := LargestOverlap(Overlaps(overlap, eb, a));
    assert k >= 0 ==> IdAt(a, k) == IdAt(b, k);
  }

  /** Re-associating right away changes nothing more: the association is idempotent. */
  lemma UpdateAssociationIdempotent(t: Trig, overlap: Overlap, moved: Scene, all: Scene)
    ensures var once := UpdateArtboardAssociation(t, overlap, moved, all);
            UpdateArtboardAssociation(t, overlap, moved, once) == once
  {
    var once := UpdateArtboardAssociation(t, overlap, moved, all);
    var twice := UpdateArtboardAssociation(t, overlap, moved, once);
    assert SameButParents(all, once);
    ArtboardsSameButParents(all, once);
    forall i | 0 <= i < |all|
      ensures twice[i] == once[i]
    {
      if all[i].id in Ids(moved) {
        ParentIgnoresParents(t, overlap, all[i], once[i].parentId, Artboards(all), Artboards(once));
      }
    }
  }

  /** An element's parent is valid when it names an element of the scene. */
  predicate HasValidParent(e: Element, all: Scene) {
    e.parentId.Some? && exists a :: a in all && a.id == e.parentId.value
  }

  /**
   * `initializeElementParents`: artboards, and elements whose parent names an
   * element of the scene, are kept; every other element takes the artboard
   * it overlaps most, or no parent.
   */
  function InitializeElementParents(t: Trig, overlap: Overlap, all: Scene): (r: Scene)
    ensures |r| == |all|
    ensures forall i :: 0 <= i < |all| && (all[i].kind == Artboard || HasValidParent(all[i], all)) ==> r[i] == all[i]
    ensures forall i :: 0 <= i < |all| && all[i].kind != Artboard && !HasValidParent(all[i], all) ==>
              r[i] == all[i].(parentId := BestArtboard(t, overlap, all[i], Artboards(all)))
  {
    InitializeFrom(t, overlap, all, all, Artboards(all))
  }

  /** One element as `initializeElementParents` leaves it. */
  function Initialized(t: Trig, overlap: Overlap, e: Element, all: Scene, arts: Scene): (r: Element)
    ensures e.kind == Artboard || HasValidParent(e, all) ==> r == e
    ensures e.kind != Artboard && !HasValidParent(e, all) ==> r == e.(parentId := BestArtboard(t, overlap, e, arts))
  {
    if e.kind == Artboard || HasValidParent(e, all) then e else e.(parentId := BestArtboard(t, overlap, e, arts))
  }

  function InitializeFrom(t: Trig, overlap: Overlap, els: Scene, all: Scene, arts: Scene): (r: Scene)
    ensures |r| == |els|
    ensures forall i :: 0 <= i < |els| ==> r[i] == Initialized(t, overlap, els[i], all, arts)
  {
    if els == [] then []
    else [Initialized(t, overlap, els[0], all, arts)] + InitializeFrom(t, overlap, els[1..], all, arts)
  }

  // ---- Older revision: the artboard under the centre ---------------------------

  /**
   * The top-most artboard whose closed rectangle holds `c`: the last in the
   * list.
   */
  function ArtboardUnder(c: Point, artboards: Scene): (r: Option<Element>)
    ensures r.None? <==> forall i :: 0 <= i < |artboards| ==> !PointInRect(c, BoxOf(artboards[i]))
    ensures r.Some? ==> exists i :: 0 <= i < |artboards| && artboards[i] == r.value &&
                          PointInRect(c, BoxOf(artboards[i])) &&
                          forall j :: i < j < |artboards| ==> !PointInRect(c, BoxOf(artboards[j]))
  {
    if artboards == [] then None
    else if PointInRect(c, BoxOf(artboards[|artboards| - 1])) then Some(artboards[|artboards| - 1])
    else
      var r := ArtboardUnder(c, artboards[..|artboards| - 1]);
      assert forall i :: 0 <= i < |artboards| - 1 ==> artboards[..|artboards| - 1][i] == artboards[i];
      r
  }

  /** The scan's step: the top artboard of a prefix if it holds the point, the rest of the prefix otherwise. */
  lemma ArtboardUnderStep(c: Point, artboards: Scene, i: nat)
    requires i < |artboards|
    ensures ArtboardUnder(c, artboards[..i + 1]) ==
            if PointInRect(c, BoxOf(artboards[i])) then Some(artboards[i]) else ArtboardUnder(c, artboards[..i])
  {
    assert artboards[..i + 1][..i] == artboards[..i];
  }

  /** `getArtboardUnderElement`: scans the artboards from the top down. */
  method GetArtboardUnderElement(e: Element, artboards: Scene) returns (r: Option<Element>)
    ensures r == ArtboardUnder(Center(e), artboards)
  {
    var center := Center(e);
    var i := |artboards| - 1;
    assert artboards[..|artboards|] == artboards;
    while i >= 0
      invariant -1 <= i < |artboards|
      invariant ArtboardUnder(center, artboards) == ArtboardUnder(center, artboards[..i + 1])
    {
      var artboard := artboards[i];
      ArtboardUnderStep(center, artboards, i);
      if PointInRect(center, BoxOf(artboard)) {
        return Some(artboard);
      }
      i := i - 1;
    }
    assert artboards[..0] == [];
    return None;
  }

  /** The scene after a drag and the artboard to highlight. */
  datatype Association = Association(updatedElements: Scene, highlightedArtboardId: Option<Id>)

  function SetParent(els: Scene, ids: seq<Id>, parent: Option<Id>): (r: Scene)
    ensures |r| == |els|
    ensures forall i :: 0 <= i < |els| ==> r[i] == if els[i].id in ids then els[i].(parentId := parent) else els[i]
  {
    if els == [] then []
    else [if els[0].id in ids then els[0].(parentId := parent) else els[0]] + SetParent(els[1..], ids, parent)
  }

  /**
   * `updateArtboardAssociation` (older revision): nothing when nothing is
   * dragged or the first dragged element is an artboard; otherwise every
   * dragged element gets as parent the top-most artboard under the first
   * one's centre (none when no artboard holds it), which is also the one
   * highlighted.
   */
  function UpdateAssociationByCenter(dragged: Scene, all: Scene): (r: Association)
    ensures dragged == [] || dragged[0].kind == Artboard ==> r == Association(all, None)
    ensures |r.updatedElements| == |all|
    ensures forall i :: 0 <= i < |all| && !(all[i].id in Ids(dragged)) ==> r.updatedElements[i] == all[i]
    ensures dragged != [] && dragged[0].kind != Artboard ==>
              (forall i :: 0 <= i < |all| && all[i].id in Ids(dragged) ==>
                 r.updatedElements[i] == all[i].(parentId := r.highlightedArtboardId)) &&
              (r.highlightedArtboardId.Some? ==>
                 exists a :: a in all && a.kind == Artboard && a.id == r.highlightedArtboardId.value &&
                             PointInRect(Center(dragged[0]), BoxOf(a)))
    ensures dragged != [] && dragged[0].kind != Artboard ==>
              var u := ArtboardUnder(Center(dragged[0]), Artboards(all));
              r.highlightedArtboardId == (if u.Some? then Some(u.value.id) else None)
  {
    if dragged == [] || dragged[0].kind == Artboard then Association(all, None)
    else
      var target := ArtboardUnder(Center(dragged[0]), Artboards(all));
      var highlighted := if target.Some? then Some(target.value.id) else None;
      Association(SetParent(all, Ids(dragged), highlighted), highlighted)
  }
}
