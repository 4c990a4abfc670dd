/**
 * The layers panel's list (`LayersPanel`): the scene as a tree of rows in
 * which each root is followed by its children, each of those by its own,
 * and so on; plus the row flags and the label's capitalisation.
 *
 * An element is a child when its `parentId` names an element of the scene;
 * otherwise it is a root. The panel recurses from each root into its
 * children. With unique ids no chain from a root can return to an element
 * already on it, so the depth never exceeds the number of elements; the
 * model bounds the recursion by that number.
 */
module LayersPanel {
  import opened Model

  /** One rendered layer row. */
  datatype Row = Row(element: Element, isChild: bool, isVisible: bool, isLocked: bool)

  /** A layer is shown as visible unless `visible` is explicitly false. */
  function IsVisible(e: Element): (b: bool)
    ensures b <==> e.visible != Some(false)
  {
    e.visible != Some(false)
  }

  /** A layer is shown as locked only when `locked` is explicitly true. */
  function IsLocked(e: Element): (b: bool)
    ensures b <==> e.locked == Some(true)
  {
    e.locked == Some(true)
  }

  /** An element without either flag is shown visible and unlocked. */
  lemma DefaultFlags(e: Element)
    requires e.visible.None? && e.locked.None?
    ensures IsVisible(e) && !IsLocked(e)
  {
  }

  function RowOf(e: Element, isChild: bool): Row {
    Row(e, isChild, IsVisible(e), IsLocked(e))
  }

  /** Whether the element's `parentId` names an element of the scene. */
  predicate HasParentIn(e: Element, elements: Scene) {
    e.parentId.Some? && e.parentId.value in Ids(elements)
  }

  /** `rootElements`: the elements with no parent in the scene, in scene order. */
  function Roots(elements: Scene, within: Scene): (r: Scene)
    ensures |r| <= |within|
  {
    if within == [] then []
    else (if HasParentIn(within[0], elements) then [] else [within[0]]) + Roots(elements, within[1..])
  }

  /** `childrenByParentId.get(id)`: the elements whose parent is `id`, in scene order. */
  function ChildrenOf(elements: Scene, within: Scene, id: Id): (r: Scene)
    ensures |r| <= |within|
  {
    if within == [] then []
    else (if HasParentIn(within[0], elements) && within[0].parentId == Some(id) then [within[0]] else [])
         + ChildrenOf(elements, within[1..], id)
  }

  /** The roots are the elements without a parent in the scene. */
  lemma {:induction false} RootsAreParentless(elements: Scene, within: Scene, e: Element)
    ensures e in Roots(elements, within) <==> e in within && !HasParentIn(e, elements)
  {
    if within != [] {
      RootsAreParentless(elements, within[1..], e);
      assert within == [within[0]] + within[1..];
    }
  }

  /** The children of `id` are the elements whose parent is `id`, when that parent is in the scene. */
  lemma {:induction false} ChildrenHaveThatParent(elements: Scene, within: Scene, id: Id, e: Element)
    ensures e in ChildrenOf(elements, within, id) <==> e in within && HasParentIn(e, elements) && e.parentId == Some(id)
  {
    if within != [] {
      ChildrenHaveThatParent(elements, within[1..], id, e);
      assert within == [within[0]] + within[1..];
    }
  }

  /** `buildList(element, isChild)` with at most `fuel` levels below the element. */
  function Subtree(elements: Scene, e: Element, isChild: bool, fuel: nat): (r: seq<Row>)
    decreases fuel, 0
    ensures r != [] && r[0] == RowOf(e, isChild)
  {
    [RowOf(e, isChild)] + (if fuel == 0 then [] else Forest(elements, ChildrenOf(elements, elements, e.id), true, fuel - 1))
  }

  /** `list.forEach(el => buildList(el, isChild))`. */
  function Forest(elements: Scene, list: Scene, isChild: bool, fuel: nat): (r: seq<Row>)
    decreases fuel, 1, |list|
    ensures |r| >= |list|
  {
    if list == [] then []
    else Subtree(elements, list[0], isChild, fuel) + Forest(elements, list[1..], isChild, fuel)
  }

  /** `renderHierarchicalList`: every root's subtree, roots in scene order. */
  function HierarchicalList(elements: Scene): (r: seq<Row>)
    ensures |r| >= |Roots(elements, elements)|
    ensures elements != [] && !HasParentIn(elements[0], elements) ==> r[0] == RowOf(elements[0], false)
  {
    Forest(elements, Roots(elements, elements), false, |elements|)
  }

  /** Every row below an element's own row is drawn as a child. */
  lemma {:induction false} SubtreeBelowIsChild(elements: Scene, e: Element, isChild: bool, fuel: nat)
    decreases fuel, 0
    ensures forall i :: 1 <= i < |Subtree(elements, e, isChild, fuel)| ==> Subtree(elements, e, isChild, fuel)[i].isChild
  {
    if fuel > 0 {
      var f := Forest(elements, ChildrenOf(elements, elements, e.id), true, fuel - 1);
      ForestOfChildrenIsChild(elements, ChildrenOf(elements, elements, e.id), fuel - 1);
      var r := Subtree(elements, e, isChild, fuel);
      assert r == [RowOf(e, isChild)] + f;
      forall i | 1 <= i < |r|
        ensures r[i].isChild
      {
        assert r[i] == f[i - 1];
      }
    }
  }

  /** Every row of the children's subtrees is drawn as a child. */
  lemma {:induction false} ForestOfChildrenIsChild(elements: Scene, list: Scene, fuel: nat)
    decreases fuel, 1, |list|
    ensures forall i :: 0 <= i < |Forest(elements, list, true, fuel)| ==> Forest(elements, list, true, fuel)[i].isChild
  {
    if list != [] {
      SubtreeBelowIsChild(elements, list[0], true, fuel);
      ForestOfChildrenIsChild(elements, list[1..], fuel);
      var s: seq<Row> := Subtree(elements, list[0], true, fuel);
      var rest: seq<Row> := Forest(elements, list[1..], true, fuel);
      assert Forest(elements, list, true, fuel) == s + rest;
      forall i | 0 <= i < |s| + |rest|
        ensures (s + rest)[i].isChild
      {
        if i >= |s| {
          assert (s + rest)[i] == rest[i - |s|];
        } else {
          assert (s + rest)[i] == s[i];
        }
      }
    }
  }

  /** Every row shows an element of the scene, or one of the elements it was built from. */
  lemma {:induction false} ForestRowsFromScene(elements: Scene, list: Scene, isChild: bool, fuel: nat, i: int)
    decreases fuel, 1, |list|
    requires 0 <= i < |Forest(elements, list, isChild, fuel)|
    ensures Forest(elements, list, isChild, fuel)[i].element in list || Forest(elements, list, isChild, fuel)[i].element in elements
  {
    var s: seq<Row> := Subtree(elements, list[0], isChild, fuel);
    var rest: seq<Row> := Forest(elements, list[1..], isChild, fuel);
    assert Forest(elements, list, isChild, fuel) == s + rest;
    if i < |s| {
      if i > 0 {
        var kids := ChildrenOf(elements, elements, list[0].id);
        assert s == [RowOf(list[0], isChild)] + Forest(elements, kids, true, fuel - 1);
        ForestRowsFromScene(elements, kids, true, fuel - 1, i - 1);
        var x := s[i].element;
        if x in kids {
          ChildrenHaveThatParent(elements, elements, list[0].id, x);
        }
      }
    } else {
      ForestRowsFromScene(elements, list[1..], isChild, fuel, i - |s|);
    }
  }

  /** The panel only lists elements of the scene. */
  lemma RowsAreSceneElements(elements: Scene, i: int)
    requires 0 <= i < |HierarchicalList(elements)|
    ensures HierarchicalList(elements)[i].element in elements
  {
    ForestRowsFromScene(elements, Roots(elements, elements), false, |elements|, i);
    var x := HierarchicalList(elements)[i].element;
    RootsAreParentless(elements, elements, x);
  }

  /** The elements of the rows drawn at the top level, in order. */
  function TopLevel(rows: seq<Row>): seq<Element> {
    if rows == [] then [] else (if rows[0].isChild then [] else [rows[0].element]) + TopLevel(rows[1..])
  }

  lemma {:induction false} TopLevelSplits(a: seq<Row>, b: seq<Row>)
    ensures TopLevel(a + b) == TopLevel(a) + TopLevel(b)
  {
    if a == [] {
      assert a + b == b;
    } else {
      assert (a + b)[0] == a[0];
      assert (a + b)[1..] == a[1..] + b;
      TopLevelSplits(a[1..], b);
    }
  }

  lemma {:induction false} AllChildrenNoTopLevel(rows: seq<Row>)
    requires forall i :: 0 <= i < |rows| ==> rows[i].isChild
    ensures TopLevel(rows) == []
  {
    if rows != [] {
      AllChildrenNoTopLevel(rows[1..]);
    }
  }

  /** The top-level rows of a list of roots' subtrees are exactly those roots. */
  lemma {:induction false} ForestTopLevel(elements: Scene, list: Scene, fuel: nat)
    ensures TopLevel(Forest(elements, list, false, fuel)) == list
  {
    if list != [] {
      var s := Subtree(elements, list[0], false, fuel);
      var rest := Forest(elements, list[1..], false, fuel);
      TopLevelSplits(s, rest);
      TopLevelSplits([s[0]], s[1..]);
      assert s == [s[0]] + s[1..];
      SubtreeBelowIsChild(elements, list[0], false, fuel);
      assert forall i :: 0 <= i < |s[1..]| ==> s[1..][i] == s[i + 1];
      AllChildrenNoTopLevel(s[1..]);
      ForestTopLevel(elements, list[1..], fuel);
    }
  }

  /**
   * The rows drawn at the top level are the roots, in scene order, and no
   * other row is: every other row is drawn as a child.
   */
  lemma TopLevelRowsAreRoots(elements: Scene)
    ensures TopLevel(HierarchicalList(elements)) == Roots(elements, elements)
  {
    ForestTopLevel(elements, Roots(elements, elements), |elements|);
  }

  /**
   * The row after an element's own row starts its first child's subtree,
   * when it has children and depth is left.
   */
  lemma FirstChildFollowsParent(elements: Scene, e: Element, isChild: bool, fuel: nat)
    requires fuel > 0 && ChildrenOf(elements, elements, e.id) != []
    ensures var r := Subtree(elements, e, isChild, fuel);
            |r| >= 2 && r[1] == RowOf(ChildrenOf(elements, elements, e.id)[0], true)
  {
  }

  /**
   * The list-building method as the panel runs it: the `forEach` that fills
   * `rootElements` and `childrenByParentId`, then `buildList` from each root.
   */
  method RenderHierarchicalList(elements: Scene) returns (result: seq<Row>)
    ensures result == HierarchicalList(elements)
  {
    var childrenByParentId, rootElements := GroupByParent(elements);
    result := [];
    var j := 0;
    while j < |rootElements|
      invariant 0 <= j <= |rootElements|
      invariant result == Forest(elements, rootElements[..j], false, |elements|)
    {
      var rows := BuildList(elements, childrenByParentId, rootElements[j], false, |elements|);
      ForestStep(elements, rootElements, j, false, |elements|);
      result := result + rows;
      j := j + 1;
    }
    assert rootElements[..j] == rootElements;
  }

  /** `childrenByParentId.get(id) || []`. */
  function ChildrenIn(childrenByParentId: map<Id, Scene>, id: Id): Scene {
    if id in childrenByParentId then childrenByParentId[id] else []
  }

  /** The map holds every id's children among `within`, in scene order. */
  ghost predicate Grouped(elements: Scene, within: Scene, childrenByParentId: map<Id, Scene>) {
    forall id :: ChildrenIn(childrenByParentId, id) == ChildrenOf(elements, within, id)
  }

  /** Filing one more element under its parent keeps the map grouped. */
  lemma GroupStep(elements: Scene, within: Scene, el: Element, before: map<Id, Scene>, after: map<Id, Scene>)
    requires Grouped(elements, within, before)
    requires HasParentIn(el, elements) ==>
               after == before[el.parentId.value := ChildrenIn(before, el.parentId.value) + [el]]
    requires !HasParentIn(el, elements) ==> after == before
    ensures Grouped(elements, within + [el], after)
  {
    forall id
      ensures ChildrenIn(after, id) == ChildrenOf(elements, within + [el], id)
    {
      ChildrenSnocAt(elements, within, el, id);
    }
  }

  /** The panel's first `forEach`: the roots in order, and each parent's children in order. */
  method GroupByParent(elements: Scene) returns (childrenByParentId: map<Id, Scene>, rootElements: Scene)
    ensures rootElements == Roots(elements, elements)
    ensures Grouped(elements, elements, childrenByParentId)
  {
    childrenByParentId := map[];
    rootElements := [];
    var i := 0;
    while i < |elements|
      invariant 0 <= i <= |elements|
      invariant rootElements == Roots(elements, elements[..i])
      invariant Grouped(elements, elements[..i], childrenByParentId)
    {
      var el := elements[i];
      RootsSnoc(elements, elements[..i], el);
      ghost var before := childrenByParentId;
      if el.parentId.Some? && el.parentId.value in Ids(elements) {
        var children := if el.parentId.value in childrenByParentId then childrenByParentId[el.parentId.value] else [];
        childrenByParentId := childrenByParentId[el.parentId.value := children + [el]];
      } else {
        rootElements := rootElements + [el];
      }
      GroupStep(elements, elements[..i], el, before, childrenByParentId);
      assert elements[..i + 1] == elements[..i] + [el];
      i := i + 1;
    }
    assert elements[..i] == elements;
  }

  /** `buildList`: the element's row, then each child's rows. */
  method BuildList(elements: Scene, childrenByParentId: map<Id, Scene>, element: Element, isChild: bool, fuel: nat)
    returns (rows: seq<Row>)
    requires Grouped(elements, elements, childrenByParentId)
    decreases fuel, 0
    ensures rows == Subtree(elements, element, isChild, fuel)
  {
    rows := [RowOf(element, isChild)];
    if fuel == 0 {
      return;
    }
    var children := if element.id in childrenByParentId then childrenByParentId[element.id] else [];
    GroupedAt(elements, childrenByParentId, element.id);
    SubtreeUnfold(elements, element, isChild, fuel);
    var below := BuildChildren(elements, childrenByParentId, children, fuel - 1);
    rows := rows + below;
  }

  /** The map's entry for `id`, or none, is `id`'s children. */
  lemma GroupedAt(elements: Scene, childrenByParentId: map<Id, Scene>, id: Id)
    requires Grouped(elements, elements, childrenByParentId)
    ensures (if id in childrenByParentId then childrenByParentId[id] else []) == ChildrenOf(elements, elements, id)
  {
    assert ChildrenIn(childrenByParentId, id) == ChildrenOf(elements, elements, id);
  }

  /** An element's subtree with fuel left: its row, then its children's subtrees. */
  lemma SubtreeUnfold(elements: Scene, e: Element, isChild: bool, fuel: nat)
    requires fuel > 0
    ensures Subtree(elements, e, isChild, fuel) == [RowOf(e, isChild)] + Forest(elements, ChildrenOf(elements, elements, e.id), true, fuel - 1)
  {
  }

  /** `children.forEach(child => buildList(child, true))`: each child's rows in turn. */
  method BuildChildren(elements: Scene, childrenByParentId: map<Id, Scene>, children: Scene, fuel: nat)
    returns (rows: seq<Row>)
    requires Grouped(elements, elements, childrenByParentId)
    decreases fuel, 1
    ensures rows == Forest(elements, children, true, fuel)
  {
    rows := [];
    var k := 0;
    while k < |children|
      invariant 0 <= k <= |children|
      invariant rows == Forest(elements, children[..k], true, fuel)
    {
      var sub := BuildList(elements, childrenByParentId, children[k], true, fuel);
      ForestStep(elements, children, k, true, fuel);
      rows := rows + sub;
      k := k + 1;
    }
    assert children[..k] == children;
  }

  /** One more element of the list adds its subtree's rows. */
  lemma ForestStep(elements: Scene, list: Scene, k: nat, isChild: bool, fuel: nat)
    requires k < |list|
    ensures Forest(elements, list[..k + 1], isChild, fuel) ==
            Forest(elements, list[..k], isChild, fuel) + Subtree(elements, list[k], isChild, fuel)
  {
    assert list[..k + 1] == list[..k] + [list[k]];
    ForestSnoc(elements, list[..k], list[k], isChild, fuel);
  }

  lemma {:induction false} ForestSnoc(elements: Scene, list: Scene, e: Element, isChild: bool, fuel: nat)
    ensures Forest(elements, list + [e], isChild, fuel) == Forest(elements, list, isChild, fuel) + Subtree(elements, e, isChild, fuel)
  {
    if list == [] {
      assert [] + [e] == [e];
      assert Forest(elements, [e], isChild, fuel) == Subtree(elements, e, isChild, fuel) + Forest(elements, [], isChild, fuel);
    } else {
      assert (list + [e])[0] == list[0];
      assert (list + [e])[1..] == list[1..] + [e];
      ForestSnoc(elements, list[1..], e, isChild, fuel);
    }
  }

  /** Appending after a non-empty sequence keeps its head and appends to its tail. */
  lemma ConsSnoc(within: Scene, e: Element)
    requires within != []
    ensures (within + [e])[0] == within[0] && (within + [e])[1..] == within[1..] + [e]
  {
  }

  lemma {:induction false} RootsSnoc(elements: Scene, within: Scene, e: Element)
    ensures Roots(elements, within + [e]) == Roots(elements, within) + (if HasParentIn(e, elements) then [] else [e])
  {
    if within == [] {
      assert [] + [e] == [e];
    } else {
      ConsSnoc(within, e);
      RootsSnoc(elements, within[1..], e);
    }
  }

  lemma {:induction false} ChildrenSnocAt(elements: Scene, within: Scene, e: Element, id: Id)
    ensures ChildrenOf(elements, within + [e], id) ==
            ChildrenOf(elements, within, id) + (if HasParentIn(e, elements) && e.parentId == Some(id) then [e] else [])
  {
    if within == [] {
      assert [] + [e] == [e];
    } else {
      ConsSnoc(within, e);
      ChildrenSnocAt(elements, within[1..], e, id);
    }
  }

  // ---- capitalizeFirstLetter -------------------------------------------------------------

  /** `toUpperCase` on one character, for the ASCII letters: one instance of the case mapping below. */
  function UpperChar(c: char): (u: char)
    ensures 'a' <= c <= 'z' ==> u as int == c as int - 32
    ensures !('a' <= c <= 'z') ==> u == c
  {
    if 'a' <= c <= 'z' then (c as int - 32) as char else c
  }

  /** The ASCII case mapping as a string-valued one. */
  function AsciiUpper(c: char): (u: string)
    ensures u == [UpperChar(c)]
  {
    [UpperChar(c)]
  }

  /**
   * `capitalizeFirstLetter`: absent or empty gives the empty string;
   * otherwise the first character is replaced by its upper case, which
   * `upper` gives as a string because a case mapping may lengthen it, and
   * the rest is kept.
   */
  function CapitalizeFirstLetter(upper: char -> string, s: Option<string>): (r: string)
    ensures s.None? || s.value == "" ==> r == ""
    ensures s.Some? && s.value != "" ==>
              |r| == |upper(s.value[0])| + |s.value| - 1 &&
              r[..|upper(s.value[0])|] == upper(s.value[0]) && r[|upper(s.value[0])|..] == s.value[1..]
  {
    if s.None? || s.value == "" then "" else upper(s.value[0]) + s.value[1..]
  }

  /** A case mapping that keeps one character as one and is settled after one use. */
  ghost predicate SingleCharIdempotent(upper: char -> string) {
    forall c :: |upper(c)| == 1 && upper(upper(c)[0]) == upper(c)
  }

  /** The ASCII mapping is such a mapping. */
  lemma AsciiUpperSingleCharIdempotent()
    ensures SingleCharIdempotent(AsciiUpper)
  {
    forall c: char
      ensures |AsciiUpper(c)| == 1 && AsciiUpper(AsciiUpper(c)[0]) == AsciiUpper(c)
    {
      var u := UpperChar(c);
      assert !('a' <= u <= 'z');
    }
  }

  /** Under a one-character mapping the length is kept. */
  lemma CapitalizeKeepsLength(upper: char -> string, s: Option<string>)
    requires s.Some? && forall c :: |upper(c)| == 1
    ensures |CapitalizeFirstLetter(upper, s)| == |s.value|
  {
  }

  /** Capitalising twice is capitalising once, for a settled one-character mapping. */
  lemma CapitalizeIdempotent(upper: char -> string, s: Option<string>)
    requires SingleCharIdempotent(upper)
    ensures CapitalizeFirstLetter(upper, Some(CapitalizeFirstLetter(upper, s))) == CapitalizeFirstLetter(upper, s)
  {
    if s.Some? && s.value != "" {
      var r := CapitalizeFirstLetter(upper, s);
      var u := upper(s.value[0]);
      assert |u| == 1 && r == u + s.value[1..];
      assert r[0] == u[0] && r[1..] == s.value[1..];
      assert upper(u[0]) == u;
    }
  }
}
