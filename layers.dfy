/**
 * Layer ordering (`useLayerOperations`): the scene's order is the drawing
 * order, last on top. Each operation returns the new order to commit, or
 * nothing when the selection is empty.
 */
module Layers {
  import opened Model

  // ---- Whole-selection moves: filters ---------------------------------------

  /** `bringToFront`: the unselected elements, then the selected ones, each in scene order. */
  function BringToFront(elements: Scene, selectedIds: seq<Id>): (r: Option<Scene>)
    ensures selectedIds == [] <==> r.None?
    ensures r.Some? ==> multiset(r.value) == multiset(elements)
    ensures r.Some? ==> r.value == Partition(elements, selectedIds, false) + Partition(elements, selectedIds, true)
  {
    if selectedIds == [] then None
    else
      PartitionIsSplit(elements, selectedIds);
      Some(Partition(elements, selectedIds, false) + Partition(elements, selectedIds, true))
  }

  /** `sendToBack`: the selected elements, then the unselected ones, each in scene order. */
  function SendToBack(elements: Scene, selectedIds: seq<Id>): (r: Option<Scene>)
    ensures selectedIds == [] <==> r.None?
    ensures r.Some? ==> multiset(r.value) == multiset(elements)
    ensures r.Some? ==> r.value == Partition(elements, selectedIds, true) + Partition(elements, selectedIds, false)
  {
    if selectedIds == [] then None
    else
      PartitionIsSplit(elements, selectedIds);
      Some(Partition(elements, selectedIds, true) + Partition(elements, selectedIds, false))
  }

  /** After either move every selected element lies above (or below) every unselected one. */
  lemma FrontAndBackSeparate(elements: Scene, selectedIds: seq<Id>)
    requires selectedIds != []
    ensures var f := BringToFront(elements, selectedIds).value;
            forall i, j :: 0 <= i < j < |f| && f[i].id in selectedIds ==> f[j].id in selectedIds
    ensures var b := SendToBack(elements, selectedIds).value;
            forall i, j :: 0 <= i < j < |b| && b[j].id in selectedIds ==> b[i].id in selectedIds
  {
    var sel, uns := Partition(elements, selectedIds, true), Partition(elements, selectedIds, false);
    var f := uns + sel;
    forall i, j | 0 <= i < j < |f| && f[i].id in selectedIds
      ensures f[j].id in selectedIds
    {
      assert f[j] == sel[j - |uns|];
      assert f[j] in sel;
    }
    var b := sel + uns;
    forall i, j | 0 <= i < j < |b| && b[j].id in selectedIds
      ensures b[i].id in selectedIds
    {
      assert b[i] == sel[i];
      assert b[i] in sel;
    }
  }

  // ---- One-step moves: swaps --------------------------------------------------

  /** `selectedElementIds.map(id => elements.findIndex(...))`. */
  function Indices(els: Scene, ids: seq<Id>): (r: seq<int>)
    ensures |r| == |ids|
    ensures forall k :: 0 <= k < |ids| ==> r[k] == IndexById(els, ids[k])
  {
    if ids == [] then [] else [IndexById(els, ids[0])] + Indices(els, ids[1..])
  }

  /** Each entry is at most the next. */
  predicate Ascending(xs: seq<int>) {
    forall i :: 0 < i < |xs| ==> xs[i - 1] <= xs[i]
  }

  /** Each entry is at least the next. */
  predicate Descending(xs: seq<int>) {
    forall i :: 0 < i < |xs| ==> xs[i - 1] >= xs[i]
  }

  function Insert(x: int, xs: seq<int>): (r: seq<int>)
    requires Ascending(xs)
    ensures |r| == |xs| + 1 && r[0] == (if xs == [] || x <= xs[0] then x else xs[0])
    ensures Ascending(r) && multiset(r) == multiset(xs) + multiset{x}
  {
    if xs == [] || x <= xs[0] then [x] + xs
    else
      assert xs == [xs[0]] + xs[1..];
      var rest := Insert(x, xs[1..]);
      assert xs[0] <= rest[0];
      [xs[0]] + rest
  }

  /** `sort((a, b) => a - b)`. */
  function SortAscending(xs: seq<int>): (r: seq<int>)
    ensures Ascending(r) && multiset(r) == multiset(xs)
  {
    if xs == [] then []
    else
      assert xs == [xs[0]] + xs[1..];
      Insert(xs[0], SortAscending(xs[1..]))
  }

  function Reverse(xs: seq<int>): (r: seq<int>)
    ensures |r| == |xs| && forall i :: 0 <= i < |xs| ==> r[i] == xs[|xs| - 1 - i]
  {
    if xs == [] then [] else Reverse(xs[1..]) + [xs[0]]
  }

  /** `sort((a, b) => b - a)`. */
  function SortDescending(xs: seq<int>): (r: seq<int>)
    ensures Descending(r) && multiset(r) == multiset(xs)
  {
    var a := SortAscending(xs);
    var r := Reverse(a);
    assert multiset(r) == multiset(a) by {
      ReverseSameMultiset(a);
    }
    r
  }

  lemma {:induction false} ReverseSameMultiset(xs: seq<int>)
    ensures multiset(Reverse(xs)) == multiset(xs)
  {
    if xs != [] {
      ReverseSameMultiset(xs[1..]);
      assert xs == [xs[0]] + xs[1..];
    }
  }

  /** Exchange two positions. */
  function Swap(s: Scene, i: int, j: int): (r: Scene)
    requires 0 <= i < |s| && 0 <= j < |s|
    ensures |r| == |s| && r[i] == s[j] && r[j] == s[i]
    ensures forall k :: 0 <= k < |s| && k != i && k != j ==> r[k] == s[k]
    ensures multiset(r) == multiset(s)
  {
    s[i := s[j]][j := s[i]]
  }

  /**
   * One step of `bringForward`, corrected: an element that is not on top
   * trades places with the one above it, and a stale id's -1 is skipped.
   * The guard as written lets -1 through (`ForwardStepAsWritten`).
   */
  function ForwardStep(s: Scene, index: int): (r: Scene)
    ensures |r| == |s| && multiset(r) == multiset(s)
    ensures 0 <= index < |s| - 1 ==> r[index + 1] == s[index] && r[index] == s[index + 1] &&
                                     forall k :: 0 <= k < |s| && k != index && k != index + 1 ==> r[k] == s[k]
    ensures !(0 <= index < |s| - 1) ==> r == s
  {
    if 0 <= index < |s| - 1 then Swap(s, index, index + 1) else s
  }

  /** One step of `sendBackward`: an element that is not at the bottom trades places with the one below it. */
  function BackwardStep(s: Scene, index: int): (r: Scene)
    ensures |r| == |s| && multiset(r) == multiset(s)
    ensures 0 < index < |s| ==> r[index - 1] == s[index] && r[index] == s[index - 1] &&
                                forall k :: 0 <= k < |s| && k != index && k != index - 1 ==> r[k] == s[k]
    ensures !(0 < index < |s|) ==> r == s
  {
    if 0 < index < |s| then Swap(s, index, index - 1) else s
  }

  /** The corrected forward steps applied in the order given (as written: `ForwardStepsAsWritten`). */
  function ForwardSteps(s: Scene, indices: seq<int>): (r: Scene)
    ensures |r| == |s|
  {
    if indices == [] then s
    else ForwardStep(ForwardSteps(s, indices[..|indices| - 1]), indices[|indices| - 1])
  }

  function BackwardSteps(s: Scene, indices: seq<int>): (r: Scene)
    ensures |r| == |s|
  {
    if indices == [] then s
    else BackwardStep(BackwardSteps(s, indices[..|indices| - 1]), indices[|indices| - 1])
  }

  /**
   * Moving elements one place at a time never adds, drops or duplicates
   * one. For the forward steps this holds of the corrected step only.
   */
  lemma {:induction false} StepsArePermutations(s: Scene, indices: seq<int>)
    ensures multiset(ForwardSteps(s, indices)) == multiset(s)
    ensures multiset(BackwardSteps(s, indices)) == multiset(s)
  {
    if indices != [] {
      StepsArePermutations(s, indices[..|indices| - 1]);
    }
  }

  /** Every position looked up is -1 or a position of the scene, before and after sorting. */
  lemma IndicesInRange(els: Scene, ids: seq<Id>)
    ensures forall x :: x in SortAscending(Indices(els, ids)) ==> -1 <= x < |els|
  {
    var idx := Indices(els, ids);
    forall x | x in SortAscending(idx)
      ensures -1 <= x < |els|
    {
      assert x in multiset(SortAscending(idx));
      assert x in multiset(idx);
      IndexInRange(els, ids, x);
    }
  }

  lemma IndicesInRangeDescending(els: Scene, ids: seq<Id>)
    ensures forall x :: x in SortDescending(Indices(els, ids)) ==> -1 <= x < |els|
  {
    var idx := Indices(els, ids);
    forall x | x in SortDescending(idx)
      ensures -1 <= x < |els|
    {
      assert x in multiset(SortDescending(idx));
      assert x in multiset(idx);
      IndexInRange(els, ids, x);
    }
  }

  /** A looked-up position is -1 or a position of the scene. */
  lemma IndexInRange(els: Scene, ids: seq<Id>, x: int)
    requires x in multiset(Indices(els, ids))
    ensures -1 <= x < |els|
  {
    var idx := Indices(els, ids);
    assert x in idx;
    var k :| 0 <= k < |idx| && idx[k] == x;
  }

  /** Sorting a single index leaves it alone. */
  lemma SortOne(i: int)
    ensures SortAscending([i]) == [i] && SortDescending([i]) == [i]
  {
    assert [i][1..] == [];
    assert Insert(i, []) == [i];
    assert Reverse([i]) == [i];
  }

  /** Looking up one id gives its one position. */
  lemma IndicesOne(els: Scene, id: Id)
    ensures Indices(els, [id]) == [IndexById(els, id)]
  {
  }

  /** A single position gives a single step. */
  lemma StepsOne(s: Scene, i: int)
    ensures ForwardSteps(s, [i]) == ForwardStep(s, i)
    ensures BackwardSteps(s, [i]) == BackwardStep(s, i)
  {
    assert [i][..0] == [];
  }

  /** Exchange two positions of the array in place. */
  method SwapInPlace(a: array<Element>, i: int, j: int)
    requires 0 <= i < a.Length && 0 <= j < a.Length
    modifies a
    ensures a[..] == Swap(old(a[..]), i, j)
  {
    a[i], a[j] := a[j], a[i];
  }

  /** The steps over a longer prefix are one more step after the shorter prefix's. */
  lemma StepsSnoc(s: Scene, indices: seq<int>, k: nat)
    requires k < |indices|
    ensures ForwardSteps(s, indices[..k + 1]) == ForwardStep(ForwardSteps(s, indices[..k]), indices[k])
    ensures BackwardSteps(s, indices[..k + 1]) == BackwardStep(BackwardSteps(s, indices[..k]), indices[k])
  {
    assert indices[..k + 1][..k] == indices[..k];
  }

  /** One pass of `bringForward`'s loop: the element at `index`, unless on top, moves one place up. */
  method ForwardStepInPlace(a: array<Element>, index: int)
    modifies a
    ensures a[..] == ForwardStep(old(a[..]), index)
  {
    if 0 <= index < a.Length - 1 {
      SwapInPlace(a, index, index + 1);
    }
  }

  /** One pass of `sendBackward`'s loop: the element at `index`, unless at the bottom, moves one place down. */
  method BackwardStepInPlace(a: array<Element>, index: int)
    requires index < a.Length
    modifies a
    ensures a[..] == BackwardStep(old(a[..]), index)
  {
    if index > 0 {
      SwapInPlace(a, index, index - 1);
    }
  }

  /** The loop of `bringForward`, over positions that are -1 or in the array. */
  method ForwardInPlace(a: array<Element>, indices: seq<int>)
    requires forall x :: x in indices ==> -1 <= x < a.Length
    modifies a
    ensures a[..] == ForwardSteps(old(a[..]), indices)
  {
    ghost var start := a[..];
    var k := 0;
    assert indices[..0] == [];
    while k < |indices|
      invariant 0 <= k <= |indices|
      invariant a[..] == ForwardSteps(start, indices[..k])
    {
      var index := indices[k];
      StepsSnoc(start, indices, k);
      ForwardStepInPlace(a, index);
      k := k + 1;
    }
    assert indices[..k] == indices;
  }

  /** The loop of `sendBackward`, over positions that are -1 or in the array. */
  method BackwardInPlace(a: array<Element>, indices: seq<int>)
    requires forall x :: x in indices ==> -1 <= x < a.Length
    modifies a
    ensures a[..] == BackwardSteps(old(a[..]), indices)
  {
    ghost var start := a[..];
    var k := 0;
    assert indices[..0] == [];
    while k < |indices|
      invariant 0 <= k <= |indices|
      invariant a[..] == BackwardSteps(start, indices[..k])
    {
      var index := indices[k];
      assert index in indices;
      StepsSnoc(start, indices, k);
      BackwardStepInPlace(a, index);
      k := k + 1;
    }
    assert indices[..k] == indices;
  }

  /**
   * `bringForward`, corrected: visit the selected elements' positions from
   * the top down, moving each one place up in a copy of the scene, with a
   * stale id's -1 skipped (as written: `BringForwardAsWritten`).
   */
  method BringForward(elements: Scene, selectedIds: seq<Id>) returns (r: Option<Scene>)
    ensures selectedIds == [] <==> r.None?
    ensures r.Some? ==> r.value == ForwardSteps(elements, SortDescending(Indices(elements, selectedIds)))
    ensures r.Some? ==> multiset(r.value) == multiset(elements)
  {
    if |selectedIds| == 0 {
      return None;
    }
    var newElements := new Element[|elements|](i requires 0 <= i < |elements| => elements[i]);
    assert newElements[..] == elements;
    var selectedIndices := SortDescending(Indices(elements, selectedIds));
    IndicesInRangeDescending(elements, selectedIds);
    ForwardInPlace(newElements, selectedIndices);
    StepsArePermutations(elements, selectedIndices);
    return Some(newElements[..]);
  }

  /**
   * `sendBackward`: visit the selected elements' positions from the bottom
   * up, moving each one place down in a copy of the scene.
   */
  method SendBackward(elements: Scene, selectedIds: seq<Id>) returns (r: Option<Scene>)
    ensures selectedIds == [] <==> r.None?
    ensures r.Some? ==> r.value == BackwardSteps(elements, SortAscending(Indices(elements, selectedIds)))
    ensures r.Some? ==> multiset(r.value) == multiset(elements)
  {
    if |selectedIds| == 0 {
      return None;
    }
    var newElements := new Element[|elements|](i requires 0 <= i < |elements| => elements[i]);
    assert newElements[..] == elements;
    var selectedIndices := SortAscending(Indices(elements, selectedIds));
    IndicesInRange(elements, selectedIds);
    BackwardInPlace(newElements, selectedIndices);
    StepsArePermutations(elements, selectedIndices);
    return Some(newElements[..]);
  }

  /**
   * With one element selected, the corrected `bringForward` trades it with
   * the element just above; the top element stays where it is.
   */
  lemma ForwardOne(elements: Scene, id: Id)
    requires 0 <= IndexById(elements, id)
    ensures var i := IndexById(elements, id);
            var r := ForwardSteps(elements, SortDescending(Indices(elements, [id])));
            (i < |elements| - 1 ==> r == Swap(elements, i, i + 1)) &&
            (i == |elements| - 1 ==> r == elements)
  {
    var i := IndexById(elements, id);
    IndicesOne(elements, id);
    SortOne(i);
    StepsOne(elements, i);
  }

  /**
   * With one element selected, sending it backward trades it with the
   * element just below; the bottom element stays where it is.
   */
  lemma BackwardOne(elements: Scene, id: Id)
    requires 0 <= IndexById(elements, id)
    ensures var i := IndexById(elements, id);
            var r := BackwardSteps(elements, SortAscending(Indices(elements, [id])));
            (i > 0 ==> r == Swap(elements, i, i - 1)) &&
            (i == 0 ==> r == elements)
  {
    var i := IndexById(elements, id);
    IndicesOne(elements, id);
    SortOne(i);
    StepsOne(elements, i);
  }

  // ---- The stale-id case as written ---------------------------------------------

  /**
   * The JavaScript array of `bringForward` as written: the positions, plus
   * the property that `newElements[-1] = ...` creates beside them.
   */
  datatype LooseArray = LooseArray(slots: seq<Option<Element>>, minusOne: Option<Element>)

  /**
   * One step of `bringForward` as written: the guard `index < length - 1`
   * lets -1, the index of an id not in the scene, through, and the swap
   * then reads and writes the property -1 and position 0.
   */
  function ForwardStepAsWritten(a: LooseArray, index: int): (r: LooseArray)
    ensures |r.slots| == |a.slots|
  {
    if index < |a.slots| - 1 then
      if index == -1 then LooseArray(a.slots[0 := a.minusOne], a.slots[0])
      else if 0 <= index then LooseArray(a.slots[index := a.slots[index + 1]][index + 1 := a.slots[index]], a.minusOne)
      else a
    else a
  }

  function ForwardStepsAsWritten(a: LooseArray, indices: seq<int>): (r: LooseArray)
    ensures |r.slots| == |a.slots|
  {
    if indices == [] then a
    else ForwardStepAsWritten(ForwardStepsAsWritten(a, indices[..|indices| - 1]), indices[|indices| - 1])
  }

  function Loose(s: Scene): (a: LooseArray)
    ensures |a.slots| == |s| && a.minusOne.None?
    ensures forall i :: 0 <= i < |s| ==> a.slots[i] == Some(s[i])
  {
    LooseArray(seq(|s|, i requires 0 <= i < |s| => Some(s[i])), None)
  }

  /** A single position gives a single step, as written. */
  lemma StepsAsWrittenOne(a: LooseArray, i: int)
    ensures ForwardStepsAsWritten(a, [i]) == ForwardStepAsWritten(a, i)
  {
    assert [i][..0] == [];
  }

  /** `bringForward` as written, on the scene with one selected id that is not in it. */
  function BringForwardAsWritten(elements: Scene, selectedIds: seq<Id>): (r: seq<Option<Element>>)
    ensures |r| == |elements|
  {
    ForwardStepsAsWritten(Loose(elements), SortDescending(Indices(elements, selectedIds))).slots
  }

  /**
   * A selection holding an id that is not in the scene (here 7 in a
   * two-element scene) empties the bottom position: the element there is
   * lost and an `undefined` takes its place.
   */
  lemma StaleIdLosesBottomElement(a: Element, b: Element)
    requires a.id == 1 && b.id == 2
    ensures BringForwardAsWritten([a, b], [7]) == [None, Some(b)]
  {
    assert IndexById([a, b], 7) == -1;
    IndicesOne([a, b], 7);
    SortOne(-1);
    var start := Loose([a, b]);
    assert start.slots == [Some(a), Some(b)];
    StepsAsWrittenOne(start, -1);
    assert ForwardStepAsWritten(start, -1) == LooseArray([None, Some(b)], Some(a));
  }

  /** The corrected step skips -1; then stale ids change nothing and the order stays a permutation. */
  lemma StaleIdIgnored(elements: Scene, id: Id)
    requires IndexById(elements, id) == -1
    ensures ForwardSteps(elements, SortDescending(Indices(elements, [id]))) == elements
  {
    IndicesOne(elements, id);
    SortOne(-1);
    StepsOne(elements, -1);
  }
}
