/**
 * `haveElementsChanged`: the test that decides whether a finished gesture
 * is worth an undo step. It compares two scenes element by element, each
 * element of the first against the first element of the second with the
 * same id, on position, size, rotation and radius only.
 */
module ChangeDetection {
  import opened Model

  /** The six properties the test compares. */
  predicate SameGeometry(a: Element, b: Element) {
    a.x == b.x && a.y == b.y && a.width == b.width && a.height == b.height &&
    a.rotation == b.rotation && a.radius == b.radius
  }

  /** `a` has no partner in `b`, or differs from it in a compared property. */
  predicate ElementChanged(a: Element, b: Scene) {
    var m := FindById(b, a.id);
    m.None? || !SameGeometry(a, m.value)
  }

  /** What the test reports: a length difference, or some element that changed. */
  predicate ElementsChanged(a: Scene, b: Scene): (changed: bool)
    ensures |a| != |b| ==> changed
    ensures a == [] && b == [] ==> !changed
  {
    |a| != |b| || exists i :: 0 <= i < |a| && ElementChanged(a[i], b)
  }

  /**
   * The index loop with early returns, as written both in
   * `src/utils/history.js` and in `src/utils/helpers.js`.
   */
  method HaveElementsChanged(elementsA: Scene, elementsB: Scene) returns (changed: bool)
    ensures changed == ElementsChanged(elementsA, elementsB)
  {
    if |elementsA| != |elementsB| {
      return true;
    }
    var i := 0;
    while i < |elementsA|
      invariant 0 <= i <= |elementsA|
      invariant forall j :: 0 <= j < i ==> !ElementChanged(elementsA[j], elementsB)
    {
      var elA := elementsA[i];
      var elB := FindById(elementsB, elA.id);
      if elB.None? {
        return true;
      }
      if !SameGeometry(elA, elB.value) {
        return true;
      }
      i := i + 1;
    }
    return false;
  }

  /** A scene compared with itself has not changed, provided its ids are unique. */
  lemma UnchangedAgainstItself(a: Scene)
    requires UniqueIds(a)
    ensures !ElementsChanged(a, a)
  {
    forall i | 0 <= i < |a|
      ensures !ElementChanged(a[i], a)
    {
      FindByIdUnique(a, i);
    }
  }

  /** The lookup by id only sees the ids. */
  lemma {:induction false} IndexByIdOnlyIds(b: Scene, b2: Scene, id: Id)
    requires Ids(b) == Ids(b2)
    ensures IndexById(b, id) == IndexById(b2, id)
  {
    if b != [] {
      assert b[0].id == Ids(b)[0] == Ids(b2)[0] == b2[0].id;
      assert Ids(b[1..]) == Ids(b)[1..] && Ids(b2[1..]) == Ids(b2)[1..];
      IndexByIdOnlyIds(b[1..], b2[1..], id);
    }
  }

  /**
   * Two scenes that agree element by element on ids and the six compared
   * properties are interchangeable on either side of the test: radii on
   * one axis, parents, fills and every other field are not looked at.
   */
  lemma OnlyGeometryCounts(a: Scene, a2: Scene, b: Scene, b2: Scene)
    requires |a| == |a2| && forall i :: 0 <= i < |a| ==> a2[i].id == a[i].id && SameGeometry(a[i], a2[i])
    requires |b| == |b2| && forall i :: 0 <= i < |b| ==> b2[i].id == b[i].id && SameGeometry(b[i], b2[i])
    ensures ElementsChanged(a, b) == ElementsChanged(a2, b2)
  {
    assert Ids(b) == Ids(b2);
    forall i | 0 <= i < |a|
      ensures ElementChanged(a[i], b) == ElementChanged(a2[i], b2)
    {
      IndexByIdOnlyIds(b, b2, a[i].id);
    }
  }

  /** With unique ids, the lookup in a reordered scene finds the same element. */
  lemma FindByIdReordered(b: Scene, b2: Scene, id: Id)
    requires UniqueIds(b) && UniqueIds(b2) && multiset(b) == multiset(b2)
    ensures FindById(b, id) == FindById(b2, id)
  {
    var m := FindById(b, id);
    var m2 := FindById(b2, id);
    if m.Some? {
      assert m.value in multiset(b2);
      var q :| 0 <= q < |b2| && b2[q] == m.value;
      FindByIdUnique(b2, q);
    }
    if m2.Some? {
      assert m2.value in multiset(b);
      var p :| 0 <= p < |b| && b[p] == m2.value;
      FindByIdUnique(b, p);
    }
  }

  /** The order of the second scene does not matter, provided its ids are unique. */
  lemma OrderOfSecondIrrelevant(a: Scene, b: Scene, b2: Scene)
    requires UniqueIds(b) && UniqueIds(b2) && multiset(b) == multiset(b2)
    ensures ElementsChanged(a, b) == ElementsChanged(a, b2)
  {
    assert |b| == |multiset(b)| == |multiset(b2)| == |b2|;
    forall i | 0 <= i < |a|
      ensures ElementChanged(a[i], b) == ElementChanged(a[i], b2)
    {
      FindByIdReordered(b, b2, a[i].id);
    }
  }
}
