/**
 * The vocabulary every other module shares: points, axis-aligned boxes,
 * the scene element record, and the transcendental functions the editor's
 * geometry reads from the host (Math.cos, Math.sin, Math.atan2, Math.sqrt).
 *
 * Coordinates are reals. A scene element is a JavaScript object whose
 * numeric properties may be absent; the record keeps each such property
 * as an Option so that the source's `a || b` defaults and `!== undefined`
 * tests can be written out exactly.
 */
module Model {

  datatype Option<T> = None | Some(value: T)

  datatype Result<T> = Success(value: T) | Failure(error: string)

  /** Element ids: uuid strings, timestamps or small literals in the editor. */
  type Id = int

  /** The canvas zoom factor. The wheel handler clamps it to 0.1 or more. */
  type Scale = s: real | s > 0.0 witness 1.0

  datatype Point = Point(x: real, y: real)

  const Origin: Point := Point(0.0, 0.0)

  /** An axis-aligned box `{x, y, width, height}`. */
  datatype Box = Box(x: real, y: real, width: real, height: real)

  const ZeroBox: Box := Box(0.0, 0.0, 0.0, 0.0)

  /**
   * The `type` tag of an element. `Group` is the tag of a selection box that
   * spans several elements; `Other` stands for every tag the editor never
   * creates (the geometry's `'rectangle'` and `'ellipse'` cases among them).
   */
  datatype Kind = Rect | Circle | Text | Artboard | Group | Other

  /** One run of rich text: its characters and its style overrides. */
  datatype Span = Span(text: string, styles: map<string, string>)

  /** The properties that only some element kinds carry. */
  datatype Details =
    | Plain
    | TextDetails(content: seq<Span>, fontSize: real, fontFamily: string,
                  fontWeight: string, fontStyle: string, textDecoration: string,
                  textAlign: string, letterSpacing: real, baselineShift: real,
                  textCase: string)
    | ArtboardDetails(title: string, backgroundColor: string, children: seq<Id>)

  /**
   * A scene element. `x`/`y` is the top-left corner for boxes and the centre
   * for circles. A group selection box is an Element of kind `Group` whose
   * `id` is never read.
   */
  datatype Element = Element(
    id: Id,
    kind: Kind,
    x: real,
    y: real,
    width: Option<real>,
    height: Option<real>,
    rotation: Option<real>,
    radius: Option<real>,
    radiusX: Option<real>,
    radiusY: Option<real>,
    parentId: Option<Id>,
    fill: Option<string>,
    visible: Option<bool>,
    locked: Option<bool>,
    details: Details)

  /** The scene: elements in paint order, the last one on top. */
  type Scene = seq<Element>

  /**
   * The host's transcendental functions. Nothing about them is assumed;
   * the lemmas that need an identity ask for it at the angle they use.
   */
  datatype Trig = Trig(
    cos: real -> real,
    sin: real -> real,
    atan2: (real, real) -> real,
    sqrt: real -> real)
  {
    /** cos is even, sin is odd and cos² + sin² = 1 at angle `a`. */
    ghost predicate IdentitiesAt(a: real) {
      cos(-a) == cos(a) && sin(-a) == -sin(a) && cos(a) * cos(a) + sin(a) * sin(a) == 1.0
    }

    /** cos 0 = 1 and sin 0 = 0. */
    ghost predicate ZeroAngle() {
      cos(0.0) == 1.0 && sin(0.0) == 0.0
    }
  }

  /** Math.PI, written as the shortest decimal of the double. */
  const Pi: real := 3.141592653589793

  // ---- JavaScript value conventions -------------------------------------

  /** A numeric property read where absence does not matter: absent reads as 0. */
  function Num(o: Option<real>): (r: real)
    ensures o.None? ==> r == 0.0
    ensures o.Some? ==> r == o.value
  {
    if o.Some? then o.value else 0.0
  }

  /** `o || fallback` on a number: absent and 0 are falsy. */
  function Or(o: Option<real>, fallback: real): (r: real)
    ensures r == fallback || (o.Some? && r == o.value && r != 0.0)
    ensures o.Some? && o.value != 0.0 ==> r == o.value
  {
    if o.Some? && o.value != 0.0 then o.value else fallback
  }

  /** `s || fallback` on a string: absent and the empty string are falsy. */
  function OrText(o: Option<string>, fallback: string): (r: string)
    ensures r == fallback || (o.Some? && r == o.value && r != "")
  {
    if o.Some? && o.value != "" then o.value else fallback
  }

  /** `element.rotation || 0`. */
  function Rotation(e: Element): (r: real)
    ensures r == Num(e.rotation)
  {
    Or(e.rotation, 0.0)
  }

  /** `element.radiusX || element.radius`. */
  function RadiusX(e: Element): real {
    Or(e.radiusX, Num(e.radius))
  }

  /** `element.radiusY || element.radius`. */
  function RadiusY(e: Element): real {
    Or(e.radiusY, Num(e.radius))
  }

  /** `{x, y, width, height}` read off an element; absent sizes read as 0. */
  function BoxOf(e: Element): (b: Box)
    ensures b.x == e.x && b.y == e.y && b.width == Num(e.width) && b.height == Num(e.height)
  {
    Box(e.x, e.y, Num(e.width), Num(e.height))
  }

  /**
   * What every per-move interaction handler hands back: the new scene and,
   * when the handler moves one, the new selection box.
   */
  datatype HandlerResult = HandlerResult(updatedElements: Scene, newBoundingBox: Option<Element>)

  function Abs(a: real): (r: real)
    ensures r >= 0.0 && (r == a || r == -a)
  {
    if a < 0.0 then -a else a
  }

  function Min(a: real, b: real): (r: real)
    ensures r <= a && r <= b && (r == a || r == b)
  {
    if a <= b then a else b
  }

  function Max(a: real, b: real): (r: real)
    ensures r >= a && r >= b && (r == a || r == b)
  {
    if a >= b then a else b
  }

  // ---- Lookups by id -----------------------------------------------------

  function Ids(s: Scene): (r: seq<Id>)
    ensures |r| == |s|
    ensures forall i :: 0 <= i < |s| ==> r[i] == s[i].id
  {
    if s == [] then [] else [s[0].id] + Ids(s[1..])
  }

  /** `s.findIndex(el => el.id === id)`: the first index carrying the id, or -1. */
  function IndexById(s: Scene, id: Id): (r: int)
    ensures -1 <= r < |s|
    ensures r >= 0 ==> s[r].id == id && forall j :: 0 <= j < r ==> s[j].id != id
    ensures r == -1 <==> forall j :: 0 <= j < |s| ==> s[j].id != id
  {
    if s == [] then -1
    else if s[0].id == id then 0
    else
      var k := IndexById(s[1..], id);
      if k == -1 then -1 else k + 1
  }

  /** `s.find(el => el.id === id)`: the first element carrying the id. */
  function FindById(s: Scene, id: Id): (r: Option<Element>)
    ensures r.None? <==> forall i :: 0 <= i < |s| ==> s[i].id != id
    ensures r.Some? ==> r.value.id == id && r.value in s
  {
    var k := IndexById(s, id);
    if k == -1 then None else Some(s[k])
  }

  /** Every element of the scene carries a different id. */
  ghost predicate UniqueIds(s: Scene) {
    forall i, j :: 0 <= i < j < |s| ==> s[i].id != s[j].id
  }

  /** With unique ids, the lookup finds exactly the element carrying the id. */
  lemma FindByIdUnique(s: Scene, i: int)
    requires UniqueIds(s) && 0 <= i < |s|
    ensures FindById(s, s[i].id) == Some(s[i])
  {
  }

  /** `els.map(el => el.id === id ? updated : el)`. */
  function ReplaceById(els: Scene, id: Id, updated: Element): (r: Scene)
    ensures |r| == |els|
    ensures forall i :: 0 <= i < |els| ==> r[i] == if els[i].id == id then updated else els[i]
  {
    if els == [] then [] else [if els[0].id == id then updated else els[0]] + ReplaceById(els[1..], id, updated)
  }

  // ---- Filters by id ----------------------------------------------------

  /** `elements.filter(el => ids.includes(el.id) == keep)`. */
  function Partition(els: Scene, ids: seq<Id>, keep: bool): (r: Scene)
    ensures forall e :: e in r <==> e in els && (e.id in ids) == keep
    ensures |r| <= |els|
  {
    if els == [] then []
    else (if (els[0].id in ids) == keep then [els[0]] else []) + Partition(els[1..], ids, keep)
  }

  /**
   * Filtering keeps scene order: the filtered scene is the filtered first
   * part followed by the filtered rest.
   */
  lemma {:induction false} PartitionAppend(a: Scene, b: Scene, ids: seq<Id>, keep: bool)
    ensures Partition(a + b, ids, keep) == Partition(a, ids, keep) + Partition(b, ids, keep)
  {
    if a != [] {
      assert (a + b)[0] == a[0];
      assert (a + b)[1..] == a[1..] + b;
      PartitionAppend(a[1..], b, ids, keep);
    } else {
      assert a + b == b;
    }
  }

  /** The first element the filter keeps is the scene's first element that passes it. */
  lemma {:induction false} PartitionHead(els: Scene, ids: seq<Id>, keep: bool)
    requires Partition(els, ids, keep) != []
    ensures exists i :: 0 <= i < |els| && els[i] == Partition(els, ids, keep)[0] && (els[i].id in ids) == keep &&
                        forall j :: 0 <= j < i ==> (els[j].id in ids) != keep
  {
    if (els[0].id in ids) != keep {
      PartitionHead(els[1..], ids, keep);
      var i :| 0 <= i < |els[1..]| && els[1..][i] == Partition(els[1..], ids, keep)[0] && (els[1..][i].id in ids) == keep &&
                forall j :: 0 <= j < i ==> (els[1..][j].id in ids) != keep;
      assert els[i + 1] == Partition(els, ids, keep)[0];
      assert forall j :: 0 <= j < i + 1 ==> (els[j].id in ids) != keep by {
        forall j | 0 <= j < i + 1 ensures (els[j].id in ids) != keep {
          if j > 0 { assert els[j] == els[1..][j - 1]; }
        }
      }
    }
  }

  /** The selected and the unselected elements together are the scene, counted with repetition. */
  lemma {:induction false} PartitionIsSplit(els: Scene, ids: seq<Id>)
    ensures multiset(Partition(els, ids, true)) + multiset(Partition(els, ids, false)) == multiset(els)
  {
    if els != [] {
      PartitionIsSplit(els[1..], ids);
      var h, rest := [els[0]], els[1..];
      assert multiset(els) == multiset(h) + multiset(rest) by {
        assert els == h + rest;
      }
      var yes, no := Partition(rest, ids, true), Partition(rest, ids, false);
      assert multiset(Partition(els, ids, true)) + multiset(Partition(els, ids, false)) == multiset(h) + multiset(yes) + multiset(no) by {
        if els[0].id in ids {
          assert Partition(els, ids, true) == h + yes && Partition(els, ids, false) == no;
        } else {
          assert Partition(els, ids, true) == yes && Partition(els, ids, false) == h + no;
        }
      }
    }
  }

  /** Filtering a scene with unique ids keeps its ids unique. */
  lemma {:induction false} PartitionUnique(els: Scene, ids: seq<Id>, keep: bool)
    requires UniqueIds(els)
    ensures UniqueIds(Partition(els, ids, keep))
  {
    if els != [] {
      PartitionUnique(els[1..], ids, keep);
      var rest := Partition(els[1..], ids, keep);
      forall e | e in rest
        ensures e.id != els[0].id
      {
        var k :| 0 <= k < |els[1..]| && els[1..][k] == e;
        assert els[k + 1] == e;
      }
    }
  }

  /** The filter only sees, for each element, whether its id is listed. */
  lemma {:induction false} PartitionSameMembership(els: Scene, ids: seq<Id>, ids2: seq<Id>, keep: bool)
    requires forall e :: e in els ==> (e.id in ids <==> e.id in ids2)
    ensures Partition(els, ids, keep) == Partition(els, ids2, keep)
  {
    if els != [] {
      assert forall e :: e in els[1..] ==> e in els;
      PartitionSameMembership(els[1..], ids, ids2, keep);
    }
  }

  /**
   * With unique ids, filtering by the ids of the selected elements gives
   * back the selected elements.
   */
  lemma PartitionByOwnIds(els: Scene, ids: seq<Id>)
    requires UniqueIds(els)
    ensures Partition(els, Ids(Partition(els, ids, true)), true) == Partition(els, ids, true)
  {
    var s := Partition(els, ids, true);
    forall e | e in els
      ensures e.id in Ids(s) <==> e.id in ids
    {
      if e.id in Ids(s) {
        var k :| 0 <= k < |s| && Ids(s)[k] == e.id;
        assert s[k] in els && s[k].id in ids;
        var p :| 0 <= p < |els| && els[p] == s[k];
        var q :| 0 <= q < |els| && els[q] == e;
        assert p == q;
      }
      if e.id in ids {
        assert e in s;
        var k :| 0 <= k < |s| && s[k] == e;
        assert Ids(s)[k] == e.id;
      }
    }
    PartitionSameMembership(els, Ids(s), ids, true);
  }

  /** With unique ids, filtering by one element's id gives that element alone. */
  lemma {:induction false} PartitionByOneId(els: Scene, e: Element)
    requires UniqueIds(els) && e in els
    ensures Partition(els, [e.id], true) == [e]
  {
    if els[0] == e {
      forall x | x in els[1..]
        ensures x.id != e.id
      {
        var k :| 0 <= k < |els[1..]| && els[1..][k] == x;
        assert els[k + 1] == x;
      }
      NoneListed(els[1..], [e.id]);
    } else {
      var k :| 0 <= k < |els| && els[k] == e;
      assert els[0].id != e.id;
      assert e in els[1..] by { assert els[1..][k - 1] == e; }
      PartitionByOneId(els[1..], e);
    }
  }

  /** Keeping the listed ids of a scene that has none of them keeps nothing. */
  lemma {:induction false} NoneListed(els: Scene, ids: seq<Id>)
    requires forall x :: x in els ==> x.id !in ids
    ensures Partition(els, ids, true) == []
  {
    if els != [] {
      assert els[0] in els;
      NoneListed(els[1..], ids);
    }
  }
}
