/**
 * The transform panel's angle fields (`TransformPanel`): the rotation and
 * shear of the first selected element shown in whole degrees, and typed
 * degrees clamped and written back in radians. The text typed is taken
 * here as what `parseInt` made of it, None standing for NaN.
 */
module TransformPanel {
  import opened Model
  import Transformations

  /** JavaScript's truncation toward zero. */
  function Trunc(x: real): (r: int)
    ensures x >= 0.0 ==> r as real <= x < r as real + 1.0
    ensures x < 0.0 ==> r as real - 1.0 < x <= r as real
  {
    if x >= 0.0 then x.Floor else -((-x).Floor)
  }

  /** `a % 360` in JavaScript: the remainder has the dividend's sign and is smaller than a turn. */
  function Remainder360(a: real): (r: real)
    ensures a >= 0.0 ==> 0.0 <= r < 360.0
    ensures a < 0.0 ==> -360.0 < r <= 0.0
    ensures WholeTurns(a - r)
  {
    var q := a / 360.0;
    var k := Trunc(q);
    assert a == 360.0 * q;
    WholeTurnsOf(k);
    a - 360.0 * k as real
  }

  /** `k` turns is a whole number of turns. */
  lemma WholeTurnsOf(k: int)
    ensures WholeTurns(360.0 * k as real)
  {
    assert (360.0 * k as real) / 360.0 == k as real;
  }

  /** Whether `x` degrees is a whole number of turns. */
  predicate WholeTurns(x: real) {
    (x / 360.0).Floor as real == x / 360.0
  }

  /** Adding or removing a turn keeps a whole number of turns. */
  lemma WholeTurnsShift(x: real)
    requires WholeTurns(x)
    ensures WholeTurns(x + 360.0) && WholeTurns(x - 360.0)
  {
    var k := (x / 360.0).Floor;
    assert (x + 360.0) / 360.0 == k as real + 1.0;
    assert (x - 360.0) / 360.0 == k as real - 1.0;
  }

  /** The displayed angle before rounding: the same direction, brought into (-180, 180]. */
  function NormalizedDegrees(deg: real): (r: real)
    ensures -180.0 < r <= 180.0
    ensures WholeTurns(deg - r)
  {
    var normalizedAngle := Remainder360(deg);
    WholeTurnsShift(deg - normalizedAngle);
    if normalizedAngle > 180.0 then normalizedAngle - 360.0
    else if normalizedAngle <= -180.0 then normalizedAngle + 360.0
    else normalizedAngle
  }

  /** Two angles in (-180, 180] a whole number of turns apart are equal. */
  lemma HalfOpenTurnUnique(a: real, b: real)
    requires -180.0 < a <= 180.0 && -180.0 < b <= 180.0 && WholeTurns(a - b)
    ensures a == b
  {
    var k := ((a - b) / 360.0).Floor;
    assert -1.0 < (a - b) / 360.0 < 1.0;
    assert k == 0;
  }

  /** An angle already in (-180, 180] is shown as it is, and normalising twice is normalising once. */
  lemma NormalizedDegreesFixesRange(deg: real)
    ensures -180.0 < deg <= 180.0 ==> NormalizedDegrees(deg) == deg
    ensures NormalizedDegrees(NormalizedDegrees(deg)) == NormalizedDegrees(deg)
  {
    if -180.0 < deg <= 180.0 {
      HalfOpenTurnUnique(NormalizedDegrees(deg), deg);
      assert WholeTurns(NormalizedDegrees(deg) - deg) by {
        var x := deg - NormalizedDegrees(deg);
        assert (-x) / 360.0 == -(x / 360.0);
      }
    }
    var n := NormalizedDegrees(deg);
    HalfOpenTurnUnique(NormalizedDegrees(n), n);
    assert WholeTurns(NormalizedDegrees(n) - n) by {
      var x := n - NormalizedDegrees(n);
      assert (-x) / 360.0 == -(x / 360.0);
    }
  }

  function RadiansToDegrees(a: real): (r: real)
    ensures DegreesToRadians(r) == a
  {
    a * (180.0 / Pi)
  }

  function DegreesToRadians(d: real): (r: real)
    ensures r * (180.0 / Pi) == d
  {
    d * (Pi / 180.0)
  }

  lemma DegreesRoundTrip(d: real)
    ensures RadiansToDegrees(DegreesToRadians(d)) == d
  {
    assert (Pi / 180.0) * (180.0 / Pi) == 1.0;
  }

  /** The first selected element as the panel reads it: its id, and rotation and shear in radians. */
  datatype Selected = Selected(id: Id, rotation: Option<real>, shear: Option<real>)

  /** The two fields' displayed values. */
  datatype Display = Display(rotationAngle: int, shearValue: int)

  /**
   * The effect on the selected element: no element shows zeros; otherwise
   * the rotation shows as the nearest whole degree of its normalised angle
   * and the shear as the nearest whole degree.
   */
  function DisplayFor(element: Option<Selected>): (d: Display)
    ensures element.None? ==> d == Display(0, 0)
    ensures element.Some? ==> -180 <= d.rotationAngle <= 180
    ensures element.Some? ==>
              var deg := NormalizedDegrees(RadiansToDegrees(Or(element.value.rotation, 0.0)));
              deg - 0.5 < d.rotationAngle as real <= deg + 0.5
    ensures element.Some? ==>
              var deg := RadiansToDegrees(Or(element.value.shear, 0.0));
              deg - 0.5 < d.shearValue as real <= deg + 0.5
  {
    if element.None? then Display(0, 0)
    else
      var angleInDegrees := RadiansToDegrees(Or(element.value.rotation, 0.0));
      var shearInDegrees := RadiansToDegrees(Or(element.value.shear, 0.0));
      Display(Transformations.Round(NormalizedDegrees(angleInDegrees)), Transformations.Round(shearInDegrees))
  }

  /** The largest magnitude, in degrees, the rotation and shear fields accept. */
  const MaxInputDegrees: int := 150

  /** The typed value made safe: NaN becomes 0, then it is clamped to [-150, 150]. */
  function ClampInput(parsed: Option<int>): (r: int)
    ensures -MaxInputDegrees <= r <= MaxInputDegrees
    ensures parsed.None? ==> r == 0
    ensures parsed.Some? && -MaxInputDegrees <= parsed.value <= MaxInputDegrees ==> r == parsed.value
    ensures parsed.Some? && parsed.value > MaxInputDegrees ==> r == MaxInputDegrees
    ensures parsed.Some? && parsed.value < -MaxInputDegrees ==> r == -MaxInputDegrees
  {
    var angle := if parsed.None? then 0 else parsed.value;
    if angle > MaxInputDegrees then MaxInputDegrees
    else if angle < -MaxInputDegrees then -MaxInputDegrees
    else angle
  }

  /** Which property an angle field writes. */
  datatype AngleField = RotationField | ShearField

  /** The `updateElementProperties` call a field makes. */
  datatype Update = Update(id: Id, field: AngleField, radians: real)

  /** What an angle field's change handler does: the value it shows and the update it sends. */
  datatype InputEffect = InputEffect(displayed: int, update: Option<Update>)

  /**
   * `handleRotationChange` and `handleShearChange`: both show the clamped
   * degrees, and, when an element is selected, write them in radians.
   */
  function AngleInputChange(field: AngleField, element: Option<Selected>, parsed: Option<int>): (e: InputEffect)
    ensures e.displayed == ClampInput(parsed)
    ensures e.update.None? <==> element.None?
    ensures e.update.Some? ==>
              e.update.value.id == element.value.id && e.update.value.field == field &&
              RadiansToDegrees(e.update.value.radians) == e.displayed as real
  {
    var clamped := ClampInput(parsed);
    DegreesRoundTrip(clamped as real);
    InputEffect(clamped, if element.Some? then Some(Update(element.value.id, field, DegreesToRadians(clamped as real))) else None)
  }

  /**
   * Typing a rotation and reading it back: once the element holds the
   * written radians, the field shows exactly the clamped degrees typed.
   */
  lemma RotationInputRoundTrip(element: Selected, parsed: Option<int>)
    ensures var e := AngleInputChange(RotationField, Some(element), parsed);
            DisplayFor(Some(element.(rotation := Some(e.update.value.radians)))).rotationAngle == e.displayed
  {
    var e := AngleInputChange(RotationField, Some(element), parsed);
    var c := e.displayed;
    var rad := e.update.value.radians;
    assert RadiansToDegrees(Or(Some(rad), 0.0)) == c as real by {
      if rad == 0.0 {
        assert RadiansToDegrees(rad) == 0.0;
      }
    }
    NormalizedDegreesFixesRange(c as real);
  }

  /** `handlePropertyChange`: the number typed, or 0 for NaN and 0, written to the selected element. */
  function PropertyChange(element: Option<Selected>, prop: string, parsed: Option<real>): (u: Option<(Id, string, real)>)
    ensures u.None? <==> element.None?
    ensures u.Some? ==> u.value.0 == element.value.id && u.value.1 == prop
    ensures u.Some? && parsed.None? ==> u.value.2 == 0.0
    ensures u.Some? && parsed.Some? ==> u.value.2 == parsed.value
  {
    if element.Some? then Some((element.value.id, prop, Or(parsed, 0.0))) else None
  }
}
