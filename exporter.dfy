/**
 * The exporter's pure part: which elements belong to an artboard, and the
 * hex colour parser the SVG writer uses for fills. The parser's result is
 * kept as its four numbers; the `rgba(...)` text it is printed into is not
 * modelled.
 */
module Exporter {
  import opened Model

  // ---- getArtboardContent ------------------------------------------------------

  /** `getArtboardContent`: the elements whose parent is the artboard, in scene order. */
  function ArtboardContent(elements: Scene, artboard: Element): (r: Scene)
    ensures |r| <= |elements|
    ensures forall e :: e in r <==> e in elements && e.parentId == Some(artboard.id)
  {
    if elements == [] then []
    else (if elements[0].parentId == Some(artboard.id) then [elements[0]] else []) + ArtboardContent(elements[1..], artboard)
  }

  /** The content of a split scene is the content of its parts, in order: the filter keeps scene order. */
  lemma {:induction false} ArtboardContentSplits(a: Scene, b: Scene, artboard: Element)
    ensures ArtboardContent(a + b, artboard) == ArtboardContent(a, artboard) + ArtboardContent(b, artboard)
  {
    if a == [] {
      assert a + b == b;
    } else {
      assert (a + b)[0] == a[0];
      assert (a + b)[1..] == a[1..] + b;
      ArtboardContentSplits(a[1..], b, artboard);
    }
  }

  // ---- hexToRgba ---------------------------------------------------------------------

  /** The colour channels and the opacity `hexToRgba` prints. */
  datatype Rgba = Rgba(r: int, g: int, b: int, opacity: real)

  predicate IsHexDigit(c: char) {
    ('0' <= c <= '9') || ('a' <= c <= 'f') || ('A' <= c <= 'F')
  }

  function DigitValue(c: char): (v: nat)
    requires IsHexDigit(c)
    ensures v < 16
  {
    if '0' <= c <= '9' then (c - '0') as nat
    else if 'a' <= c <= 'f' then (c - 'a') as nat + 10
    else (c - 'A') as nat + 10
  }

  predicate AllHexDigits(ds: string) {
    forall i :: 0 <= i < |ds| ==> IsHexDigit(ds[i])
  }

  /** What `/^#([A-Fa-f0-9]{3}){1,2}$/` accepts: `#` and then three or six hex digits. */
  predicate IsHexColor(s: string): (b: bool)
    ensures b <==> (|s| == 4 || |s| == 7) && s[0] == '#' && forall i :: 1 <= i < |s| ==> IsHexDigit(s[i])
  {
    assert forall i :: 1 <= i < |s| ==> s[1..][i - 1] == s[i];
    (|s| == 4 || |s| == 7) && s[0] == '#' && AllHexDigits(s[1..])
  }

  /** 16 to the power `n`. */
  function Pow16(n: nat): (p: nat)
    ensures p >= 1
  {
    if n == 0 then 1 else 16 * Pow16(n - 1)
  }

  /** The number a string of hex digits denotes, most significant digit first. */
  function HexValue(ds: string): (v: nat)
    requires AllHexDigits(ds)
    ensures v < Pow16(|ds|)
  {
    if ds == [] then 0 else 16 * HexValue(ds[..|ds| - 1]) + DigitValue(ds[|ds| - 1])
  }

  /** The six digits `hexToRgba` reads: three digits each written twice, or the six as given. */
  function SixDigits(ds: string): (r: string)
    requires |ds| == 3 || |ds| == 6
    requires AllHexDigits(ds)
    ensures |r| == 6 && AllHexDigits(r)
    ensures |ds| == 6 ==> r == ds
  {
    if |ds| == 3 then [ds[0], ds[0], ds[1], ds[1], ds[2], ds[2]] else ds
  }

  /**
   * `hexToRgba`: anything but a well-formed colour gives black; the opacity
   * passes through, and an omitted one defaults to 1.
   */
  function HexToRgba(hex: Option<string>, opacityArg: Option<real>): (c: Rgba)
    ensures c.opacity == if opacityArg.Some? then opacityArg.value else 1.0
    ensures hex.None? || !IsHexColor(hex.value) ==> c == Rgba(0, 0, 0, c.opacity)
    ensures 0 <= c.r < 256 && 0 <= c.g < 256 && 0 <= c.b < 256
  {
    var opacity := if opacityArg.Some? then opacityArg.value else 1.0;
    if hex.None? || hex.value == "" then Rgba(0, 0, 0, opacity)
    else if IsHexColor(hex.value) then
      var v := HexValue(SixDigits(hex.value[1..]));
      Rgba((v / 65536) % 256, (v / 256) % 256, v % 256, opacity)
    else Rgba(0, 0, 0, opacity)
  }

  /** A quotient and remainder pinned down by their defining equation. */
  lemma DivModOf(x: int, q: int, m: int, rem: int)
    requires m > 0 && 0 <= rem < m && x == q * m + rem
    ensures x / m == q && x % m == rem
  {
    var d := q - x / m;
    assert d * m == x % m - rem;
    if d > 0 {
      MulAtLeast(d, m);
    } else if d < 0 {
      MulAtLeast(-d, m);
    }
  }

  lemma MulAtLeast(d: int, m: int)
    requires d >= 1 && m > 0
    ensures d * m >= m
  {
  }

  /** The value of six hex digits as three bytes. */
  lemma SixDigitValue(ds: string)
    requires |ds| == 6 && AllHexDigits(ds)
    ensures HexValue(ds) == (16 * DigitValue(ds[0]) + DigitValue(ds[1])) * 65536 +
                            (16 * DigitValue(ds[2]) + DigitValue(ds[3])) * 256 +
                            (16 * DigitValue(ds[4]) + DigitValue(ds[5]))
  {
    var d := seq(6, i requires 0 <= i < 6 => DigitValue(ds[i]));
    assert HexValue(ds[..1]) == d[0] by { assert ds[..1][..0] == []; }
    assert HexValue(ds[..2]) == 16 * d[0] + d[1] by { assert ds[..2][..1] == ds[..1]; }
    assert HexValue(ds[..3]) == 256 * d[0] + 16 * d[1] + d[2] by { assert ds[..3][..2] == ds[..2]; }
    assert HexValue(ds[..4]) == 4096 * d[0] + 256 * d[1] + 16 * d[2] + d[3] by { assert ds[..4][..3] == ds[..3]; }
    assert HexValue(ds[..5]) == 65536 * d[0] + 4096 * d[1] + 256 * d[2] + 16 * d[3] + d[4] by {
      assert ds[..5][..4] == ds[..4];
    }
    assert ds[..6] == ds;
  }

  /** Each channel is the two-digit hex number at its place: `#RRGGBB`. */
  lemma SixDigitChannels(s: string, opacity: Option<real>)
    requires IsHexColor(s) && |s| == 7
    ensures var c := HexToRgba(Some(s), opacity);
            c.r == 16 * DigitValue(s[1]) + DigitValue(s[2]) &&
            c.g == 16 * DigitValue(s[3]) + DigitValue(s[4]) &&
            c.b == 16 * DigitValue(s[5]) + DigitValue(s[6])
  {
    var ds := s[1..];
    SixDigitValue(ds);
    var r, g, b := 16 * DigitValue(ds[0]) + DigitValue(ds[1]), 16 * DigitValue(ds[2]) + DigitValue(ds[3]),
                   16 * DigitValue(ds[4]) + DigitValue(ds[5]);
    var v := HexValue(ds);
    DivModOf(v, r * 256 + g, 256, b);
    DivModOf(v, r, 65536, g * 256 + b);
    DivModOf(r * 256 + g, r, 256, g);
  }

  /** The short form `#RGB` gives each channel its digit times 17, as `#RRGGBB` does. */
  lemma ThreeDigitChannels(s: string, opacity: Option<real>)
    requires IsHexColor(s) && |s| == 4
    ensures var c := HexToRgba(Some(s), opacity);
            c.r == 17 * DigitValue(s[1]) && c.g == 17 * DigitValue(s[2]) && c.b == 17 * DigitValue(s[3])
    ensures HexToRgba(Some(s), opacity) == HexToRgba(Some(['#'] + SixDigits(s[1..])), opacity)
  {
    var long := ['#'] + SixDigits(s[1..]);
    assert long[1..] == SixDigits(s[1..]);
    assert IsHexColor(long);
    SixDigitChannels(long, opacity);
  }
}
