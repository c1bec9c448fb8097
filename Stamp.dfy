/** The geometry engine of stamp.py: stamp configurations, colour parsing,
    tilt, font fitting, box layout, the stacking of several stamps on one
    page, and the validation `generate_stamp_overlay` performs before it
    draws. Drawing itself (border strokes, jittered text) is not modelled;
    an overlay here is the list of marks that would be drawn. */
module Stamp {
  import opened Outcomes
  import opened Text
  import opened Errors

  // ---------------------------------------------------------------------
  // Constants
  // ---------------------------------------------------------------------

  const StampWidthRatio: real := 0.20
  const StampRightEdge: real := 0.90
  const StampTopEdge: real := 0.90
  const StackSpacing: real := 1.3
  const DateFontRatio: real := 0.35
  const PaddingRatio: real := 0.25
  const MinFontSize: real := 8.0
  const CharWidthRatio: real := 0.6
  /** One millimetre in points (reportlab.lib.units.mm). */
  const Mm: real := 72.0 / 25.4
  const DefaultColor := "#003399"

  /** Library functions the engine calls and this model takes as given:
      the SHA-256 hex digest of a string, cosine and sine of an angle in
      degrees, and Python's `repr` of a float. */
  datatype Builtins = Builtins(
    sha256Hex: string -> Digest,
    cosDegrees: real -> real,
    sinDegrees: real -> real,
    floatRepr: real -> string)

  function Abs(x: real): real { if x < 0.0 then -x else x }

  // ---------------------------------------------------------------------
  // StampConfig
  // ---------------------------------------------------------------------

  datatype StampConfig = StampConfig(text: string, docId: int, date: Option<string>, color: string)

  /** `StampConfig(text, doc_id, date, color)`: the frozen dataclass stores
      its text upper-cased. */
  function NewStampConfig(text: string, docId: int, date: Option<string> := None,
                          color: string := DefaultColor): StampConfig
  {
    StampConfig(Upper(text), docId, date, color)
  }

  /** A constructed configuration holds no lower-case letter, keeps the
      length of its text, and constructing it again from its own fields
      gives the same value. */
  lemma StampConfigNormalised(text: string, docId: int, date: Option<string>, color: string)
    ensures var c := NewStampConfig(text, docId, date, color);
      && |c.text| == |text|
      && (forall i :: 0 <= i < |c.text| ==> !IsAsciiLower(c.text[i]))
      && NewStampConfig(c.text, c.docId, c.date, c.color) == c
  {
    UpperIdempotent(text);
  }

  /** The default colour is `#003399`, which is dark blue (0, 0.2, 0.6). */
  lemma DefaultStampColor(text: string, docId: int)
    ensures NewStampConfig(text, docId).color == "#003399"
    ensures HexToRgb(NewStampConfig(text, docId).color) == Ok(Rgb(0.0, 0.2, 0.6))
  {
    assert HexPair(0) == "00" && HexPair(51) == "33" && HexPair(153) == "99";
    assert "#" + HexPair(0) + HexPair(51) + HexPair(153) == DefaultColor;
    HexToRgbOfFormatted(0, 51, 153);
  }

  /** `if stamp.date:` -- a missing or empty date draws no date line. */
  predicate HasDate(stamp: StampConfig)
  {
    stamp.date.Some? && stamp.date.value != ""
  }

  // ---------------------------------------------------------------------
  // _hex_to_rgb
  // ---------------------------------------------------------------------

  predicate IsHexDigit(c: char)
  {
    '0' <= c <= '9' || 'a' <= c <= 'f' || 'A' <= c <= 'F'
  }

  predicate AllHex(s: string)
  {
    forall i :: 0 <= i < |s| ==> IsHexDigit(s[i])
  }

  function HexDigitValue(c: char): (v: nat)
    requires IsHexDigit(c)
    ensures v < 16
  {
    if '0' <= c <= '9' then c as int - '0' as int
    else if 'a' <= c <= 'f' then c as int - 'a' as int + 10
    else c as int - 'A' as int + 10
  }

  /** `int(s, 16)` on a string of hex digits. */
  function HexValue(s: string): nat
    requires AllHex(s)
  {
    if s == [] then 0 else HexValue(s[..|s| - 1]) * 16 + HexDigitValue(s[|s| - 1])
  }

  function Pow16(n: nat): (p: nat)
    ensures p >= 1
  {
    if n == 0 then 1 else 16 * Pow16(n - 1)
  }

  /** n hex digits denote a number below 16^n. */
  lemma {:induction false} HexValueBound(s: string)
    requires AllHex(s)
    ensures HexValue(s) < Pow16(|s|)
  {
    if s != [] {
      HexValueBound(s[..|s| - 1]);
    }
  }

  /** `h.lstrip("#")`: every leading '#' removed. */
  function StripHashes(s: string): (r: string)
    ensures |r| <= |s| && r == s[|s| - |r|..]
    ensures forall i :: 0 <= i < |s| - |r| ==> s[i] == '#'
    ensures r == [] || r[0] != '#'
  {
    if s != [] && s[0] == '#' then StripHashes(s[1..]) else s
  }

  /** The value of two hex digits, 0..255. */
  function HexByte(h: string): (b: nat)
    requires |h| == 2 && AllHex(h)
    ensures b < 256
  {
    HexDigitValue(h[0]) * 16 + HexDigitValue(h[1])
  }

  datatype Rgb = Rgb(r: real, g: real, b: real)

  predicate InUnitRange(x: real) { 0.0 <= x <= 1.0 }

  /** Colour strings `_hex_to_rgb` accepts: after the leading '#'s, exactly
      six hex digits. */
  predicate IsHexColor(hexColor: string)
  {
    var h := StripHashes(hexColor);
    |h| == 6 && AllHex(h)
  }

  function InvalidHexColor(hexColor: string): Error
  {
    GenerationError("Invalid hex color: " + hexColor)
  }

  /** `_hex_to_rgb`: each channel is its byte over 255. */
  function HexToRgb(hexColor: string): (r: Result<Rgb, Error>)
    ensures r.Ok? <==> IsHexColor(hexColor)
    ensures r.Err? ==> r.error == InvalidHexColor(hexColor)
    ensures r.Ok? ==> InUnitRange(r.value.r) && InUnitRange(r.value.g) && InUnitRange(r.value.b)
  {
    var h := StripHashes(hexColor);
    if |h| != 6 then Err(InvalidHexColor(hexColor))
    else if !AllHex(h) then Err(InvalidHexColor(hexColor))
    else Ok(Rgb(Channel(h[0..2]), Channel(h[2..4]), Channel(h[4..6])))
  }

  /** One colour channel: its byte over 255. */
  function Channel(h: string): (x: real)
    requires |h| == 2 && AllHex(h)
    ensures InUnitRange(x)
  {
    HexByte(h) as real / 255.0
  }

  function HexChar(d: nat): (c: char)
    requires d < 16
    ensures IsHexDigit(c) && HexDigitValue(c) == d
  {
    if d < 10 then ('0' as int + d) as char else ('A' as int + d - 10) as char
  }

  /** Two upper-case hex digits for a byte. */
  function HexPair(b: nat): (h: string)
    requires b < 256
    ensures |h| == 2 && AllHex(h) && HexByte(h) == b
  {
    [HexChar(b / 16), HexChar(b % 16)]
  }

  /** Formatting three bytes as `#RRGGBB` and parsing the result gives the
      bytes back, each divided by 255. */
  lemma HexToRgbOfFormatted(r: nat, g: nat, b: nat)
    requires r < 256 && g < 256 && b < 256
    ensures HexToRgb("#" + HexPair(r) + HexPair(g) + HexPair(b))
         == Ok(Rgb(r as real / 255.0, g as real / 255.0, b as real / 255.0))
  {
    var digits := HexPair(r) + HexPair(g) + HexPair(b);
    assert "#" + HexPair(r) + HexPair(g) + HexPair(b) == "#" + digits;
    assert StripHashes("#" + digits) == digits by {
      assert ("#" + digits)[1..] == digits;
    }
    assert digits[0..2] == HexPair(r) && digits[2..4] == HexPair(g) && digits[4..6] == HexPair(b);
    assert AllHex(digits) by {
      forall i | 0 <= i < 6 ensures IsHexDigit(digits[i]) {
        if i < 2 { assert digits[i] == HexPair(r)[i]; }
        else if i < 4 { assert digits[i] == HexPair(g)[i - 2]; }
        else { assert digits[i] == HexPair(b)[i - 4]; }
      }
    }
  }

  /** A colour with other than six digits after the '#'s is rejected. */
  lemma HexToRgbRejectsLength(hexColor: string)
    requires |StripHashes(hexColor)| != 6
    ensures HexToRgb(hexColor) == Err(InvalidHexColor(hexColor))
  {
  }

  /** The example of the colour tests: `#FFF` is rejected. */
  lemma HexToRgbRejectsShort(hexColor: string)
    requires hexColor == "#FFF"
    ensures HexToRgb(hexColor) == Err(InvalidHexColor(hexColor))
  {
    assert |StripHashes(hexColor)| == 3 by { assert hexColor[1..] == "FFF"; }
    HexToRgbRejectsLength(hexColor);
  }

  /** A colour whose digits after the '#'s include a non-hex character is
      rejected. */
  lemma RejectsNonHexDigit(hexColor: string, digits: string, i: nat)
    requires StripHashes(hexColor) == digits && i < |digits| && !IsHexDigit(digits[i])
    ensures HexToRgb(hexColor) == Err(InvalidHexColor(hexColor))
  {
    assert !AllHex(digits);
  }

  // ---------------------------------------------------------------------
  // _compute_tilt
  // ---------------------------------------------------------------------

  /** A SHA-256 `hexdigest()`: 64 hex digits. */
  type Digest = s: string | |s| == 64 && AllHex(s)
    witness seq(64, _ => '0')

  const MaxU32: nat := 0xFFFF_FFFF

  /** `1.0 + (m / 0xFFFFFFFF) * 2.0` */
  function TiltMagnitude(m: nat): (t: real)
    requires m <= MaxU32
    ensures 1.0 <= t <= 3.0
  {
    1.0 + (m as real / MaxU32 as real) * 2.0
  }

  /** The tilt read from a digest: the first eight hex digits choose the
      sign (odd means negative), the next eight the magnitude. */
  function TiltFromDigest(d: Digest): real
  {
    var signSource := HexValue(d[..8]);
    HexValueBound(d[8..16]);
    var magnitudeSource := HexValue(d[8..16]);
    var sign := if signSource % 2 == 1 then -1.0 else 1.0;
    sign * TiltMagnitude(magnitudeSource)
  }

  /** `_compute_tilt(doc_id)`: the tilt in degrees. */
  function ComputeTilt(docId: int, lib: Builtins): real
  {
    TiltFromDigest(lib.sha256Hex(IntToString(docId)))
  }

  /** Every tilt lies in [-3, -1] or [1, 3] degrees, and it is negative
      exactly when the sign source is odd. */
  lemma TiltRange(docId: int, lib: Builtins)
    ensures var t := ComputeTilt(docId, lib);
      var d := lib.sha256Hex(IntToString(docId));
      && 1.0 <= Abs(t) <= 3.0
      && (t < 0.0 <==> HexValue(d[..8]) % 2 == 1)
  {
    var d := lib.sha256Hex(IntToString(docId));
    HexValueBound(d[8..16]);
  }

  /** The tilt is a function of the digest of the document id alone: two
      libraries whose hashes agree on `str(doc_id)` give the same tilt,
      whatever their trigonometry and float formatting. */
  lemma TiltDependsOnDigestOnly(docId: int, a: Builtins, b: Builtins)
    requires a.sha256Hex(IntToString(docId)) == b.sha256Hex(IntToString(docId))
    ensures ComputeTilt(docId, a) == ComputeTilt(docId, b)
  {
  }

  // ---------------------------------------------------------------------
  // _fit_font_size and _calculate_stamp_layout
  // ---------------------------------------------------------------------

  /** Width of `n` Courier-Bold characters at `size` points. */
  function TextWidth(n: nat, size: real): real
  {
    n as real * CharWidthRatio * size
  }

  /** `_fit_font_size` */
  function FitFontSize(text: string, maxWidth: real, padding: real): (size: real)
    ensures size >= MinFontSize
  {
    var available := maxWidth - 2.0 * padding;
    if available <= 0.0 || text == "" then MinFontSize
    else
      var size := available / (|text| as real * CharWidthRatio);
      if size >= MinFontSize then size else MinFontSize
  }

  /** The fitted size is the minimum 8 when there is no room or no text;
      otherwise text at that size fills the available width exactly, unless
      the 8-point floor makes it overflow. */
  lemma FitFontSizeFills(text: string, maxWidth: real, padding: real)
    ensures var available := maxWidth - 2.0 * padding;
      var size := FitFontSize(text, maxWidth, padding);
      && (available <= 0.0 || text == "" ==> size == MinFontSize)
      && (available > 0.0 && text != "" && size > MinFontSize ==> TextWidth(|text|, size) == available)
      && (available > 0.0 && text != "" && size == MinFontSize ==> TextWidth(|text|, size) >= available)
  {
    var available := maxWidth - 2.0 * padding;
    if available > 0.0 && text != "" {
      var n := |text| as real * CharWidthRatio;
      var q := available / n;
      assert q * n == available;
      if q < MinFontSize {
        assert MinFontSize * n >= q * n;
      }
    }
  }

  /** No size above the fitted one fits the text, except that the floor
      is kept: the result is the largest fitting size, at least 8. */
  lemma FitFontSizeIsLargest(text: string, maxWidth: real, padding: real, s: real)
    requires text != ""
    requires s >= MinFontSize && TextWidth(|text|, s) <= maxWidth - 2.0 * padding
    ensures s <= FitFontSize(text, maxWidth, padding)
  {
    var available := maxWidth - 2.0 * padding;
    var n := |text| as real * CharWidthRatio;
    assert available > 0.0;
    assert s * n <= available;
    var q := available / n;
    assert q * n == available;
    assert s <= q;
  }

  datatype Layout = Layout(width: real, height: real, fontSize: real, dateFontSize: real, padding: real)

  /** `_calculate_stamp_layout` */
  function StampLayout(stamp: StampConfig, stampWidth: real): (l: Layout)
    ensures l.width == stampWidth && l.fontSize >= MinFontSize
    ensures l.padding == PaddingRatio * l.fontSize && l.dateFontSize == DateFontRatio * l.fontSize
    ensures l.height >= 1.5 * l.fontSize > 0.0
  {
    var fontSize := FitFontSize(stamp.text, stampWidth, stampWidth * PaddingRatio);
    var padding := fontSize * PaddingRatio;
    var dateFontSize := fontSize * DateFontRatio;
    var height :=
      if HasDate(stamp) then (fontSize + dateFontSize + 2.0 * Mm) + 2.0 * padding
      else fontSize + 2.0 * padding;
    Layout(stampWidth, height, fontSize, dateFontSize, padding)
  }

  /** The box is the text line plus padding above and below; a dated stamp
      adds the date line and a 2 mm gap, so it is strictly taller than the
      same stamp without a date, and everything else is equal. */
  lemma DatedStampIsTaller(stamp: StampConfig, stampWidth: real)
    requires HasDate(stamp)
    ensures var dated := StampLayout(stamp, stampWidth);
      var plain := StampLayout(stamp.(date := None), stampWidth);
      && plain.height == plain.fontSize + 2.0 * plain.padding
      && dated.height == plain.height + dated.dateFontSize + 2.0 * Mm
      && dated.height > plain.height
      && dated.(height := plain.height) == plain
  {
  }

  /** The font size is fitted to the text length alone: texts of equal
      length get equal boxes. */
  lemma LayoutDependsOnLength(a: StampConfig, b: StampConfig, stampWidth: real)
    requires |a.text| == |b.text| && HasDate(a) == HasDate(b)
    ensures StampLayout(a, stampWidth) == StampLayout(b, stampWidth)
  {
    assert (a.text == "") == (b.text == "");
  }

  // ---------------------------------------------------------------------
  // _projected_half_height and _calculate_stamp_placements
  // ---------------------------------------------------------------------

  /** `_projected_half_height`: half the vertical extent of the rotated box. */
  function ProjectedHalfHeight(width: real, height: real, tilt: real, lib: Builtins): (h: real)
    ensures h >= 0.0
  {
    (Abs(height * lib.cosDegrees(tilt)) + Abs(width * lib.sinDegrees(tilt))) / 2.0
  }

  datatype StampPlacement = StampPlacement(
    stamp: StampConfig, layout: Layout, tiltDegrees: real, centerX: real, centerY: real)

  function HalfHeight(p: StampPlacement, lib: Builtins): real
  {
    ProjectedHalfHeight(p.layout.width, p.layout.height, p.tiltDegrees, lib)
  }

  /** Highest and lowest point of a placed stamp on the page. */
  function TopEdge(p: StampPlacement, lib: Builtins): real { p.centerY + HalfHeight(p, lib) }

  function BottomEdge(p: StampPlacement, lib: Builtins): real { p.centerY - HalfHeight(p, lib) }

  /** One iteration of the placement loop: the stamp hangs from `top`. */
  function PlaceAt(top: real, stamp: StampConfig, stampWidth: real, centerX: real, lib: Builtins): StampPlacement
  {
    var layout := StampLayout(stamp, stampWidth);
    var tilt := ComputeTilt(stamp.docId, lib);
    var hh := ProjectedHalfHeight(layout.width, layout.height, tilt, lib);
    StampPlacement(stamp, layout, tilt, centerX, top - hh)
  }

  /** `next_stamp_top_edge` after placing `p`. */
  function NextTop(p: StampPlacement, lib: Builtins): real
  {
    p.centerY - HalfHeight(p, lib) - p.layout.height * (StackSpacing - 1.0)
  }

  /** The placements of `stamps`, the first hanging from `top`. */
  function Stack(top: real, stamps: seq<StampConfig>, stampWidth: real, centerX: real,
                 lib: Builtins): seq<StampPlacement>
    decreases |stamps|
  {
    if stamps == [] then []
    else
      var p := PlaceAt(top, stamps[0], stampWidth, centerX, lib);
      [p] + Stack(NextTop(p, lib), stamps[1..], stampWidth, centerX, lib)
  }

  function CenterX(pageWidth: real, stampWidth: real): real
  {
    pageWidth * StampRightEdge - stampWidth / 2.0
  }

  /** The result `_calculate_stamp_placements` computes. */
  function Placements(pageWidth: real, pageHeight: real, stamps: seq<StampConfig>,
                      stampWidth: real, lib: Builtins): seq<StampPlacement>
  {
    Stack(pageHeight * StampTopEdge, stamps, stampWidth, CenterX(pageWidth, stampWidth), lib)
  }

  /** `_calculate_stamp_placements` */
  method CalculateStampPlacements(pageWidth: real, pageHeight: real, stamps: seq<StampConfig>,
                                  stampWidth: real, lib: Builtins)
    returns (placements: seq<StampPlacement>)
    ensures placements == Placements(pageWidth, pageHeight, stamps, stampWidth, lib)
  {
    var centerX := pageWidth * StampRightEdge - stampWidth / 2.0;
    var nextTop := pageHeight * StampTopEdge;
    placements := [];
    var i := 0;
    while i < |stamps|
      invariant 0 <= i <= |stamps|
      invariant placements + Stack(nextTop, stamps[i..], stampWidth, centerX, lib)
             == Placements(pageWidth, pageHeight, stamps, stampWidth, lib)
    {
      var stamp := stamps[i];
      var layout := StampLayout(stamp, stampWidth);
      var tilt := ComputeTilt(stamp.docId, lib);
      var hh := ProjectedHalfHeight(layout.width, layout.height, tilt, lib);
      var centerY := nextTop - hh;
      var p := StampPlacement(stamp, layout, tilt, centerX, centerY);
      assert p == PlaceAt(nextTop, stamp, stampWidth, centerX, lib);
      StackStep(nextTop, stamps, i, stampWidth, centerX, lib);
      ConcatAssociative(placements, [p], Stack(NextTop(p, lib), stamps[i + 1..], stampWidth, centerX, lib));
      placements := placements + [p];
      var gap := layout.height * (StackSpacing - 1.0);
      nextTop := centerY - hh - gap;
      assert nextTop == NextTop(p, lib);
      i := i + 1;
    }
  }

  /** The stack from stamp `i` on is stamp `i` hung from `top`, followed by
      the stack of the remaining stamps hung below it. */
  lemma StackStep(top: real, stamps: seq<StampConfig>, i: nat, stampWidth: real, centerX: real, lib: Builtins)
    requires i < |stamps|
    ensures var p := PlaceAt(top, stamps[i], stampWidth, centerX, lib);
      Stack(top, stamps[i..], stampWidth, centerX, lib)
        == [p] + Stack(NextTop(p, lib), stamps[i + 1..], stampWidth, centerX, lib)
  {
    assert stamps[i..][0] == stamps[i] && stamps[i..][1..] == stamps[i + 1..];
  }

  /** One placement per stamp, in input order, each with the stamp's own
      layout and tilt and the common horizontal centre. */
  lemma {:induction false} StackShape(top: real, stamps: seq<StampConfig>, stampWidth: real,
                                      centerX: real, lib: Builtins)
    ensures var ps := Stack(top, stamps, stampWidth, centerX, lib);
      && |ps| == |stamps|
      && forall k :: 0 <= k < |ps| ==>
           && ps[k].stamp == stamps[k]
           && ps[k].layout == StampLayout(stamps[k], stampWidth)
           && ps[k].tiltDegrees == ComputeTilt(stamps[k].docId, lib)
           && ps[k].centerX == centerX
    decreases |stamps|
  {
    if stamps != [] {
      var p := PlaceAt(top, stamps[0], stampWidth, centerX, lib);
      StackShape(NextTop(p, lib), stamps[1..], stampWidth, centerX, lib);
    }
  }

  /** The k+1-th stamp's top edge is the k-th stamp's bottom edge minus a gap
      of 0.3 times the k-th box height. */
  lemma {:induction false} StackGap(top: real, stamps: seq<StampConfig>, stampWidth: real,
                                    centerX: real, lib: Builtins, k: nat)
    requires k + 1 < |stamps|
    ensures var ps := Stack(top, stamps, stampWidth, centerX, lib);
      |ps| == |stamps| &&
      TopEdge(ps[k + 1], lib) == BottomEdge(ps[k], lib) - ps[k].layout.height * (StackSpacing - 1.0)
    decreases k
  {
    StackShape(top, stamps, stampWidth, centerX, lib);
    var p := PlaceAt(top, stamps[0], stampWidth, centerX, lib);
    var rest := Stack(NextTop(p, lib), stamps[1..], stampWidth, centerX, lib);
    if k == 0 {
      StackTop(NextTop(p, lib), stamps[1..], stampWidth, centerX, lib);
    } else {
      StackGap(NextTop(p, lib), stamps[1..], stampWidth, centerX, lib, k - 1);
    }
  }

  /** The first stamp of a stack hangs exactly from the given top edge. */
  lemma StackTop(top: real, stamps: seq<StampConfig>, stampWidth: real, centerX: real, lib: Builtins)
    requires stamps != []
    ensures TopEdge(Stack(top, stamps, stampWidth, centerX, lib)[0], lib) == top
  {
  }

  /** Stamps never overlap: every later stamp lies entirely below every
      earlier one, with room to spare. */
  lemma {:induction false} StackNoOverlap(top: real, stamps: seq<StampConfig>, stampWidth: real,
                                          centerX: real, lib: Builtins, j: nat, k: nat)
    requires j < k < |stamps|
    ensures var ps := Stack(top, stamps, stampWidth, centerX, lib);
      |ps| == |stamps| && TopEdge(ps[k], lib) < BottomEdge(ps[j], lib)
    decreases k - j
  {
    var ps := Stack(top, stamps, stampWidth, centerX, lib);
    StackShape(top, stamps, stampWidth, centerX, lib);
    StackGap(top, stamps, stampWidth, centerX, lib, k - 1);
    assert ps[k - 1].layout.height > 0.0;
    if j < k - 1 {
      StackNoOverlap(top, stamps, stampWidth, centerX, lib, j, k - 1);
      assert BottomEdge(ps[k - 1], lib) <= TopEdge(ps[k - 1], lib);
    }
  }

  /** The placement facts for a page: the horizontal centre is 90% of the
      page width minus half a stamp, the first top edge is at 90% of the
      page height, and the stamps are stacked without overlap. */
  lemma PlacementsOnPage(pageWidth: real, pageHeight: real, stamps: seq<StampConfig>,
                         stampWidth: real, lib: Builtins)
    ensures var ps := Placements(pageWidth, pageHeight, stamps, stampWidth, lib);
      && |ps| == |stamps|
      && (forall k :: 0 <= k < |ps| ==>
            ps[k].stamp == stamps[k] && ps[k].centerX == 0.9 * pageWidth - stampWidth / 2.0)
      && (stamps != [] ==> TopEdge(ps[0], lib) == 0.9 * pageHeight)
      && (forall j, k :: 0 <= j < k < |ps| ==> TopEdge(ps[k], lib) < BottomEdge(ps[j], lib))
  {
    var top := pageHeight * StampTopEdge;
    var cx := CenterX(pageWidth, stampWidth);
    StackShape(top, stamps, stampWidth, cx, lib);
    if stamps != [] {
      StackTop(top, stamps, stampWidth, cx, lib);
    }
    forall j, k | 0 <= j < k < |stamps|
      ensures TopEdge(Stack(top, stamps, stampWidth, cx, lib)[k], lib)
            < BottomEdge(Stack(top, stamps, stampWidth, cx, lib)[j], lib)
    {
      StackNoOverlap(top, stamps, stampWidth, cx, lib, j, k);
    }
  }

  // ---------------------------------------------------------------------
  // generate_stamp_overlay
  // ---------------------------------------------------------------------

  /** What one `_draw_stamp` call draws: a placement in its parsed colour. */
  datatype Mark = Mark(placement: StampPlacement, rgb: Rgb)

  /** The overlay page: its size and the marks drawn on it, in order. */
  datatype Overlay = Overlay(pageWidth: real, pageHeight: real, marks: seq<Mark>)

  const NoStampsMessage := "At least one stamp is required"

  function InvalidDimensions(pageWidth: real, pageHeight: real, lib: Builtins): Error
  {
    GenerationError("Invalid page dimensions: " + lib.floatRepr(pageWidth) + "x" + lib.floatRepr(pageHeight))
  }

  /** The drawing loop: each placement's colour is parsed before it is
      drawn, so the first stamp with a malformed colour stops it. */
  function MarkAll(placements: seq<StampPlacement>): Result<seq<Mark>, Error>
  {
    if placements == [] then Ok([])
    else
      var head := HexToRgb(placements[0].stamp.color);
      if head.Err? then Err(head.error)
      else
        var rest := MarkAll(placements[1..]);
        if rest.Err? then rest else Ok([Mark(placements[0], head.value)] + rest.value)
  }

  /** The outcome of `generate_stamp_overlay`. */
  function OverlayFor(pageWidth: real, pageHeight: real, stamps: seq<StampConfig>,
                      lib: Builtins): Result<Overlay, Error>
  {
    if stamps == [] then Err(GenerationError(NoStampsMessage))
    else if pageWidth <= 0.0 || pageHeight <= 0.0 then Err(InvalidDimensions(pageWidth, pageHeight, lib))
    else
      var ps := Placements(pageWidth, pageHeight, stamps, pageWidth * StampWidthRatio, lib);
      match MarkAll(ps)
      case Err(e) => Err(e)
      case Ok(marks) => Ok(Overlay(pageWidth, pageHeight, marks))
  }

  /** Every placement's colour parses. */
  predicate AllColorsParse(placements: seq<StampPlacement>)
  {
    forall k :: 0 <= k < |placements| ==> IsHexColor(placements[k].stamp.color)
  }

  /** A failure of the drawing loop is always a StampGenerationError. */
  lemma {:induction false} MarkAllErrorClass(placements: seq<StampPlacement>)
    ensures MarkAll(placements).Err? ==> ClassOf(MarkAll(placements).error) == StampGeneration
    decreases |placements|
  {
    if placements != [] {
      var head := HexToRgb(placements[0].stamp.color);
      if head.Ok? {
        MarkAllErrorClass(placements[1..]);
      }
    }
  }

  /** Marking succeeds exactly when every colour parses; a failure is
      always a StampGenerationError. */
  lemma {:induction false} MarkAllSucceeds(placements: seq<StampPlacement>)
    ensures MarkAll(placements).Ok? <==> AllColorsParse(placements)
    ensures MarkAll(placements).Err? ==> ClassOf(MarkAll(placements).error) == StampGeneration
    decreases |placements|
  {
    MarkAllErrorClass(placements);
    if placements != [] {
      var tail := placements[1..];
      MarkAllSucceeds(tail);
      if AllColorsParse(placements) {
        assert AllColorsParse(tail) by {
          forall k | 0 <= k < |tail| ensures IsHexColor(tail[k].stamp.color) {
            assert tail[k] == placements[k + 1];
          }
        }
      }
      if AllColorsParse(tail) && IsHexColor(placements[0].stamp.color) {
        assert AllColorsParse(placements) by {
          forall k | 0 <= k < |placements| ensures IsHexColor(placements[k].stamp.color) {
            if k > 0 { assert placements[k] == tail[k - 1]; }
          }
        }
      }
    }
  }

  /** A successful marking keeps one mark per placement, in order, each in
      its placement's colour. */
  lemma {:induction false} MarkAllMarks(placements: seq<StampPlacement>)
    requires MarkAll(placements).Ok?
    ensures var marks := MarkAll(placements).value;
      |marks| == |placements| &&
      forall k :: 0 <= k < |marks| ==>
        marks[k].placement == placements[k] && Ok(marks[k].rgb) == HexToRgb(placements[k].stamp.color)
    decreases |placements|
  {
    if placements != [] {
      var tail := placements[1..];
      MarkAllMarks(tail);
      var marks := MarkAll(placements).value;
      assert marks == [Mark(placements[0], HexToRgb(placements[0].stamp.color).value)] + MarkAll(tail).value;
      forall k | 0 <= k < |marks|
        ensures marks[k].placement == placements[k] && Ok(marks[k].rgb) == HexToRgb(placements[k].stamp.color)
      {
        if k > 0 {
          assert marks[k] == MarkAll(tail).value[k - 1];
          assert placements[k] == tail[k - 1];
        }
      }
    }
  }

  /** Otherwise marking fails with the error for the first stamp whose
      colour does not parse. */
  lemma {:induction false} MarkAllFirstError(placements: seq<StampPlacement>, k: nat)
    requires k < |placements| && !IsHexColor(placements[k].stamp.color)
    requires forall j :: 0 <= j < k ==> IsHexColor(placements[j].stamp.color)
    ensures MarkAll(placements) == Err(InvalidHexColor(placements[k].stamp.color))
    decreases k
  {
    if k > 0 {
      var tail := placements[1..];
      assert forall j :: 0 <= j < k - 1 ==> tail[j] == placements[j + 1];
      MarkAllFirstError(tail, k - 1);
    }
  }

  /** The marks drawn so far in front of the outcome for the rest. */
  function Prefixed(marks: seq<Mark>, rest: Result<seq<Mark>, Error>): Result<seq<Mark>, Error>
  {
    if rest.Err? then rest else Ok(marks + rest.value)
  }

  /** One turn of the drawing loop. */
  lemma MarkAllStep(placements: seq<StampPlacement>, i: nat, marks: seq<Mark>)
    requires i < |placements|
    ensures var head := HexToRgb(placements[i].stamp.color);
      && (head.Err? ==> Prefixed(marks, MarkAll(placements[i..])) == Err(head.error))
      && (head.Ok? ==>
            Prefixed(marks, MarkAll(placements[i..]))
              == Prefixed(marks + [Mark(placements[i], head.value)], MarkAll(placements[i + 1..])))
  {
    assert placements[i..][1..] == placements[i + 1..];
    var head := HexToRgb(placements[i].stamp.color);
    var rest := MarkAll(placements[i + 1..]);
    if head.Ok? && rest.Ok? {
      assert marks + ([Mark(placements[i], head.value)] + rest.value)
          == (marks + [Mark(placements[i], head.value)]) + rest.value;
    }
  }

  /** The drawing loop of `generate_stamp_overlay`: one `_draw_stamp`
      per placement, in order. */
  method DrawStamps(placements: seq<StampPlacement>) returns (r: Result<seq<Mark>, Error>)
    ensures r == MarkAll(placements)
  {
    var marks: seq<Mark> := [];
    var i := 0;
    assert Prefixed(marks, MarkAll(placements[i..])) == MarkAll(placements) by {
      assert placements[i..] == placements;
      var whole := MarkAll(placements);
      if whole.Ok? { assert [] + whole.value == whole.value; }
    }
    while i < |placements|
      invariant 0 <= i <= |placements|
      invariant Prefixed(marks, MarkAll(placements[i..])) == MarkAll(placements)
    {
      var rgb := HexToRgb(placements[i].stamp.color);
      if rgb.Err? {
        assert MarkAll(placements) == Err(rgb.error) by {
          MarkAllStep(placements, i, marks);
        }
        return Err(rgb.error);
      }
      assert Prefixed(marks + [Mark(placements[i], rgb.value)], MarkAll(placements[i + 1..]))
          == MarkAll(placements) by {
        MarkAllStep(placements, i, marks);
      }
      marks := marks + [Mark(placements[i], rgb.value)];
      i := i + 1;
    }
    assert placements[i..] == [];
    assert marks + [] == marks;
    r := Ok(marks);
  }

  /** `generate_stamp_overlay`, up to the drawing: the empty list is
      rejected first, then a non-positive page size, then the first stamp
      whose colour does not parse. */
  method GenerateStampOverlay(pageWidth: real, pageHeight: real, stamps: seq<StampConfig>, lib: Builtins)
    returns (r: Result<Overlay, Error>)
    ensures r == OverlayFor(pageWidth, pageHeight, stamps, lib)
  {
    if stamps == [] {
      return Err(GenerationError(NoStampsMessage));
    }
    if pageWidth <= 0.0 || pageHeight <= 0.0 {
      return Err(InvalidDimensions(pageWidth, pageHeight, lib));
    }
    var stampWidth := pageWidth * StampWidthRatio;
    var placements := CalculateStampPlacements(pageWidth, pageHeight, stamps, stampWidth, lib);
    var marks := DrawStamps(placements);
    if marks.Err? {
      return Err(marks.error);
    }
    r := Ok(Overlay(pageWidth, pageHeight, marks.value));
  }

  /** The validation of `generate_stamp_overlay`: the empty list fails
      first, then a page side of zero or less; with valid input and valid
      colours it yields one mark per stamp, stacked without overlap. */
  lemma OverlayOutcome(pageWidth: real, pageHeight: real, stamps: seq<StampConfig>, lib: Builtins)
    ensures var r := OverlayFor(pageWidth, pageHeight, stamps, lib);
      && (stamps == [] ==> r == Err(GenerationError(NoStampsMessage)))
      && (stamps != [] && (pageWidth <= 0.0 || pageHeight <= 0.0) ==>
            r == Err(InvalidDimensions(pageWidth, pageHeight, lib)))
      && (r.Ok? <==> stamps != [] && pageWidth > 0.0 && pageHeight > 0.0 &&
                     forall k :: 0 <= k < |stamps| ==> IsHexColor(stamps[k].color))
      && (r.Err? ==> ClassOf(r.error) == StampGeneration)
      && (r.Ok? ==> var marks := r.value.marks;
            && |marks| == |stamps|
            && (forall k :: 0 <= k < |stamps| ==> marks[k].placement.stamp == stamps[k])
            && (forall j, k :: 0 <= j < k < |marks| ==>
                  TopEdge(marks[k].placement, lib) < BottomEdge(marks[j].placement, lib)))
  {
    if stamps != [] && pageWidth > 0.0 && pageHeight > 0.0 {
      var ps := Placements(pageWidth, pageHeight, stamps, pageWidth * StampWidthRatio, lib);
      PlacementsOnPage(pageWidth, pageHeight, stamps, pageWidth * StampWidthRatio, lib);
      MarkAllSucceeds(ps);
      if MarkAll(ps).Ok? { MarkAllMarks(ps); }
      assert forall k :: 0 <= k < |stamps| ==> ps[k].stamp.color == stamps[k].color;
    }
  }
}
