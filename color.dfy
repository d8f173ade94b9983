/** `colorUtils.ts`: the hexadecimal colour parser, the contrast ratio of two relative
    luminances, the WCAG 2.1 contrast thresholds, and the two text-colour choosers. The
    relative luminance itself uses a floating-point power and is a parameter here, a
    function into the unit interval. */
module Color {
  import opened Wrappers
  import opened Hex

  /** A colour's red, green and blue components. */
  type Rgb = (nat, nat, nat)

  /** A relative luminance. */
  type Luminance = r: real | 0.0 <= r <= 1.0

  /** A character `[a-f\d]` matches under the `i` flag: an ASCII hexadecimal digit. */
  predicate IsHexDigit(c: char)
  {
    DigitValue(c).Some?
  }

  /** `parseInt(pair, 16)` for two hexadecimal digits. */
  function PairValue(hi: char, lo: char): (r: nat)
    requires IsHexDigit(hi) && IsHexDigit(lo)
    ensures r < 256
  {
    DigitValue(hi).value * 16 + DigitValue(lo).value
  }

  /** Whether `/^#?([a-f\d]{2})([a-f\d]{2})([a-f\d]{2})$/i` matches, and the six digits. */
  function MatchHex(hex: string): (r: Option<string>)
    ensures r.Some? ==> |r.value| == 6 && forall i :: 0 <= i < 6 ==> IsHexDigit(r.value[i])
  {
    var digits := if |hex| == 7 && hex[0] == '#' then hex[1..] else hex;
    if |digits| == 6 && forall i :: 0 <= i < 6 ==> IsHexDigit(digits[i]) then Some(digits) else None
  }

  /** `hexToRgb(hex)`: the three digit pairs in base 16, or black when the pattern fails. */
  function HexToRgb(hex: string): (r: Rgb)
    ensures r.0 < 256 && r.1 < 256 && r.2 < 256
    ensures MatchHex(hex).None? ==> r == (0, 0, 0)
  {
    match MatchHex(hex)
    case None => (0, 0, 0)
    case Some(d) => (PairValue(d[0], d[1]), PairValue(d[2], d[3]), PairValue(d[4], d[5]))
  }

  /** The pattern accepts exactly six hexadecimal digits, with or without one leading `#`. */
  lemma MatchHexExactly(hex: string)
    ensures MatchHex(hex).Some? <==>
      || (|hex| == 6 && forall i :: 0 <= i < 6 ==> IsHexDigit(hex[i]))
      || (|hex| == 7 && hex[0] == '#' && forall i :: 1 <= i < 7 ==> IsHexDigit(hex[i]))
  {
    if |hex| == 7 && hex[0] == '#' {
      assert forall i :: 0 <= i < 6 ==> hex[1..][i] == hex[i + 1];
      if forall i :: 1 <= i < 7 ==> IsHexDigit(hex[i]) {
        assert forall i :: 0 <= i < 6 ==> IsHexDigit(hex[1..][i]);
      }
    }
  }

  /** Three-digit shorthand is not accepted. */
  lemma ShorthandIsBlack()
    ensures HexToRgb("#fff") == (0, 0, 0)
    ensures HexToRgb("#a3b3c9") == (163, 179, 201)
  {
    MatchHexExactly("#fff");
    var h := "#a3b3c9";
    var d := h[1..];
    assert d == "a3b3c9";
    assert DigitValue('a') == Some(10) && DigitValue('b') == Some(11) && DigitValue('c') == Some(12);
    assert DigitValue('3') == Some(3) && DigitValue('9') == Some(9);
    assert forall i :: 0 <= i < 6 ==> IsHexDigit(d[i]);
    assert MatchHex(h) == Some(d);
    assert PairValue(d[0], d[1]) == 10 * 16 + 3;
    assert PairValue(d[2], d[3]) == 11 * 16 + 3;
    assert PairValue(d[4], d[5]) == 12 * 16 + 9;
  }

  /** Two digits for a component, upper case. */
  function ComponentHex(v: nat): (r: string)
    requires v < 256
    ensures |r| == 2 && IsHexDigit(r[0]) && IsHexDigit(r[1]) && PairValue(r[0], r[1]) == v
  {
    [UpperDigit(v / 16), UpperDigit(v % 16)]
  }

  /** `#RRGGBB` for a colour. */
  function ToHex(c: Rgb): (r: string)
    requires c.0 < 256 && c.1 < 256 && c.2 < 256
  {
    "#" + ComponentHex(c.0) + ComponentHex(c.1) + ComponentHex(c.2)
  }

  /** Each component is the base-16 value of its digit pair: writing a colour out and
      parsing it gives the colour back. */
  lemma HexToRgbRoundTrip(c: Rgb)
    requires c.0 < 256 && c.1 < 256 && c.2 < 256
    ensures HexToRgb(ToHex(c)) == c
  {
    var s := ToHex(c);
    var d := s[1..];
    assert d == ComponentHex(c.0) + ComponentHex(c.1) + ComponentHex(c.2);
    assert d[0] == ComponentHex(c.0)[0] && d[1] == ComponentHex(c.0)[1];
    assert d[2] == ComponentHex(c.1)[0] && d[3] == ComponentHex(c.1)[1];
    assert d[4] == ComponentHex(c.2)[0] && d[5] == ComponentHex(c.2)[1];
  }

  /** The ASCII lower-case form of a character. */
  function LowerAscii(c: char): char
  {
    if 'A' <= c <= 'Z' then (c as int - 'A' as int + 'a' as int) as char else c
  }

  /** Lower-casing keeps the value of a digit and turns nothing else into one. */
  lemma LowerAsciiDigit(c: char)
    ensures DigitValue(LowerAscii(c)) == DigitValue(c)
    ensures LowerAscii(c) == '#' <==> c == '#'
  {
  }

  /** The pattern matches the lower-cased text exactly when it matches the text, and then
      its digits are the lower-cased digits. */
  lemma MatchHexLower(hex: string, low: string)
    requires |low| == |hex| && forall i :: 0 <= i < |hex| ==> low[i] == LowerAscii(hex[i])
    ensures MatchHex(low).Some? <==> MatchHex(hex).Some?
    ensures MatchHex(hex).Some? ==> forall i :: 0 <= i < 6 ==> MatchHex(low).value[i] == LowerAscii(MatchHex(hex).value[i])
  {
    if |hex| > 0 {
      LowerAsciiDigit(hex[0]);
    }
    var digits := if |hex| == 7 && hex[0] == '#' then hex[1..] else hex;
    var lowDigits := if |low| == 7 && low[0] == '#' then low[1..] else low;
    assert |lowDigits| == |digits|;
    forall i | 0 <= i < |digits|
      ensures lowDigits[i] == LowerAscii(digits[i]) && (IsHexDigit(lowDigits[i]) <==> IsHexDigit(digits[i]))
    {
      LowerAsciiDigit(digits[i]);
    }
  }

  /** The pattern is case-insensitive: lower-casing the text changes nothing. */
  lemma HexToRgbCaseInsensitive(hex: string)
    ensures HexToRgb(seq(|hex|, i requires 0 <= i < |hex| => LowerAscii(hex[i]))) == HexToRgb(hex)
  {
    var low := seq(|hex|, i requires 0 <= i < |hex| => LowerAscii(hex[i]));
    MatchHexLower(hex, low);
    if MatchHex(hex).Some? {
      var d, e := MatchHex(hex).value, MatchHex(low).value;
      LowerAsciiDigit(d[0]);
      LowerAsciiDigit(d[1]);
      LowerAsciiDigit(d[2]);
      LowerAsciiDigit(d[3]);
      LowerAsciiDigit(d[4]);
      LowerAsciiDigit(d[5]);
      assert PairValue(e[0], e[1]) == PairValue(d[0], d[1]);
      assert PairValue(e[2], e[3]) == PairValue(d[2], d[3]);
      assert PairValue(e[4], e[5]) == PairValue(d[4], d[5]);
    }
  }

  /** `getContrastRatio` on two luminances: the brighter over the darker, each offset by
      0.05. It lies between 1 and 21 and does not depend on the order of the colours. */
  function ContrastRatio(l1: Luminance, l2: Luminance): (r: real)
    ensures 1.0 <= r <= 21.0
    ensures r == ContrastRatioOrdered(l2, l1)
  {
    ContrastRatioOrdered(l1, l2)
  }

  function ContrastRatioOrdered(l1: Luminance, l2: Luminance): (r: real)
    ensures 1.0 <= r <= 21.0
  {
    var brightest := if l1 >= l2 then l1 else l2;
    var darkest := if l1 >= l2 then l2 else l1;
    QuotientBounds(brightest + 0.05, darkest + 0.05);
    (brightest + 0.05) / (darkest + 0.05)
  }

  lemma QuotientBounds(x: real, y: real)
    requires 0.0 < y <= x <= 21.0 * y
    ensures 1.0 <= x / y <= 21.0
  {
    var q := x / y;
    assert q * y == x;
    if q > 21.0 {
      var e := q - 21.0;
      assert e * y > 0.0;
      assert e * y == q * y - 21.0 * y;
      assert q * y - 21.0 * y <= 0.0;
    }
  }

  /** `getContrastRatio(color1, color2)`. */
  function ContrastOf(luminance: Rgb -> Luminance, color1: string, color2: string): real
  {
    ContrastRatio(luminance(HexToRgb(color1)), luminance(HexToRgb(color2)))
  }

  datatype Level = AA | AAA
  datatype Size = Normal | Large

  /** The minimum contrast ratios of WCAG 2.1 success criteria 1.4.3 (AA) and 1.4.6 (AAA). */
  function Threshold(level: Level, size: Size): real
  {
    match (level, size)
    case (AA, Normal) => 4.5
    case (AA, Large) => 3.0
    case (AAA, Normal) => 7.0
    case (AAA, Large) => 4.5
  }

  /** The defaults of `meetsWCAGContrast`'s `level` and `size`. */
  const DefaultLevel: Level := AA
  const DefaultSize: Size := Normal

  /** `meetsWCAGContrast(foreground, background, level, size)`; a call that leaves out
      `level` or `size` passes `DefaultLevel` or `DefaultSize`. */
  function MeetsWcagContrast(luminance: Rgb -> Luminance, foreground: string, background: string, level: Level, size: Size): (r: bool)
    ensures level == AA && size == Normal ==> (r <==> ContrastOf(luminance, foreground, background) >= 4.5)
    ensures level == AA && size == Large ==> (r <==> ContrastOf(luminance, foreground, background) >= 3.0)
    ensures level == AAA && size == Normal ==> (r <==> ContrastOf(luminance, foreground, background) >= 7.0)
    ensures level == AAA && size == Large ==> (r <==> ContrastOf(luminance, foreground, background) >= 4.5)
  {
    ContrastOf(luminance, foreground, background) >= Threshold(level, size)
  }

  /** AAA is stricter than AA, large text is more lenient than normal text, and the
      result does not depend on which colour is the foreground. */
  lemma WcagOrdering(luminance: Rgb -> Luminance, fg: string, bg: string, size: Size, level: Level)
    ensures MeetsWcagContrast(luminance, fg, bg, AAA, size) ==> MeetsWcagContrast(luminance, fg, bg, AA, size)
    ensures MeetsWcagContrast(luminance, fg, bg, level, Normal) ==> MeetsWcagContrast(luminance, fg, bg, level, Large)
    ensures MeetsWcagContrast(luminance, fg, bg, level, size) == MeetsWcagContrast(luminance, bg, fg, level, size)
    ensures MeetsWcagContrast(luminance, fg, bg, AAA, Normal) ==> MeetsWcagContrast(luminance, fg, bg, level, size)
  {
  }

  /** Identical colours never pass: their ratio is 1. */
  lemma SameColourFails(luminance: Rgb -> Luminance, c: string, level: Level, size: Size)
    ensures !MeetsWcagContrast(luminance, c, c, level, size)
  {
    var l := luminance(HexToRgb(c));
    var y: real := (l as real) + 0.05;
    assert y / y == 1.0;
    assert ContrastRatioOrdered(l, l) == 1.0;
  }

  /** `getReadableTextColor(background)`: black when it contrasts more with the background
      than white does, white otherwise. */
  function ReadableTextColor(luminance: Rgb -> Luminance, background: string): (r: string)
    ensures r == "#000000" || r == "#ffffff"
    ensures r == "#000000" <==> ContrastOf(luminance, background, "#000000") > ContrastOf(luminance, background, "#ffffff")
  {
    if ContrastOf(luminance, background, "#000000") > ContrastOf(luminance, background, "#ffffff") then "#000000" else "#ffffff"
  }

  /** `isLightColor(color)`: luminance above one half. */
  predicate IsLightColor(luminance: Rgb -> Luminance, color: string)
  {
    luminance(HexToRgb(color)) > 0.5
  }

  /** The defaults of `getTextColor`'s `lightText` and `darkText`. */
  const DefaultLightText: string := "#000000"
  const DefaultDarkText: string := "#ffffff"

  /** `getTextColor(background, lightText, darkText)`: the first text colour on a light
      background, the second otherwise. A call that leaves them out, such as
      `getTextColor(paper_color || DEFAULT_DASHBOARD_PAPER_COLOR)`, passes
      `DefaultLightText` and `DefaultDarkText`: black or white. */
  function TextColor(luminance: Rgb -> Luminance, background: string, lightText: string, darkText: string): (r: string)
    ensures r == lightText || r == darkText
    ensures IsLightColor(luminance, background) ==> r == lightText
    ensures !IsLightColor(luminance, background) ==> r == darkText
  {
    if IsLightColor(luminance, background) then lightText else darkText
  }
}
