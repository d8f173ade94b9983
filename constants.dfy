/** `constants.ts`: the default dashboard colours and `createDashboardTheme`, whose
    `_theme` value is the `JSON.stringify` text of a one-field object. A JSON string
    reader is defined beside the writer so that the payload can be shown to carry exactly
    the chosen colour. */
module Constants {
  import opened Wrappers
  import opened Strings
  import opened Records
  import opened Hex

  const DefaultDashboardBackgroundColor: string := "#A3B3C9"
  const DefaultDashboardPaperColor: string := "#ffffff"

  /** How `JSON.stringify` writes one character inside a string literal: a quote and a
      backslash are escaped, the control characters with a short form use it, the other
      control characters become `\u00xx` with lower-case digits. */
  function EscapeChar(c: char): string
  {
    if c == '"' then "\\\""
    else if c == '\\' then "\\\\"
    else if c as int == 8 then "\\b"
    else if c as int == 12 then "\\f"
    else if c == '\n' then "\\n"
    else if c == '\r' then "\\r"
    else if c == '\t' then "\\t"
    else if c as int < 32 then "\\u00" + [LowerDigit(c as int / 16), LowerDigit(c as int % 16)]
    else [c]
  }

  function EscapeBody(s: string): string
  {
    if |s| == 0 then "" else EscapeChar(s[0]) + EscapeBody(s[1..])
  }

  /** `JSON.stringify(s)` for a string `s`. */
  function JsonQuote(s: string): string
  {
    "\"" + EscapeBody(s) + "\""
  }

  /** The character a one-letter JSON escape stands for. */
  function SimpleEscape(e: char): Option<char>
  {
    if e == '"' || e == '\\' || e == '/' then Some(e)
    else if e == 'b' then Some(8 as char)
    else if e == 'f' then Some(12 as char)
    else if e == 'n' then Some('\n')
    else if e == 'r' then Some('\r')
    else if e == 't' then Some('\t')
    else None
  }

  /** The value of four hexadecimal digits. */
  function HexQuad(t: string): Option<nat>
    requires |t| == 4
  {
    var a, b, c, d := DigitValue(t[0]), DigitValue(t[1]), DigitValue(t[2]), DigitValue(t[3]);
    if a.Some? && b.Some? && c.Some? && d.Some? then
      Some(((a.value * 16 + b.value) * 16 + c.value) * 16 + d.value)
    else None
  }

  function Prepend(c: char, rest: Option<string>): Option<string>
  {
    if rest.Some? then Some([c] + rest.value) else None
  }

  /** The text a JSON string literal's body stands for, or `None` when the body is not
      valid JSON (a bare quote or control character, an unknown escape). */
  function Unescape(t: string): Option<string>
  {
    if |t| == 0 then Some("")
    else if t[0] == '"' || t[0] as int < 32 then None
    else if t[0] != '\\' then Prepend(t[0], Unescape(t[1..]))
    else if |t| < 2 then None
    else if SimpleEscape(t[1]).Some? then Prepend(SimpleEscape(t[1]).value, Unescape(t[2..]))
    else if t[1] == 'u' && |t| >= 6 then
      var code := HexQuad(t[2..6]);
      if code.None? || (0xD800 <= code.value < 0xE000) then None
      else Prepend(code.value as char, Unescape(t[6..]))
    else None
  }

  lemma UnescapeEscapeChar(c: char, rest: string)
    ensures Unescape(EscapeChar(c) + rest) == Prepend(c, Unescape(rest))
  {
    var t := EscapeChar(c) + rest;
    if c == '"' || c == '\\' || c as int == 8 || c as int == 12 || c == '\n' || c == '\r' || c == '\t' {
      assert t[0] == '\\' && t[2..] == rest;
    } else if c as int < 32 {
      UnescapeControlChar(c, rest);
    } else {
      assert t[1..] == rest;
    }
  }

  /** A control character written as `\u00xx` reads back as itself. */
  lemma UnescapeControlChar(c: char, rest: string)
    requires c as int < 32
    ensures Unescape("\\u00" + [LowerDigit(c as int / 16), LowerDigit(c as int % 16)] + rest) == Prepend(c, Unescape(rest))
  {
    var hi, lo := LowerDigit(c as int / 16), LowerDigit(c as int % 16);
    var quad := ['0', '0', hi, lo];
    assert HexQuad(quad) == Some(c as int);
    var t := "\\u00" + [hi, lo] + rest;
    assert t == ['\\', 'u'] + quad + rest;
    assert t[0] == '\\' && t[1] == 'u' && t[2..6] == quad && t[6..] == rest;
  }

  /** Reading back what `JSON.stringify` wrote gives the original text. */
  lemma {:induction false} UnescapeEscapeBody(s: string)
    ensures Unescape(EscapeBody(s)) == Some(s)
  {
    if |s| > 0 {
      UnescapeEscapeBody(s[1..]);
      UnescapeEscapeChar(s[0], EscapeBody(s[1..]));
      assert s == [s[0]] + s[1..];
    }
  }

  const PayloadPrefix: string := "{\"background_color\":\""
  const PayloadSuffix: string := "\"}"

  /** The colour a `_theme` payload of the form `{"background_color":"..."}` carries. */
  function ThemeBackground(payload: string): Option<string>
  {
    if |payload| >= |PayloadPrefix| + |PayloadSuffix| &&
       payload[..|PayloadPrefix|] == PayloadPrefix &&
       payload[|payload| - |PayloadSuffix|..] == PayloadSuffix
    then Unescape(payload[|PayloadPrefix|..|payload| - |PayloadSuffix|])
    else None
  }

  /** A payload of the fixed form carries the text its body stands for. */
  lemma ThemeBackgroundOf(body: string)
    ensures ThemeBackground(PayloadPrefix + body + PayloadSuffix) == Unescape(body)
  {
    var payload := PayloadPrefix + body + PayloadSuffix;
    assert payload[..|PayloadPrefix|] == PayloadPrefix;
    assert payload[|payload| - |PayloadSuffix|..] == PayloadSuffix;
    assert payload[|PayloadPrefix|..|payload| - |PayloadSuffix|] == body;
  }

  /** `createDashboardTheme(config)`: one key, `_theme`, whose payload carries
      `paper_color` when it is non-empty and the default paper colour otherwise. The
      configured `background_color` is not read. */
  function CreateDashboardTheme(backgroundColor: Option<string>, paperColor: Option<string>): (r: Pairs)
    ensures |r| == 1 && r[0].0 == "_theme"
    ensures ThemeBackground(r[0].1) == Some(if Truthy(paperColor) then paperColor.value else DefaultDashboardPaperColor)
  {
    var color := OrDefault(paperColor, DefaultDashboardPaperColor);
    var payload := "{\"background_color\":" + JsonQuote(color) + "}";
    assert payload == PayloadPrefix + EscapeBody(color) + PayloadSuffix;
    ThemeBackgroundOf(EscapeBody(color));
    UnescapeEscapeBody(color);
    [("_theme", payload)]
  }

  /** The background colour has no effect on the theme. */
  lemma BackgroundColorIgnored(b1: Option<string>, b2: Option<string>, paperColor: Option<string>)
    ensures CreateDashboardTheme(b1, paperColor) == CreateDashboardTheme(b2, paperColor)
  {
  }
}
