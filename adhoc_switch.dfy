/** `SwitchToAdhocDashboard.handleSwitch`: the URL pushed to switch to the ad-hoc view of a
    list of dashboards, `/dashboards[/id1/id2...]?k=v&...`. */
module AdhocSwitch {
  import opened Wrappers
  import opened Strings
  import opened Records
  import Hex

  /** The path: `/dashboards`, then `/` and the ids joined by `/` when there are any. */
  function AdhocPath(ids: seq<string>): string
  {
    "/dashboards" + (if |ids| > 0 then "/" + Join(ids, "/") else "")
  }

  /** The reading of an ad-hoc path back into its ids: `/dashboards` alone is the empty
      list, `/dashboards/` followed by text is that text's `/`-separated segments. */
  function DecodeAdhocPath(path: string): Option<seq<string>>
  {
    if path == "/dashboards" then Some([])
    else if StartsWith(path, "/dashboards/") then Some(Split(path[12..], '/'))
    else None
  }

  /** The path keeps every id, in order, duplicates included, when no id contains `/`. */
  lemma AdhocPathRoundTrip(ids: seq<string>)
    requires forall i :: 0 <= i < |ids| ==> '/' !in ids[i]
    ensures DecodeAdhocPath(AdhocPath(ids)) == Some(ids)
  {
    if |ids| > 0 {
      var path := AdhocPath(ids);
      assert path == "/dashboards/" + Join(ids, "/");
      assert path[12..] == Join(ids, "/");
      assert path != "/dashboards" by { assert |path| >= 12; }
      SplitJoin(ids, '/');
    }
  }

  /** The pieces `key=value` of a query, written as they are. */
  function RawPieces(params: Pairs): (r: seq<string>)
    ensures |r| == |params|
  {
    seq(|params|, i requires 0 <= i < |params| => params[i].0 + "=" + params[i].1)
  }

  /** The query string as the source writes it: `key=value` pieces joined by `&`, with no
      percent-encoding. */
  function RawQueryString(params: Pairs): string
  {
    Join(RawPieces(params), "&")
  }

  /** The URL `handleSwitch` pushes, as written. */
  function SwitchTargetAsWritten(ids: seq<string>, params: Pairs): string
  {
    AdhocPath(ids) + "?" + RawQueryString(params)
  }

  /** The `?` is always present and, when no id holds one, the first `?` separates the
      path from the raw query, even when there are no parameters. */
  lemma SwitchTargetAsWrittenSplits(ids: seq<string>, params: Pairs)
    requires forall i :: 0 <= i < |ids| ==> '?' !in ids[i]
    ensures SplitAtFirst(SwitchTargetAsWritten(ids, params), '?') == (AdhocPath(ids), Some(RawQueryString(params)))
  {
    JoinAvoids(ids, "/", '?');
    SplitAtFirstOf(AdhocPath(ids), '?', RawQueryString(params));
  }

  /** Two different parameter lists give the same query string: a value holding `&` and
      `=` is read back as a second parameter. */
  lemma RawQueryStringAmbiguous()
    ensures RawQueryString([("a", "x&b=y")]) == RawQueryString([("a", "x"), ("b", "y")])
    ensures [("a", "x&b=y")] != [("a", "x"), ("b", "y")]
  {
    var one, two := RawPieces([("a", "x&b=y")]), RawPieces([("a", "x"), ("b", "y")]);
    assert |one| == 1 && one[0] == "a" + "=" + "x&b=y" == "a=x&b=y";
    assert one == ["a=x&b=y"];
    assert |two| == 2 && two[0] == "a" + "=" + "x" == "a=x" && two[1] == "b" + "=" + "y" == "b=y";
    assert two == ["a=x", "b=y"];
    assert Join(["a=x", "b=y"], "&") == "a=x" + "&" + Join(["b=y"], "&");
  }

  // ---------------------------------------------------------------------------
  // The query string written with percent-encoding, which reads back exactly.

  /** The characters that would change the meaning of a query if written literally. */
  predicate MustEscape(c: char)
  {
    c == '%' || c == '&' || c == '=' || c == '+' || c == '#'
  }

  function EscapeChar(c: char): string
  {
    if MustEscape(c) then ['%', Hex.UpperDigit(c as int / 16), Hex.UpperDigit(c as int % 16)]
    else [c]
  }

  function PercentEncode(s: string): string
  {
    if |s| == 0 then "" else EscapeChar(s[0]) + PercentEncode(s[1..])
  }

  /** The decoding of a name or value by the `application/x-www-form-urlencoded` parser
      (section 5.1 of the WHATWG URL Standard): `+` is a space and `%XX` the character with
      code `XX`. Only escapes of ASCII characters are decoded here. */
  function PercentDecode(s: string): string
  {
    if |s| == 0 then ""
    else if s[0] == '+' then " " + PercentDecode(s[1..])
    else if s[0] == '%' && |s| >= 3 && Hex.DigitValue(s[1]).Some? && Hex.DigitValue(s[2]).Some?
      && Hex.DigitValue(s[1]).value < 8
    then [(Hex.DigitValue(s[1]).value * 16 + Hex.DigitValue(s[2]).value) as char] + PercentDecode(s[3..])
    else [s[0]] + PercentDecode(s[1..])
  }

  /** The `application/x-www-form-urlencoded` parser: pieces between `&`, empty pieces
      skipped, each split at its first `=`. */
  function FormDecode(query: string): Pairs
  {
    DecodePieces(Split(query, '&'))
  }

  function DecodePieces(pieces: seq<string>): Pairs
  {
    if |pieces| == 0 then []
    else if pieces[0] == "" then DecodePieces(pieces[1..])
    else
      var (name, value) := SplitAtFirst(pieces[0], '=');
      [(PercentDecode(name), PercentDecode(value.GetOr("")))] + DecodePieces(pieces[1..])
  }

  lemma DecodeEscaped(c: char, rest: string)
    ensures PercentDecode(EscapeChar(c) + rest) == [c] + PercentDecode(rest)
  {
    var s := EscapeChar(c) + rest;
    if MustEscape(c) {
      assert s[0] == '%' && s[3..] == rest;
      assert Hex.DigitValue(s[1]) == Some(c as int / 16);
      assert Hex.DigitValue(s[2]) == Some(c as int % 16);
    } else {
      assert s[1..] == rest;
    }
  }

  lemma {:induction false} PercentRoundTrip(s: string)
    ensures PercentDecode(PercentEncode(s)) == s
  {
    if |s| > 0 {
      PercentRoundTrip(s[1..]);
      DecodeEscaped(s[0], PercentEncode(s[1..]));
      assert s == [s[0]] + s[1..];
    }
  }

  lemma {:induction false} EncodedAvoids(s: string, c: char)
    requires MustEscape(c) && c != '%'
    ensures c !in PercentEncode(s)
  {
    if |s| > 0 {
      EncodedAvoids(s[1..], c);
      var d := s[0] as int;
      if MustEscape(s[0]) {
        assert Hex.DigitValue(Hex.UpperDigit(d / 16)).Some?;
        assert Hex.DigitValue(Hex.UpperDigit(d % 16)).Some?;
      }
    }
  }

  /** The pieces `key=value` of a query, each side percent-encoded. */
  function EncodedPieces(params: Pairs): (r: seq<string>)
    ensures |r| == |params|
  {
    seq(|params|, i requires 0 <= i < |params| => PercentEncode(params[i].0) + "=" + PercentEncode(params[i].1))
  }

  function EncodedQueryString(params: Pairs): string
  {
    Join(EncodedPieces(params), "&")
  }

  lemma {:induction false} DecodeEncodedPieces(params: Pairs)
    ensures DecodePieces(EncodedPieces(params)) == params
  {
    if |params| > 0 {
      var pieces := EncodedPieces(params);
      assert pieces[1..] == EncodedPieces(params[1..]);
      DecodeEncodedPieces(params[1..]);
      var (k, v) := params[0];
      EncodedAvoids(k, '=');
      SplitAtFirstOf(PercentEncode(k), '=', PercentEncode(v));
      assert pieces[0] == PercentEncode(k) + ['='] + PercentEncode(v);
      PercentRoundTrip(k);
      PercentRoundTrip(v);
      assert params == [params[0]] + params[1..];
    }
  }

  /** Every list of parameters reads back from its encoded query string. */
  lemma EncodedQueryRoundTrip(params: Pairs)
    ensures FormDecode(EncodedQueryString(params)) == params
  {
    var pieces := EncodedPieces(params);
    if |params| > 0 {
      forall i | 0 <= i < |pieces| ensures '&' !in pieces[i] {
        EncodedAvoids(params[i].0, '&');
        EncodedAvoids(params[i].1, '&');
      }
      SplitJoin(pieces, '&');
    }
    DecodeEncodedPieces(params);
  }

  /** The URL `handleSwitch` evidently means to push: the same path, and the query with its
      names and values percent-encoded. */
  function SwitchTarget(ids: seq<string>, params: Pairs): string
  {
    AdhocPath(ids) + "?" + EncodedQueryString(params)
  }

  /** The ids and every parameter read back from the pushed URL, when no id holds `/` or
      `?`. */
  lemma SwitchTargetRoundTrip(ids: seq<string>, params: Pairs)
    requires forall i :: 0 <= i < |ids| ==> '/' !in ids[i] && '?' !in ids[i]
    ensures var (path, query) := SplitAtFirst(SwitchTarget(ids, params), '?');
      DecodeAdhocPath(path) == Some(ids) && query.Some? && FormDecode(query.value) == params
  {
    JoinAvoids(ids, "/", '?');
    SplitAtFirstOf(AdhocPath(ids), '?', EncodedQueryString(params));
    AdhocPathRoundTrip(ids);
    EncodedQueryRoundTrip(params);
  }
}
