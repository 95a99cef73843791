/**
 * The JSON text that `JSON.stringify` produces for an array of strings
 * (RFC 8259, sections 5 and 7), and a decoder for that text, so that the
 * encoding can be shown to lose nothing.
 */
module Json {
  import opened Wrappers

  function HexDigit(d: nat): (c: char)
    requires d < 16
  {
    if d < 10 then ('0' as int + d) as char else ('a' as int + d - 10) as char
  }

  predicate IsHexDigit(c: char) {
    '0' <= c <= '9' || 'a' <= c <= 'f' || 'A' <= c <= 'F'
  }

  function HexValue(c: char): (d: nat)
    requires IsHexDigit(c)
    ensures d < 16
  {
    if '0' <= c <= '9' then c as int - '0' as int
    else if 'a' <= c <= 'f' then c as int - 'a' as int + 10
    else c as int - 'A' as int + 10
  }

  lemma HexValueOfHexDigit(d: nat)
    requires d < 16
    ensures IsHexDigit(HexDigit(d)) && HexValue(HexDigit(d)) == d
  {
  }

  /** The characters JSON.stringify writes as a two-character escape. */
  function ShortEscape(c: char): Option<char> {
    if c == '"' then Some('"')
    else if c == '\\' then Some('\\')
    else if c == '\U{8}' then Some('b')
    else if c == '\U{C}' then Some('f')
    else if c == '\n' then Some('n')
    else if c == '\r' then Some('r')
    else if c == '\t' then Some('t')
    else None
  }

  /** How JSON.stringify writes one character inside a string literal. */
  function EscapeChar(c: char): (e: string)
    ensures 1 <= |e|
    ensures |e| == 1 <==> e == [c]
  {
    match ShortEscape(c)
    case Some(k) => ['\\', k]
    case None =>
      if c < ' ' then ['\\', 'u', '0', '0', HexDigit(c as int / 16), HexDigit(c as int % 16)]
      else [c]
  }

  function EscapeString(s: string): string {
    if s == [] then [] else EscapeChar(s[0]) + EscapeString(s[1..])
  }

  /** `JSON.stringify(s)` for a string `s`. */
  function Quote(s: string): string {
    "\"" + EscapeString(s) + "\""
  }

  /** The elements of the array, quoted and separated by commas, then the closing bracket. */
  function Elements(xs: seq<string>): (e: string)
    ensures |e| >= 1 && e[|e| - 1] == ']'
    ensures xs != [] ==> e[0] == '"'
  {
    if xs == [] then "]"
    else if |xs| == 1 then Quote(xs[0]) + "]"
    else Quote(xs[0]) + ("," + Elements(xs[1..]))
  }

  /** `JSON.stringify(xs)` for an array of strings. */
  function EncodeStrings(xs: seq<string>): (t: string)
    ensures |t| >= 2 && t[0] == '[' && t[|t| - 1] == ']'
    ensures xs == [] <==> t == "[]"
  {
    "[" + Elements(xs)
  }

  // ---------------------------------------------------------------------------
  // Decoding: the reference reading of the text above.

  /** Reads the escape sequence that follows a backslash; returns the character and the rest. */
  function DecodeEscape(u: string): (r: Option<(char, string)>)
    ensures r.Some? ==> |r.value.1| < |u|
  {
    if u == [] then None
    else if u[0] == '"' then Some(('"', u[1..]))
    else if u[0] == '\\' then Some(('\\', u[1..]))
    else if u[0] == '/' then Some(('/', u[1..]))
    else if u[0] == 'b' then Some(('\U{8}', u[1..]))
    else if u[0] == 'f' then Some(('\U{C}', u[1..]))
    else if u[0] == 'n' then Some(('\n', u[1..]))
    else if u[0] == 'r' then Some(('\r', u[1..]))
    else if u[0] == 't' then Some(('\t', u[1..]))
    else if u[0] == 'u' && |u| >= 5 && IsHexDigit(u[1]) && IsHexDigit(u[2]) && IsHexDigit(u[3]) && IsHexDigit(u[4]) then
      var code := ((HexValue(u[1]) * 16 + HexValue(u[2])) * 16 + HexValue(u[3])) * 16 + HexValue(u[4]);
      if 0xD800 <= code < 0xE000 then None else Some((code as char, u[5..]))
    else None
  }

  /**
   * Reads the body of a string literal whose opening quote has been consumed:
   * returns the decoded string and what follows the closing quote.
   */
  function DecodeBody(t: string): (r: Option<(string, string)>)
    ensures r.Some? ==> |r.value.1| < |t|
    decreases |t|
  {
    if t == [] then None
    else if t[0] == '"' then Some(([], t[1..]))
    else if t[0] == '\\' then
      match DecodeEscape(t[1..])
      case None => None
      case Some((c, rest)) =>
        match DecodeBody(rest)
        case None => None
        case Some((s, after)) => Some(([c] + s, after))
    else if t[0] < ' ' then None
    else
      match DecodeBody(t[1..])
      case None => None
      case Some((s, after)) => Some(([t[0]] + s, after))
  }

  /** Reads `"..."` followed by `,` and more elements, or by the closing `]` and nothing else. */
  function DecodeElements(t: string): Option<seq<string>>
    decreases |t|
  {
    if t == [] || t[0] != '"' then None
    else
      match DecodeBody(t[1..])
      case None => None
      case Some((s, rest)) =>
        if rest == "]" then Some([s])
        else if rest != [] && rest[0] == ',' then
          match DecodeElements(rest[1..])
          case None => None
          case Some(xs) => Some([s] + xs)
        else None
  }

  /** Reads a JSON array of strings written without insignificant whitespace. */
  function DecodeStrings(t: string): Option<seq<string>> {
    if t == "[]" then Some([])
    else if t != [] && t[0] == '[' then DecodeElements(t[1..])
    else None
  }

  // ---------------------------------------------------------------------------
  // Round trip

  lemma DecodeEscapeOfEscapeChar(c: char, tail: string)
    requires EscapeChar(c) != [c]
    ensures EscapeChar(c)[0] == '\\'
    ensures DecodeEscape(EscapeChar(c)[1..] + tail) == Some((c, tail))
  {
    var e := EscapeChar(c);
    var u := e[1..] + tail;
    if ShortEscape(c).None? {
      var hi, lo := c as int / 16, c as int % 16;
      HexValueOfHexDigit(hi);
      HexValueOfHexDigit(lo);
      assert u[0] == 'u' && u[1] == '0' && u[2] == '0' && u[3] == HexDigit(hi) && u[4] == HexDigit(lo);
      assert u[5..] == tail;
    } else {
      assert u[1..] == tail;
    }
  }

  /** Decoding one escaped character in front of text that decodes. */
  lemma DecodeBodyStep(c: char, tail: string, s: string, rest: string)
    requires DecodeBody(tail) == Some((s, rest))
    ensures DecodeBody(EscapeChar(c) + tail) == Some(([c] + s, rest))
  {
    var e := EscapeChar(c);
    var t := e + tail;
    if e == [c] {
      assert t[0] == c && t[1..] == tail;
      assert c != '"' && c != '\\' && c >= ' ';
    } else {
      DecodeEscapeOfEscapeChar(c, tail);
      assert t[1..] == e[1..] + tail;
    }
  }

  /** The first character's escape comes off the front of an escaped string and what follows it. */
  lemma EscapedThen(s: string, rest: string)
    requires s != []
    ensures EscapeString(s) + "\"" + rest == EscapeChar(s[0]) + (EscapeString(s[1..]) + "\"" + rest)
  {
    var e, m := EscapeChar(s[0]), EscapeString(s[1..]);
    assert EscapeString(s) == e + m;
    assert (e + m) + "\"" == e + (m + "\"");
    assert (e + (m + "\"")) + rest == e + ((m + "\"") + rest);
  }

  lemma {:induction false} DecodeBodyOfEscaped(s: string, rest: string)
    ensures DecodeBody(EscapeString(s) + "\"" + rest) == Some((s, rest))
    decreases |s|
  {
    if s == [] {
      var t := EscapeString(s) + "\"" + rest;
      assert t == "\"" + rest;
      assert t[1..] == rest;
    } else {
      EscapedThen(s, rest);
      DecodeBodyOfEscaped(s[1..], rest);
      DecodeBodyStep(s[0], EscapeString(s[1..]) + "\"" + rest, s[1..], rest);
      assert [s[0]] + s[1..] == s;
    }
  }

  /** A quoted string followed by more text, regrouped so that the opening quote comes off first. */
  lemma QuoteThen(x: string, after: string)
    ensures Quote(x) + after == "\"" + (EscapeString(x) + "\"" + after)
  {
    var e := EscapeString(x);
    assert ("\"" + e + "\"") + after == "\"" + (e + "\"") + after;
    assert ("\"" + (e + "\"")) + after == "\"" + ((e + "\"") + after);
  }

  /** One step of DecodeElements on a quoted string followed by `after`. */
  lemma DecodeElementsStep(x: string, after: string)
    ensures DecodeElements(Quote(x) + after) ==
      if after == "]" then Some([x])
      else if after != [] && after[0] == ',' then
        match DecodeElements(after[1..])
        case None => None
        case Some(ys) => Some([x] + ys)
      else None
  {
    var u := EscapeString(x) + "\"" + after;
    QuoteThen(x, after);
    assert ("\"" + u)[1..] == u;
    DecodeBodyOfEscaped(x, after);
  }

  lemma {:induction false} DecodeElementsOfElements(xs: seq<string>)
    requires xs != []
    ensures DecodeElements(Elements(xs)) == Some(xs)
    decreases |xs|
  {
    var x := xs[0];
    if |xs| == 1 {
      DecodeElementsStep(x, "]");
      assert [x] == xs;
    } else {
      var after := "," + Elements(xs[1..]);
      DecodeElementsStep(x, after);
      assert after != "]" by { assert |after| > 1; }
      assert after[1..] == Elements(xs[1..]);
      DecodeElementsOfElements(xs[1..]);
      assert [x] + xs[1..] == xs;
    }
  }

  /** Decoding the text JSON.stringify gives an array of strings returns that array. */
  lemma EncodeStringsRoundTrip(xs: seq<string>)
    ensures DecodeStrings(EncodeStrings(xs)) == Some(xs)
  {
    var t := EncodeStrings(xs);
    if xs != [] {
      assert t[1..] == Elements(xs);
      DecodeElementsOfElements(xs);
    }
  }

  /** Different arrays give different texts. */
  lemma EncodeStringsInjective(xs: seq<string>, ys: seq<string>)
    requires EncodeStrings(xs) == EncodeStrings(ys)
    ensures xs == ys
  {
    EncodeStringsRoundTrip(xs);
    EncodeStringsRoundTrip(ys);
  }
}
