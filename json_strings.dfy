/**
 * `JSON.parse` restricted to what the hierarchical director is asked to return:
 * an array whose elements are JSON strings (RFC 8259, section 5 for arrays,
 * section 7 for strings, section 2 for insignificant whitespace). Any other
 * text, including well-formed JSON whose elements are not strings, is refused
 * with None. Parsers consume a prefix of their input and return the rest.
 */
module JsonStrings {
  import opened Wrappers

  /** Insignificant whitespace of RFC 8259 section 2: space, tab, line feed, carriage return. */
  predicate IsJsonWs(c: char) {
    c == ' ' || c == '\t' || c == '\n' || c == '\r'
  }

  function SkipWs(s: string): (t: string)
    ensures |t| <= |s|
    ensures t == [] || !IsJsonWs(t[0])
    ensures s != [] && !IsJsonWs(s[0]) ==> t == s
  {
    if s != [] && IsJsonWs(s[0]) then SkipWs(s[1..]) else s
  }

  function HexValue(c: char): (r: Option<nat>)
    ensures r.Some? ==> r.value < 16
  {
    if '0' <= c <= '9' then Some(c as int - '0' as int)
    else if 'a' <= c <= 'f' then Some(c as int - 'a' as int + 10)
    else if 'A' <= c <= 'F' then Some(c as int - 'A' as int + 10)
    else None
  }

  /** Four hexadecimal digits (either case) and what follows them. */
  function ParseHex4(s: string): (r: Option<(nat, string)>)
    ensures r.Some? ==> r.value.0 < 0x10000 && |s| >= 4 && r.value.1 == s[4..]
  {
    if |s| < 4 then None
    else match (HexValue(s[0]), HexValue(s[1]), HexValue(s[2]), HexValue(s[3]))
      case (Some(a), Some(b), Some(c), Some(d)) => Some((((a * 16 + b) * 16 + c) * 16 + d, s[4..]))
      case _ => None
  }

  predicate IsHighSurrogate(v: int) { 0xD800 <= v <= 0xDBFF }
  predicate IsLowSurrogate(v: int) { 0xDC00 <= v <= 0xDFFF }

  /**
   * The text after `\u`: one code unit that is not a surrogate, or a high and a
   * low surrogate written as two escapes, combined into one code point.
   * A lone surrogate has no `char` here and is refused.
   */
  function ParseUnicodeEscape(s: string): (r: Option<(char, string)>)
    ensures r.Some? ==> |r.value.1| < |s|
  {
    match ParseHex4(s)
    case None => None
    case Some((v, rest)) =>
      if IsLowSurrogate(v) then None
      else if IsHighSurrogate(v) then
        if |rest| >= 2 && rest[0] == '\\' && rest[1] == 'u' then
          match ParseHex4(rest[2..])
          case Some((w, rest2)) =>
            if IsLowSurrogate(w) then Some(((0x10000 + (v - 0xD800) * 0x400 + (w - 0xDC00)) as char, rest2))
            else None
          case None => None
        else None
      else Some((v as char, rest))
  }

  /** The text after a backslash inside a string: the escaped character and what follows it. */
  function ParseEscape(s: string): (r: Option<(char, string)>)
    ensures r.Some? ==> |r.value.1| < |s|
  {
    if s == [] then None
    else match s[0]
      case '"' => Some(('"', s[1..]))
      case '\\' => Some(('\\', s[1..]))
      case '/' => Some(('/', s[1..]))
      case 'b' => Some(('\U{8}', s[1..]))
      case 'f' => Some(('\U{C}', s[1..]))
      case 'n' => Some(('\n', s[1..]))
      case 'r' => Some(('\r', s[1..]))
      case 't' => Some(('\t', s[1..]))
      case 'u' => ParseUnicodeEscape(s[1..])
      case _ => None
  }

  /**
   * The text after an opening quote: the decoded characters up to the closing
   * quote, and what follows that quote. Control characters must be escaped.
   */
  function ParseStringTail(s: string): (r: Option<(string, string)>)
    ensures r.Some? ==> |r.value.1| < |s|
    decreases |s|
  {
    if s == [] then None
    else if s[0] == '"' then Some(([], s[1..]))
    else if s[0] == '\\' then
      match ParseEscape(s[1..])
      case None => None
      case Some((c, rest)) =>
        match ParseStringTail(rest)
        case None => None
        case Some((t, rest2)) => Some(([c] + t, rest2))
    else if s[0] < ' ' then None
    else
      match ParseStringTail(s[1..])
      case None => None
      case Some((t, rest)) => Some(([s[0]] + t, rest))
  }

  /** `string ws (',' ws string ws)* ']'`, starting at the first string. */
  function ParseElements(s: string): (r: Option<(seq<string>, string)>)
    ensures r.Some? ==> |r.value.0| > 0 && |r.value.1| < |s|
    decreases |s|
  {
    if s == [] || s[0] != '"' then None
    else
      match ParseStringTail(s[1..])
      case None => None
      case Some((x, rest)) =>
        var r := SkipWs(rest);
        if r == [] then None
        else if r[0] == ']' then Some(([x], r[1..]))
        else if r[0] == ',' then
          match ParseElements(SkipWs(r[1..]))
          case None => None
          case Some((xs, rest2)) => Some(([x] + xs, rest2))
        else None
  }

  /** The whole text is one JSON array of strings, surrounded by optional whitespace. */
  function ParseStringArray(t: string): (r: Option<seq<string>>)
    ensures r.Some? ==> SkipWs(t) != [] && SkipWs(t)[0] == '['
  {
    var s := SkipWs(t);
    if s == [] || s[0] != '[' then None
    else
      var s1 := SkipWs(s[1..]);
      if s1 != [] && s1[0] == ']' then
        if SkipWs(s1[1..]) == [] then Some([]) else None
      else
        match ParseElements(s1)
        case None => None
        case Some((xs, rest)) => if SkipWs(rest) == [] then Some(xs) else None
  }

  // ---------------------------------------------------------------------------
  // Rendering: the partner of the parser. Quote and backslash are escaped with a
  // backslash, other control characters as \u00XX, every other character as is.

  function HexDigit(d: nat): char
    requires d < 16
  {
    "0123456789abcdef"[d]
  }

  function EscapeChar(c: char): string {
    if c == '"' then ['\\', '"']
    else if c == '\\' then ['\\', '\\']
    else if c < ' ' then ['\\', 'u', '0', '0', HexDigit(c as int / 16), HexDigit(c as int % 16)]
    else [c]
  }

  function EscapeBody(x: string): string {
    if x == [] then [] else EscapeChar(x[0]) + EscapeBody(x[1..])
  }

  function RenderString(x: string): string {
    ['"'] + EscapeBody(x) + ['"']
  }

  function RenderElements(xs: seq<string>): string
    requires |xs| > 0
  {
    if |xs| == 1 then RenderString(xs[0]) else RenderString(xs[0]) + ", " + RenderElements(xs[1..])
  }

  /** A JSON array of strings, elements separated by ", ". */
  function RenderStringArray(xs: seq<string>): string {
    if xs == [] then "[]" else "[" + RenderElements(xs) + "]"
  }

  /** A string that needs no escaping renders as itself between quotes. */
  lemma {:induction false} EscapeBodyPlain(x: string)
    requires forall i :: 0 <= i < |x| ==> x[i] != '"' && x[i] != '\\' && x[i] >= ' '
    ensures EscapeBody(x) == x
  {
    if x != [] {
      EscapeBodyPlain(x[1..]);
    }
  }

  lemma HexDigitValue(d: nat)
    requires d < 16
    ensures HexValue(HexDigit(d)) == Some(d)
  {
  }

  /** A control character written as \u00XX is read back as itself. */
  lemma ControlEscapeRead(c: char, rest: string)
    requires c < ' '
    ensures ParseEscape(EscapeChar(c)[1..] + rest) == Some((c, rest))
  {
    var hi, lo := c as int / 16, c as int % 16;
    HexDigitValue(hi);
    HexDigitValue(lo);
    var u := EscapeChar(c)[1..] + rest;
    assert u == ['u', '0', '0', HexDigit(hi), HexDigit(lo)] + rest;
    assert u[1..] == ['0', '0', HexDigit(hi), HexDigit(lo)] + rest;
    assert ParseHex4(u[1..]) == Some((c as int, rest));
  }

  /** One escaped character is read back as itself. */
  lemma EscapeCharRoundTrip(c: char, rest: string)
    ensures ParseStringTail(EscapeChar(c) + rest) ==
      match ParseStringTail(rest)
      case None => None
      case Some((t, r)) => Some(([c] + t, r))
  {
    var s := EscapeChar(c) + rest;
    if c == '"' || c == '\\' {
      assert s[1..] == [c] + rest;
    } else if c < ' ' {
      ControlEscapeRead(c, rest);
      assert s[1..] == EscapeChar(c)[1..] + rest;
    } else {
      assert s[1..] == rest;
    }
  }

  /** Reading a rendered string body up to its closing quote gives back the string. */
  lemma {:induction false} StringTailRoundTrip(x: string, rest: string)
    ensures ParseStringTail(EscapeBody(x) + ['"'] + rest) == Some((x, rest))
  {
    if x == [] {
      assert EscapeBody(x) + ['"'] + rest == ['"'] + rest;
    } else {
      var tail := EscapeBody(x[1..]) + ['"'] + rest;
      assert EscapeBody(x) + ['"'] + rest == EscapeChar(x[0]) + tail;
      StringTailRoundTrip(x[1..], rest);
      EscapeCharRoundTrip(x[0], tail);
      assert [x[0]] + x[1..] == x;
    }
  }

  /** How ParseElements continues once its first string has been read. */
  lemma ElementsAfterClose(s: string, x: string, after: string)
    requires s != [] && s[0] == '"' && ParseStringTail(s[1..]) == Some((x, after))
    requires after != [] && after[0] == ']'
    ensures ParseElements(s) == Some(([x], after[1..]))
  {
    assert SkipWs(after) == after;
  }

  lemma ElementsAfterComma(s: string, x: string, after: string, ys: seq<string>, rest: string)
    requires s != [] && s[0] == '"' && ParseStringTail(s[1..]) == Some((x, after))
    requires after != [] && after[0] == ','
    requires ParseElements(SkipWs(after[1..])) == Some((ys, rest))
    ensures ParseElements(s) == Some(([x] + ys, rest))
  {
    assert SkipWs(after) == after;
  }

  /** A rendered string followed by anything is read back up to its closing quote. */
  lemma RenderedStringRead(x: string, tail: string)
    ensures var s := RenderString(x) + tail;
      s != [] && s[0] == '"' && ParseStringTail(s[1..]) == Some((x, tail))
  {
    var s := RenderString(x) + tail;
    assert s[1..] == EscapeBody(x) + ['"'] + tail;
    StringTailRoundTrip(x, tail);
  }

  lemma RenderElementsStart(xs: seq<string>, tail: string)
    requires |xs| > 0
    ensures var s := RenderElements(xs) + tail; s != [] && s[0] == '"' && !IsJsonWs(s[0])
  {
  }

  lemma ElementsRoundTripOne(xs: seq<string>, rest: string)
    requires |xs| == 1
    ensures ParseElements(RenderElements(xs) + "]" + rest) == Some((xs, rest))
  {
    var s := RenderElements(xs) + "]" + rest;
    var after := "]" + rest;
    assert s == RenderString(xs[0]) + after;
    RenderedStringRead(xs[0], after);
    ElementsAfterClose(s, xs[0], after);
    assert after[1..] == rest;
    assert [xs[0]] == xs;
  }

  lemma SkipOneSpace(next: string)
    requires next != [] && !IsJsonWs(next[0])
    ensures SkipWs([' '] + next) == next
  {
    assert ([' '] + next)[1..] == next;
  }

  /** A string, the separator ", " and a parsable rest of elements parse as one longer list. */
  lemma ElementsCons(s: string, x: string, next: string, ys: seq<string>, rest: string)
    requires s != [] && s[0] == '"' && ParseStringTail(s[1..]) == Some((x, ", " + next))
    requires next != [] && next[0] == '"'
    requires ParseElements(next) == Some((ys, rest))
    ensures ParseElements(s) == Some(([x] + ys, rest))
  {
    var after := ", " + next;
    assert after[0] == ',';
    assert after[1..] == [' '] + next;
    SkipOneSpace(next);
    assert SkipWs(after[1..]) == next;
    ElementsAfterComma(s, x, after, ys, rest);
  }

  /** Regrouping concatenations, stated on variables so that no literal is unfolded. */
  lemma RegroupFive(a: string, b: string, c: string, d: string, e: string)
    ensures a + b + c + d + e == a + (b + (c + d + e))
  {
  }

  lemma RegroupFour(a: string, b: string, c: string, d: string)
    ensures a + b + c + d == a + (b + c + d)
  {
  }

  lemma RegroupTail(a: string, b: string, c: string, d: string)
    ensures a + b + c + d == a + (b + (c + d))
  {
  }

  lemma RenderElementsSplit(xs: seq<string>, rest: string)
    requires |xs| > 1
    ensures RenderElements(xs) + "]" + rest == RenderString(xs[0]) + (", " + (RenderElements(xs[1..]) + "]" + rest))
  {
    RegroupFive(RenderString(xs[0]), ", ", RenderElements(xs[1..]), "]", rest);
  }

  lemma ElementsRoundTripStep(xs: seq<string>, rest: string)
    requires |xs| > 1
    requires ParseElements(RenderElements(xs[1..]) + "]" + rest) == Some((xs[1..], rest))
    ensures ParseElements(RenderElements(xs) + "]" + rest) == Some((xs, rest))
  {
    var next := RenderElements(xs[1..]) + "]" + rest;
    var s := RenderElements(xs) + "]" + rest;
    RenderElementsSplit(xs, rest);
    RenderedStringRead(xs[0], ", " + next);
    RenderElementsStart(xs[1..], "]" + rest);
    ElementsCons(s, xs[0], next, xs[1..], rest);
    assert [xs[0]] + xs[1..] == xs;
  }

  lemma {:induction false} ElementsRoundTrip(xs: seq<string>, rest: string)
    requires |xs| > 0
    ensures ParseElements(RenderElements(xs) + "]" + rest) == Some((xs, rest))
  {
    if |xs| == 1 {
      ElementsRoundTripOne(xs, rest);
    } else {
      ElementsRoundTrip(xs[1..], rest);
      ElementsRoundTripStep(xs, rest);
    }
  }

  /** An array text that opens with "[]". */
  lemma EmptyArrayRead(t: string, trailer: string)
    requires t == "[]" + trailer
    ensures ParseStringArray(t) == if SkipWs(trailer) == [] then Some([]) else None
  {
    assert t[1..] == "]" + trailer;
    assert t[1..][1..] == trailer;
  }

  /** An array text that opens with "[" directly followed by its elements. */
  lemma ElementsArrayRead(t: string, body: string, xs: seq<string>, rest: string)
    requires t == ['['] + body && body != [] && body[0] == '"'
    requires ParseElements(body) == Some((xs, rest))
    ensures ParseStringArray(t) == if SkipWs(rest) == [] then Some(xs) else None
  {
    assert t[1..] == body;
  }

  /** Every array of strings the renderer writes is parsed back to the same array. */
  lemma ArrayRoundTrip(xs: seq<string>)
    ensures ParseStringArray(RenderStringArray(xs)) == Some(xs)
  {
    if xs == [] {
      EmptyArrayRead(RenderStringArray(xs), "");
    } else {
      var body := RenderElements(xs) + "]" + "";
      RegroupFour("[", RenderElements(xs), "]", "");
      assert RenderStringArray(xs) == ['['] + body;
      ElementsRoundTrip(xs, "");
      RenderElementsStart(xs, "]");
      ElementsArrayRead(RenderStringArray(xs), body, xs, "");
    }
  }

  /** A rendered array opens with '[' and closes with ']'. */
  lemma ArrayBrackets(xs: seq<string>)
    ensures var t := RenderStringArray(xs); |t| >= 2 && t[0] == '[' && t[|t| - 1] == ']'
  {
  }

  /** Text after a complete array that is not whitespace makes the whole text unparsable. */
  lemma TrailingTextRefused(xs: seq<string>, trailer: string)
    requires SkipWs(trailer) != []
    ensures ParseStringArray(RenderStringArray(xs) + trailer) == None
  {
    var t := RenderStringArray(xs) + trailer;
    if xs == [] {
      EmptyArrayRead(t, trailer);
    } else {
      var body := RenderElements(xs) + "]" + trailer;
      RegroupFour("[", RenderElements(xs), "]", trailer);
      assert t == ['['] + body;
      ElementsRoundTrip(xs, trailer);
      RenderElementsStart(xs, "]" + trailer);
      ElementsArrayRead(t, body, xs, trailer);
    }
  }
}
