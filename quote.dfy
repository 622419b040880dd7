/**
 * The two string quotings the client writes: the JSON string encoding that
 * `encoding/json` applies to the request body (with its HTML-safe escapes),
 * and Go's `%q` verb, used for the response body in a status error. Each is
 * paired with the reader that undoes it.
 */
module Quote {
  import opened Wrappers

  // ---------------------------------------------------------------------
  // Hexadecimal digits

  function HexDigit(n: nat): char
    requires n < 16
  {
    "0123456789abcdef"[n]
  }

  function HexValue(c: char): (r: Option<nat>)
    ensures r.Some? ==> r.value < 16
  {
    if '0' <= c <= '9' then Some(c as nat - '0' as nat)
    else if 'a' <= c <= 'f' then Some(c as nat - 'a' as nat + 10)
    else if 'A' <= c <= 'F' then Some(c as nat - 'A' as nat + 10)
    else None
  }

  lemma HexRoundTrip(n: nat)
    requires n < 16
    ensures HexValue(HexDigit(n)) == Some(n)
  {
  }

  /** Two lower-case hex digits of a byte value. */
  function Hex2(n: nat): string
    requires n < 256
  {
    [HexDigit(n / 16), HexDigit(n % 16)]
  }

  // ---------------------------------------------------------------------
  // JSON strings, as `encoding/json` writes them with HTML escaping on

  /** Characters written as `\u00XX`: control characters other than the
      three with a short escape, and the HTML-sensitive `<`, `>`, `&`. */
  predicate JsonHexEscaped(c: char)
  {
    (c < ' ' && c != '\n' && c != '\r' && c != '\t') || c == '<' || c == '>' || c == '&'
  }

  /** The line and paragraph separators U+2028 and U+2029, which get a
      `\u` escape of their own. */
  predicate LineSeparator(c: char)
  {
    c == '\U{2028}' || c == '\U{2029}'
  }

  function JsonEscapeChar(c: char): (r: string)
    ensures |r| > 0
  {
    if c == '"' then "\\\""
    else if c == '\\' then "\\\\"
    else if c == '\n' then "\\n"
    else if c == '\r' then "\\r"
    else if c == '\t' then "\\t"
    else if JsonHexEscaped(c) then "\\u00" + Hex2(c as nat)
    else if c == '\U{2028}' then "\\u2028"
    else if c == '\U{2029}' then "\\u2029"
    else [c]
  }

  function JsonEscape(s: string): string
  {
    if |s| == 0 then "" else JsonEscapeChar(s[0]) + JsonEscape(s[1..])
  }

  /** A JSON string literal holding `s`. */
  function JsonString(s: string): (r: string)
    ensures |r| >= 2 && r[0] == '"' && r[|r| - 1] == '"'
  {
    "\"" + JsonEscape(s) + "\""
  }

  /** Reads the characters of a JSON string body back, or fails on an
      unescaped quote, a control character or an unknown escape. */
  function JsonUnescape(t: string): Option<string>
    decreases |t|
  {
    if |t| == 0 then Some("")
    else if t[0] == '"' || t[0] < ' ' then None
    else if t[0] != '\\' then
      var rest :- JsonUnescape(t[1..]);
      Some([t[0]] + rest)
    else if |t| < 2 then None
    else
      var c := t[1];
      if c == '"' || c == '\\' || c == '/' then Prepend(c, JsonUnescape(t[2..]))
      else if c == 'n' then Prepend('\n', JsonUnescape(t[2..]))
      else if c == 'r' then Prepend('\r', JsonUnescape(t[2..]))
      else if c == 't' then Prepend('\t', JsonUnescape(t[2..]))
      else if c == 'b' then Prepend('\U{8}', JsonUnescape(t[2..]))
      else if c == 'f' then Prepend('\U{c}', JsonUnescape(t[2..]))
      else if c == 'u' && |t| >= 6 then
        var code :- HexCode(t[2..6]);
        if 0xD800 <= code < 0xE000 then None
        else Prepend(code as char, JsonUnescape(t[6..]))
      else None
  }

  function Prepend(c: char, r: Option<string>): Option<string>
  {
    if r.Some? then Some([c] + r.value) else None
  }

  /** The value of four hex digits. */
  function HexCode(h: string): Option<nat>
    requires |h| == 4
  {
    var a :- HexValue(h[0]);
    var b :- HexValue(h[1]);
    var c :- HexValue(h[2]);
    var d :- HexValue(h[3]);
    Some(((a * 16 + b) * 16 + c) * 16 + d)
  }

  /** Reads a JSON string literal back. */
  function JsonUnquote(t: string): Option<string>
  {
    if |t| >= 2 && t[0] == '"' && t[|t| - 1] == '"' then JsonUnescape(t[1..|t| - 1]) else None
  }

  lemma JsonEscapeCharRoundTrip(c: char, rest: string)
    ensures JsonUnescape(JsonEscapeChar(c) + rest) == Prepend(c, JsonUnescape(rest))
  {
    var t := JsonEscapeChar(c) + rest;
    if c == '"' || c == '\\' || c == '\n' || c == '\r' || c == '\t' {
      assert t[2..] == rest;
    } else if JsonHexEscaped(c) {
      JsonHexRoundTrip(c, rest);
    } else if LineSeparator(c) {
      JsonSeparatorRoundTrip(c, rest);
    } else {
      assert t[1..] == rest;
    }
  }

  lemma JsonHexRoundTrip(c: char, rest: string)
    requires JsonHexEscaped(c)
    ensures JsonUnescape("\\u00" + Hex2(c as nat) + rest) == Prepend(c, JsonUnescape(rest))
  {
    var t := "\\u00" + Hex2(c as nat) + rest;
    var n := c as nat;
    HexCodeOfByte(n);
    assert t[2..6] == "00" + Hex2(n);
    assert t[6..] == rest;
    UnicodeStep(t, n);
  }

  /** Four hex digits `00XX` read back as the byte they spell. */
  lemma HexCodeOfByte(n: nat)
    requires n < 256
    ensures HexCode("00" + Hex2(n)) == Some(n)
  {
    HexRoundTrip(n / 16);
    HexRoundTrip(n % 16);
    HexRoundTrip(0);
  }

  /** One `\uXXXX` escape outside the surrogate range is read as one character. */
  lemma UnicodeStep(t: string, n: nat)
    requires |t| >= 6 && t[0] == '\\' && t[1] == 'u'
    requires HexCode(t[2..6]) == Some(n) && n < 0xD800
    ensures JsonUnescape(t) == Prepend(n as char, JsonUnescape(t[6..]))
  {
  }

  lemma JsonSeparatorRoundTrip(c: char, rest: string)
    requires LineSeparator(c)
    ensures JsonUnescape(JsonEscapeChar(c) + rest) == Prepend(c, JsonUnescape(rest))
  {
    var t := JsonEscapeChar(c) + rest;
    assert t[6..] == rest;
    if c == '\U{2028}' {
      assert t[2..6] == "2028";
    } else {
      assert t[2..6] == "2029";
    }
  }

  lemma {:induction false} JsonEscapeRoundTrip(s: string)
    ensures JsonUnescape(JsonEscape(s)) == Some(s)
  {
    if |s| > 0 {
      JsonEscapeCharRoundTrip(s[0], JsonEscape(s[1..]));
      JsonEscapeRoundTrip(s[1..]);
      assert [s[0]] + s[1..] == s;
    }
  }

  /** A JSON string literal reads back as the text it was written from. */
  lemma JsonStringRoundTrip(s: string)
    ensures JsonUnquote(JsonString(s)) == Some(s)
  {
    var r := JsonString(s);
    assert r[1..|r| - 1] == JsonEscape(s);
    JsonEscapeRoundTrip(s);
  }

  // ---------------------------------------------------------------------
  // Go's `%q`, as it quotes a byte string

  /** Control characters with a single-letter escape. */
  function GoShortEscape(c: char): Option<char>
  {
    if c == '\U{7}' then Some('a')
    else if c == '\U{8}' then Some('b')
    else if c == '\U{c}' then Some('f')
    else if c == '\n' then Some('n')
    else if c == '\r' then Some('r')
    else if c == '\t' then Some('t')
    else if c == '\U{b}' then Some('v')
    else None
  }

  function GoUnshort(e: char): Option<char>
  {
    if e == 'a' then Some('\U{7}')
    else if e == 'b' then Some('\U{8}')
    else if e == 'f' then Some('\U{c}')
    else if e == 'n' then Some('\n')
    else if e == 'r' then Some('\r')
    else if e == 't' then Some('\t')
    else if e == 'v' then Some('\U{b}')
    else None
  }

  function GoEscapeChar(c: char): (r: string)
    ensures |r| > 0
  {
    if c == '"' then "\\\""
    else if c == '\\' then "\\\\"
    else if GoShortEscape(c).Some? then ['\\', GoShortEscape(c).value]
    else if c < ' ' || c == '\U{7f}' then "\\x" + Hex2(c as nat)
    else [c]
  }

  function GoEscape(s: string): string
  {
    if |s| == 0 then "" else GoEscapeChar(s[0]) + GoEscape(s[1..])
  }

  /** `%q` of a byte string: a double-quoted Go string literal. */
  function GoQuote(s: string): (r: string)
    ensures |r| >= 2 && r[0] == '"' && r[|r| - 1] == '"'
  {
    "\"" + GoEscape(s) + "\""
  }

  function GoUnescape(t: string): Option<string>
    decreases |t|
  {
    if |t| == 0 then Some("")
    else if t[0] == '"' then None
    else if t[0] != '\\' then
      var rest :- GoUnescape(t[1..]);
      Some([t[0]] + rest)
    else if |t| < 2 then None
    else
      var e := t[1];
      if e == '"' || e == '\\' then Prepend(e, GoUnescape(t[2..]))
      else if GoUnshort(e).Some? then Prepend(GoUnshort(e).value, GoUnescape(t[2..]))
      else if e == 'x' && |t| >= 4 then
        var hi :- HexValue(t[2]);
        var lo :- HexValue(t[3]);
        Prepend((hi * 16 + lo) as char, GoUnescape(t[4..]))
      else None
  }

  /** Reads a double-quoted Go string literal back. */
  function GoUnquote(t: string): Option<string>
  {
    if |t| >= 2 && t[0] == '"' && t[|t| - 1] == '"' then GoUnescape(t[1..|t| - 1]) else None
  }

  lemma GoEscapeCharRoundTrip(c: char, rest: string)
    ensures GoUnescape(GoEscapeChar(c) + rest) == Prepend(c, GoUnescape(rest))
  {
    if c == '"' || c == '\\' || GoShortEscape(c).Some? {
      GoShortRoundTrip(c, rest);
    } else if c < ' ' || c == '\U{7f}' {
      GoHexRoundTrip(c, rest);
    } else {
      var t := GoEscapeChar(c) + rest;
      assert t[1..] == rest;
    }
  }

  lemma GoShortRoundTrip(c: char, rest: string)
    requires c == '"' || c == '\\' || GoShortEscape(c).Some?
    ensures GoUnescape(GoEscapeChar(c) + rest) == Prepend(c, GoUnescape(rest))
  {
    var t := GoEscapeChar(c) + rest;
    assert t[2..] == rest;
    if c == '"' || c == '\\' {
      GoPairStep(t, c);
    } else {
      var e := GoShortEscape(c).value;
      assert GoUnshort(e) == Some(c);
      GoShortStep(t, e, c);
    }
  }

  lemma GoPairStep(t: string, e: char)
    requires |t| >= 2 && t[0] == '\\' && t[1] == e && (e == '"' || e == '\\')
    ensures GoUnescape(t) == Prepend(e, GoUnescape(t[2..]))
  {
  }

  lemma GoShortStep(t: string, e: char, c: char)
    requires |t| >= 2 && t[0] == '\\' && t[1] == e && e != '"' && e != '\\' && GoUnshort(e) == Some(c)
    ensures GoUnescape(t) == Prepend(c, GoUnescape(t[2..]))
  {
  }

  lemma GoHexRoundTrip(c: char, rest: string)
    requires c != '"' && c != '\\' && GoShortEscape(c).None? && (c < ' ' || c == '\U{7f}')
    ensures GoUnescape(GoEscapeChar(c) + rest) == Prepend(c, GoUnescape(rest))
  {
    var t := GoEscapeChar(c) + rest;
    var n := c as nat;
    HexRoundTrip(n / 16);
    HexRoundTrip(n % 16);
    assert t[4..] == rest;
    GoHexStep(t, n / 16, n % 16);
  }

  lemma GoHexStep(t: string, hi: nat, lo: nat)
    requires |t| >= 4 && t[0] == '\\' && t[1] == 'x'
    requires HexValue(t[2]) == Some(hi) && HexValue(t[3]) == Some(lo)
    ensures GoUnescape(t) == Prepend((hi * 16 + lo) as char, GoUnescape(t[4..]))
  {
  }

  lemma {:induction false} GoEscapeRoundTrip(s: string)
    ensures GoUnescape(GoEscape(s)) == Some(s)
  {
    if |s| > 0 {
      GoEscapeCharRoundTrip(s[0], GoEscape(s[1..]));
      GoEscapeRoundTrip(s[1..]);
      assert [s[0]] + s[1..] == s;
    }
  }

  /** A `%q`-quoted body reads back as the body. */
  lemma GoQuoteRoundTrip(s: string)
    ensures GoUnquote(GoQuote(s)) == Some(s)
  {
    var r := GoQuote(s);
    assert r[1..|r| - 1] == GoEscape(s);
    GoEscapeRoundTrip(s);
  }

  /** Printable ASCII other than the quote and the backslash. */
  predicate GoPlainChar(c: char)
  {
    ' ' <= c < '\U{7f}' && c != '"' && c != '\\'
  }

  predicate GoPlain(s: string)
  {
    forall i | 0 <= i < |s| :: GoPlainChar(s[i])
  }

  /** Text with no quote, backslash or control character is quoted as is. */
  lemma {:induction false} PlainTextUnescaped(s: string)
    requires GoPlain(s)
    ensures GoEscape(s) == s
  {
    if |s| > 0 {
      PlainTextUnescaped(s[1..]);
      assert [s[0]] + s[1..] == s;
    }
  }

  /** Escaping works character by character. */
  lemma {:induction false} GoEscapeAppend(a: string, b: string)
    ensures GoEscape(a + b) == GoEscape(a) + GoEscape(b)
  {
    if |a| > 0 {
      assert (a + b)[1..] == a[1..] + b;
      GoEscapeAppend(a[1..], b);
    } else {
      assert a + b == b;
    }
  }

  /** Printable ASCII that JSON writes without an escape. */
  predicate JsonPlainChar(c: char)
  {
    ' ' <= c <= '~' && c != '"' && c != '\\' && !JsonHexEscaped(c)
  }

  predicate JsonPlain(s: string)
  {
    forall i | 0 <= i < |s| :: JsonPlainChar(s[i])
  }

  /** Text with no character JSON escapes is written as is. */
  lemma {:induction false} JsonPlainText(s: string)
    requires JsonPlain(s)
    ensures JsonEscape(s) == s
  {
    if |s| > 0 {
      JsonPlainText(s[1..]);
      assert [s[0]] + s[1..] == s;
    }
  }
}
