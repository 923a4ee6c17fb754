/** The text `json.dumps` prints for a string and for the one-key error
    objects `{"error": msg}` the database tools return. Python's encoder
    escapes with `ensure_ascii`: quote, backslash and the five control
    characters with short escapes get a backslash form, other characters
    outside printable ASCII become `\uXXXX` (a surrogate pair above U+FFFF). */
module JsonText {
  import opened Wrappers
  import opened Text

  function HexDigit(d: nat): char
    requires d < 16
  {
    if d < 10 then ('0' as int + d) as char else ('a' as int + d - 10) as char
  }

  predicate IsHexDigit(c: char) {
    ('0' <= c <= '9') || ('a' <= c <= 'f') || ('A' <= c <= 'F')
  }

  function HexValue(c: char): nat
    requires IsHexDigit(c)
  {
    if '0' <= c <= '9' then c as int - '0' as int
    else if 'a' <= c <= 'f' then c as int - 'a' as int + 10
    else c as int - 'A' as int + 10
  }

  /** Four lower-case hexadecimal digits, as `'{0:04x}'.format(n)`. */
  function Hex4(n: nat): string
    requires n < 0x10000
  {
    var low12 := n % 4096;
    var low8 := low12 % 256;
    [HexDigit(n / 4096), HexDigit(low12 / 256), HexDigit(low8 / 16), HexDigit(low8 % 16)]
  }

  predicate IsHex4(s: string) {
    |s| == 4 && IsHexDigit(s[0]) && IsHexDigit(s[1]) && IsHexDigit(s[2]) && IsHexDigit(s[3])
  }

  function Hex4Value(s: string): nat
    requires IsHex4(s)
  {
    HexValue(s[0]) * 4096 + HexValue(s[1]) * 256 + HexValue(s[2]) * 16 + HexValue(s[3])
  }

  lemma HexDigitValue(d: nat)
    requires d < 16
    ensures IsHexDigit(HexDigit(d)) && HexValue(HexDigit(d)) == d
  {
  }

  lemma Hex4RoundTrip(n: nat)
    requires n < 0x10000
    ensures IsHex4(Hex4(n)) && Hex4Value(Hex4(n)) == n
  {
    var low12 := n % 4096;
    var low8 := low12 % 256;
    HexDigitValue(n / 4096);
    HexDigitValue(low12 / 256);
    HexDigitValue(low8 / 16);
    HexDigitValue(low8 % 16);
    assert n == n / 4096 * 4096 + low12;
    assert low12 == low12 / 256 * 256 + low8;
    assert low8 == low8 / 16 * 16 + low8 % 16;
  }

  function EscapeChar(c: char): string {
    if c == '"' then "\\\""
    else if c == '\\' then "\\\\"
    else if c == '\n' then "\\n"
    else if c == '\r' then "\\r"
    else if c == '\t' then "\\t"
    else if c == '\U{8}' then "\\b"
    else if c == '\U{c}' then "\\f"
    else if ' ' <= c <= '~' then [c]
    else if c as int < 0x10000 then "\\u" + Hex4(c as int)
    else
      var n := c as int - 0x10000;
      "\\u" + Hex4(0xD800 + n / 1024) + "\\u" + Hex4(0xDC00 + n % 1024)
  }

  /** The characters between the quotes of `json.dumps(s)`. */
  function Escape(s: string): string
    decreases |s|
  {
    if |s| == 0 then "" else EscapeChar(s[0]) + Escape(s[1..])
  }

  /** `json.dumps(s)` for a string `s`. */
  function Quote(s: string): string {
    "\"" + Escape(s) + "\""
  }

  /** `json.dumps({"error": message})`. */
  function ErrorObject(message: string): string {
    "{\"error\": " + Quote(message) + "}"
  }

  function ShortEscape(c: char): Option<char> {
    if c == '"' then Some('"')
    else if c == '\\' then Some('\\')
    else if c == '/' then Some('/')
    else if c == 'b' then Some('\U{8}')
    else if c == 'f' then Some('\U{c}')
    else if c == 'n' then Some('\n')
    else if c == 'r' then Some('\r')
    else if c == 't' then Some('\t')
    else None
  }

  function Prepend(c: char, rest: Option<string>): Option<string> {
    match rest
    case Some(r) => Some([c] + r)
    case None => None
  }

  /** Decodes the characters between the quotes of a JSON string, as a JSON
      reader does; `None` when they are not a valid JSON string body. */
  function Unescape(t: string): Option<string>
    decreases |t|
  {
    if |t| == 0 then Some("")
    else if t[0] == '"' || t[0] as int < 0x20 then None
    else if t[0] != '\\' then Prepend(t[0], Unescape(t[1..]))
    else if |t| < 2 then None
    else if ShortEscape(t[1]).Some? then Prepend(ShortEscape(t[1]).value, Unescape(t[2..]))
    else if t[1] != 'u' || |t| < 6 || !IsHex4(t[2..6]) then None
    else
      var n := Hex4Value(t[2..6]);
      if n < 0xD800 || 0xE000 <= n then Prepend(n as char, Unescape(t[6..]))
      else if 0xDC00 <= n || |t| < 12 || t[6] != '\\' || t[7] != 'u' || !IsHex4(t[8..12]) then None
      else
        var m := Hex4Value(t[8..12]);
        if m < 0xDC00 || 0xE000 <= m then None
        else Prepend((0x10000 + (n - 0xD800) * 1024 + (m - 0xDC00)) as char, Unescape(t[12..]))
  }

  lemma ShortEscapeRoundTrip(c: char, rest: string)
    requires c == '"' || c == '\\' || c == '\n' || c == '\r' || c == '\t' || c == '\U{8}' || c == '\U{c}'
    ensures Unescape(EscapeChar(c) + rest) == Prepend(c, Unescape(rest))
  {
    var e := EscapeChar(c) + rest;
    assert |EscapeChar(c)| == 2 && e[0] == '\\';
    assert ShortEscape(e[1]) == Some(c);
    assert e[2..] == rest;
  }

  lemma BmpEscapeRoundTrip(c: char, rest: string)
    requires !(' ' <= c <= '~') && c as int < 0x10000
    requires c != '"' && c != '\\' && c != '\n' && c != '\r' && c != '\t' && c != '\U{8}' && c != '\U{c}'
    ensures Unescape(EscapeChar(c) + rest) == Prepend(c, Unescape(rest))
  {
    var e := EscapeChar(c) + rest;
    Hex4RoundTrip(c as int);
    assert e[0] == '\\' && e[1] == 'u';
    assert e[2..6] == Hex4(c as int);
    assert e[6..] == rest;
  }

  lemma SurrogatePairRoundTrip(hi: nat, lo: nat, rest: string)
    requires 0xD800 <= hi < 0xDC00 && 0xDC00 <= lo < 0xE000
    ensures Unescape("\\u" + Hex4(hi) + "\\u" + Hex4(lo) + rest)
         == Prepend((0x10000 + (hi - 0xD800) * 1024 + (lo - 0xDC00)) as char, Unescape(rest))
  {
    var e := "\\u" + Hex4(hi) + "\\u" + Hex4(lo) + rest;
    Hex4RoundTrip(hi);
    Hex4RoundTrip(lo);
    assert e[0] == '\\' && e[1] == 'u' && e[6] == '\\' && e[7] == 'u';
    assert e[2..6] == Hex4(hi) && e[8..12] == Hex4(lo) && e[12..] == rest;
  }

  lemma AstralEscapeRoundTrip(c: char, rest: string)
    requires c as int >= 0x10000
    ensures Unescape(EscapeChar(c) + rest) == Prepend(c, Unescape(rest))
  {
    var n := c as int - 0x10000;
    var hi, lo := 0xD800 + n / 1024, 0xDC00 + n % 1024;
    assert EscapeChar(c) + rest == "\\u" + Hex4(hi) + "\\u" + Hex4(lo) + rest;
    SurrogatePairRoundTrip(hi, lo, rest);
    assert 0x10000 + (hi - 0xD800) * 1024 + (lo - 0xDC00) == c as int;
  }

  lemma EscapeCharRoundTrip(c: char, rest: string)
    ensures Unescape(EscapeChar(c) + rest) == Prepend(c, Unescape(rest))
  {
    if c == '"' || c == '\\' || c == '\n' || c == '\r' || c == '\t' || c == '\U{8}' || c == '\U{c}' {
      ShortEscapeRoundTrip(c, rest);
    } else if ' ' <= c <= '~' {
      var e := EscapeChar(c) + rest;
      assert e[1..] == rest;
    } else if c as int < 0x10000 {
      BmpEscapeRoundTrip(c, rest);
    } else {
      AstralEscapeRoundTrip(c, rest);
    }
  }

  /** Reading back the escaped text recovers the string exactly. */
  lemma {:induction false} EscapeRoundTrip(s: string)
    ensures Unescape(Escape(s)) == Some(s)
    decreases |s|
  {
    if |s| > 0 {
      EscapeCharRoundTrip(s[0], Escape(s[1..]));
      EscapeRoundTrip(s[1..]);
      assert [s[0]] + s[1..] == s;
    }
  }

  /** No escaped text contains a bare quote, so the closing quote of
      `Quote(s)` is the first one after the opening quote. */
  lemma {:induction false} EscapeHasNoBareQuote(s: string)
    ensures forall i :: 0 <= i < |Escape(s)| && Escape(s)[i] == '"' ==> i > 0 && Escape(s)[i - 1] == '\\'
    decreases |s|
  {
    if |s| > 0 {
      EscapeHasNoBareQuote(s[1..]);
      var h, t := EscapeChar(s[0]), Escape(s[1..]);
      EscapeCharQuotes(s[0]);
      assert Escape(s) == h + t;
      forall i | 0 <= i < |h + t| && (h + t)[i] == '"'
        ensures i > 0 && (h + t)[i - 1] == '\\'
      {
        if i >= |h| {
          assert (h + t)[i] == t[i - |h|];
          if i - |h| == 0 {
            assert false;
          }
        } else {
          assert h[i] == '"';
        }
      }
    }
  }

  /** A quote only comes out of escaping a quote, behind its backslash. */
  lemma EscapeCharQuotes(c: char)
    ensures |EscapeChar(c)| > 0 && EscapeChar(c)[0] != '"'
    ensures forall i :: 0 < i < |EscapeChar(c)| && EscapeChar(c)[i] == '"' ==> EscapeChar(c)[i - 1] == '\\'
  {
    if c as int >= 0x10000 {
      var n := c as int - 0x10000;
      var hi, lo := 0xD800 + n / 1024, 0xDC00 + n % 1024;
      UEscapeHasNoQuote(hi);
      UEscapeHasNoQuote(lo);
      var e := EscapeChar(c);
      assert e == ("\\u" + Hex4(hi)) + ("\\u" + Hex4(lo));
      assert forall i :: 0 <= i < |e| ==> e[i] != '"';
    } else if c != '"' && c != '\\' && c != '\n' && c != '\r' && c != '\t' && c != '\U{8}' && c != '\U{c}'
              && !(' ' <= c <= '~') {
      UEscapeHasNoQuote(c as int);
    }
  }

  /** A `\uXXXX` escape holds no quote. */
  lemma UEscapeHasNoQuote(n: nat)
    requires n < 0x10000
    ensures |"\\u" + Hex4(n)| == 6 && forall i :: 0 <= i < 6 ==> ("\\u" + Hex4(n))[i] != '"'
  {
    Hex4RoundTrip(n);
    var e := "\\u" + Hex4(n);
    assert e[0] == '\\' && e[1] == 'u';
    assert forall i :: 2 <= i < 6 ==> e[i] == Hex4(n)[i - 2];
  }

  /** The text that opens every error object, up to its message's quote. */
  const ErrorObjectHead := "{\"" + "error" + "\": \""

  /** Reads the message back out of a one-key error object. */
  function ErrorMessageOf(t: string): Option<string> {
    if |t| >= |ErrorObjectHead| + 2 && StartsWith(t, ErrorObjectHead) && t[|t| - 2..] == "\"}"
    then Unescape(t[|ErrorObjectHead|..|t| - 2])
    else None
  }

  lemma ErrorObjectParts(message: string)
    ensures ErrorObject(message) == ErrorObjectHead + Escape(message) + "\"}"
  {
    var open, quote, close := "{\"error\": ", "\"", "}";
    assert ErrorObjectHead == open + quote;
    assert "\"}" == quote + close;
    ConcatAssoc(open, quote, Escape(message), quote);
    ConcatAssoc(open + quote, Escape(message), quote, close);
  }

  /** An error object carries its message intact: reading it back gives the
      message, and the text names the key `error`. */
  lemma ErrorObjectRoundTrip(message: string)
    ensures ErrorMessageOf(ErrorObject(message)) == Some(message)
    ensures StartsWith(ErrorObject(message), ErrorObjectHead)
    ensures Contains(ErrorObject(message), "error")
  {
    var e := Escape(message);
    var t := ErrorObjectHead + e + "\"}";
    ErrorObjectParts(message);
    assert t[..|ErrorObjectHead|] == ErrorObjectHead;
    assert t[|ErrorObjectHead|..|t| - 2] == e;
    assert t[|t| - 2..] == "\"}";
    EscapeRoundTrip(message);
    assert t[2..7] == "error";
    ContainsAt(t, "error", 2);
  }
}
