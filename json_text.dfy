/** How `JSON.stringify` writes a string (section 25.5.2.3, QuoteJSONString,
    of ECMA-262) and a reader for JSON string literals that undoes it.
    Characters here are Unicode scalar values, so the lone-surrogate case of
    QuoteJSONString cannot arise. */
module JsonText {
  import opened Values

  function HexDigit(d: nat): (c: char)
    requires d < 16
  {
    if d < 10 then ('0' as int + d) as char else ('a' as int + d - 10) as char
  }

  function HexValue(c: char): (r: Option<nat>)
    ensures r.Some? ==> r.value < 16
  {
    if '0' <= c <= '9' then Some(c as int - '0' as int)
    else if 'a' <= c <= 'f' then Some(c as int - 'a' as int + 10)
    else if 'A' <= c <= 'F' then Some(c as int - 'A' as int + 10)
    else None
  }

  lemma HexRoundTrip(d: nat)
    requires d < 16
    ensures HexValue(HexDigit(d)) == Some(d)
  {
  }

  /** One character as QuoteJSONString writes it: the two-character escapes
      for backspace, tab, newline, form feed, carriage return, quote and
      backslash; `\u00xx` with lower-case hex for the other control
      characters; the character itself otherwise. */
  function EscapeChar(c: char): string {
    if c == '\U{0008}' then "\\b"
    else if c == '\t' then "\\t"
    else if c == '\n' then "\\n"
    else if c == '\U{000C}' then "\\f"
    else if c == '\r' then "\\r"
    else if c == '\"' then "\\\""
    else if c == '\\' then "\\\\"
    else if (c as int) < 0x20 then "\\u00" + [HexDigit(c as int / 16), HexDigit(c as int % 16)]
    else [c]
  }

  function Escape(s: string): string {
    if s == [] then [] else EscapeChar(s[0]) + Escape(s[1..])
  }

  /** `JSON.stringify(s)` for a string `s`. */
  function Quote(s: string): string {
    "\"" + Escape(s) + "\""
  }

  /** Neither an escaped string nor its quoted form contains a raw newline,
      so each `JSON.stringify` result fits on one line. */
  lemma {:induction false} EscapeHasNoNewline(s: string)
    ensures '\n' !in Escape(s)
  {
    if s != [] {
      EscapeHasNoNewline(s[1..]);
      var c := s[0];
      if c != '\U{0008}' && c != '\t' && c != '\n' && c != '\U{000C}' && c != '\r'
         && c != '\"' && c != '\\' && (c as int) < 0x20 {
        var e := EscapeChar(c);
        assert e == ['\\', 'u', '0', '0', HexDigit(c as int / 16), HexDigit(c as int % 16)];
        assert c as int / 16 < 2;
      }
    }
  }

  /** The character an escape sequence after a backslash stands for, and
      how many characters of the sequence (after the backslash) it used. */
  function Unescape(t: string): (r: Option<(char, nat)>)
    ensures r.Some? ==> 1 <= r.value.1 <= |t|
  {
    if t == [] then None
    else if t[0] == '\"' then Some(('\"', 1))
    else if t[0] == '\\' then Some(('\\', 1))
    else if t[0] == '/' then Some(('/', 1))
    else if t[0] == 'b' then Some(('\U{0008}', 1))
    else if t[0] == 'f' then Some(('\U{000C}', 1))
    else if t[0] == 'n' then Some(('\n', 1))
    else if t[0] == 'r' then Some(('\r', 1))
    else if t[0] == 't' then Some(('\t', 1))
    else if t[0] == 'u' && |t| >= 5 then
      match (HexValue(t[1]), HexValue(t[2]), HexValue(t[3]), HexValue(t[4]))
      case (Some(a), Some(b), Some(c), Some(d)) =>
        var n := ((a * 16 + b) * 16 + c) * 16 + d;
        if n < 0xD800 || 0xE000 <= n then Some((n as char, 5)) else None
      case _ => None
    else None
  }

  /** Reads the inside of a JSON string literal whose opening quote has
      been consumed: the decoded text and what follows the closing quote.
      Raw control characters and malformed escapes are rejected. */
  function ReadString(t: string): (r: Option<(string, string)>)
    decreases |t|
  {
    if t == [] then None
    else if t[0] == '\"' then Some(([], t[1..]))
    else if (t[0] as int) < 0x20 then None
    else if t[0] == '\\' then
      match Unescape(t[1..])
      case None => None
      case Some((c, used)) =>
        match ReadString(t[1 + used..])
        case None => None
        case Some((s, rest)) => Some(([c] + s, rest))
    else
      match ReadString(t[1..])
      case None => None
      case Some((s, rest)) => Some(([t[0]] + s, rest))
  }

  /** A backslash whose escape decodes to `c` reads as `c` followed by
      whatever the rest of the literal reads as. */
  lemma ReadAfterEscape(t: string, c: char, used: nat)
    requires |t| >= 1 && t[0] == '\\' && Unescape(t[1..]) == Some((c, used))
    ensures ReadString(t)
         == match ReadString(t[1 + used..])
            case None => None
            case Some((s, rest)) => Some(([c] + s, rest))
  {
  }

  /** A character QuoteJSONString writes as itself reads back as itself. */
  lemma ReadPlainChar(c: char, more: string)
    requires c != '\"' && c != '\\' && (c as int) >= 0x20
    ensures ReadString([c] + more)
         == match ReadString(more)
            case None => None
            case Some((s, rest)) => Some(([c] + s, rest))
  {
    assert ([c] + more)[1..] == more;
  }

  /** A two-character escape reads back as its character. */
  lemma ReadShortEscape(c: char, more: string)
    requires c == '\U{0008}' || c == '\t' || c == '\n' || c == '\U{000C}' || c == '\r' || c == '\"' || c == '\\'
    ensures ReadString(EscapeChar(c) + more)
         == match ReadString(more)
            case None => None
            case Some((s, rest)) => Some(([c] + s, rest))
  {
    var e := EscapeChar(c);
    var t := e + more;
    assert |e| == 2 && e[0] == '\\';
    assert t[0] == '\\' && t[1..][0] == e[1];
    assert Unescape(t[1..]) == Some((c, 1));
    assert t[2..] == more;
    ReadAfterEscape(t, c, 1);
  }

  /** A `\u00xx` escape reads back as its control character. */
  lemma ReadHexEscape(c: char, more: string)
    requires (c as int) < 0x20
    requires c != '\U{0008}' && c != '\t' && c != '\n' && c != '\U{000C}' && c != '\r'
    ensures ReadString(EscapeChar(c) + more)
         == match ReadString(more)
            case None => None
            case Some((s, rest)) => Some(([c] + s, rest))
  {
    var hi, lo := c as int / 16, c as int % 16;
    HexRoundTrip(hi);
    HexRoundTrip(lo);
    var e := EscapeChar(c);
    assert e == ['\\', 'u', '0', '0', HexDigit(hi), HexDigit(lo)];
    var t := e + more;
    var u := t[1..];
    assert t[0] == '\\';
    assert |u| >= 5 && u[0] == 'u' && u[1] == '0' && u[2] == '0' && u[3] == HexDigit(hi) && u[4] == HexDigit(lo);
    assert ((0 * 16 + 0) * 16 + hi) * 16 + lo == c as int;
    assert Unescape(u) == Some((c, 5));
    assert t[6..] == more;
    ReadAfterEscape(t, c, 5);
  }

  /** Reading back one escaped character. */
  lemma ReadEscapedChar(c: char, more: string)
    ensures ReadString(EscapeChar(c) + more)
         == match ReadString(more)
            case None => None
            case Some((s, rest)) => Some(([c] + s, rest))
  {
    if c == '\U{0008}' || c == '\t' || c == '\n' || c == '\U{000C}' || c == '\r'
       || c == '\"' || c == '\\' {
      ReadShortEscape(c, more);
    } else if (c as int) < 0x20 {
      ReadHexEscape(c, more);
    } else {
      assert EscapeChar(c) == [c];
      ReadPlainChar(c, more);
    }
  }

  /** Reading an escaped string followed by its closing quote gives back
      the string and exactly what came after the quote. */
  lemma {:induction false} ReadEscaped(s: string, rest: string)
    ensures ReadString(Escape(s) + "\"" + rest) == Some((s, rest))
  {
    if s == [] {
      assert Escape(s) + "\"" + rest == ['\"'] + rest;
    } else {
      var tail := Escape(s[1..]) + "\"" + rest;
      assert Escape(s) + "\"" + rest == EscapeChar(s[0]) + tail;
      ReadEscapedChar(s[0], tail);
      ReadEscaped(s[1..], rest);
      assert [s[0]] + s[1..] == s;
    }
  }

  /** Parsing a quoted string gives back the string. */
  lemma QuoteRoundTrip(s: string)
    ensures |Quote(s)| >= 2 && Quote(s)[0] == '\"'
    ensures ReadString(Quote(s)[1..]) == Some((s, []))
  {
    assert Quote(s)[1..] == Escape(s) + "\"" + [];
    ReadEscaped(s, []);
  }
}
