/** JSON string literals as `JSON.stringify` writes them (section 7 of
    RFC 8259), together with the standard decoder they are read back with. */
module Json {

  import opened Wrappers

  function HexDigit(d: nat): (c: char)
    requires d < 16
  {
    "0123456789abcdef"[d]
  }

  predicate IsHex(c: char)
  {
    ('0' <= c <= '9') || ('a' <= c <= 'f') || ('A' <= c <= 'F')
  }

  function HexValue(c: char): (d: nat)
    requires IsHex(c)
    ensures d < 16
  {
    if '0' <= c <= '9' then (c as int - '0' as int) as nat
    else if 'a' <= c <= 'f' then (c as int - 'a' as int + 10) as nat
    else (c as int - 'A' as int + 10) as nat
  }

  /** The escape `JSON.stringify` writes for one character: a two-character
      escape for quote, backslash, backspace, form feed, line feed, carriage
      return and tab; `\u00xx` (lower-case hex) for the other control
      characters; the character itself otherwise. */
  function EscapeChar(c: char): (r: string)
    ensures |r| > 0
    ensures forall i | 0 <= i < |r| :: r[i] != '\n' && r[i] != '\r'
    ensures forall i | 0 <= i < |r| :: r[i] as int >= 0x20
  {
    if c == '"' then "\\\""
    else if c == '\\' then "\\\\"
    else if c == '\U{8}' then "\\b"
    else if c == '\U{C}' then "\\f"
    else if c == '\n' then "\\n"
    else if c == '\r' then "\\r"
    else if c == '\t' then "\\t"
    else if (c as int) < 0x20 then "\\u00" + [HexDigit(c as int / 16), HexDigit(c as int % 16)]
    else [c]
  }

  /** The body of the JSON string literal for `s`: no raw line break, and no
      raw control character (below U+0020) at all, can occur in it. */
  function Escape(s: string): (r: string)
    ensures forall i | 0 <= i < |r| :: r[i] != '\n' && r[i] != '\r'
    ensures forall i | 0 <= i < |r| :: r[i] as int >= 0x20
    ensures |r| >= |s|
  {
    if s == [] then "" else EscapeChar(s[0]) + Escape(s[1..])
  }

  /** `JSON.stringify` of a string: the escaped body between double quotes. */
  function Quote(s: string): string
  {
    "\"" + Escape(s) + "\""
  }

  function Prepend(c: char, rest: Option<string>): Option<string>
  {
    match rest
    case Some(r) => Some([c] + r)
    case None => None
  }

  /** The four hex digits of a `\uXXXX` escape as a number. */
  function Hex4(h: string): (n: nat)
    requires |h| == 4 && forall i | 0 <= i < 4 :: IsHex(h[i])
    ensures n < 0x10000
  {
    4096 * HexValue(h[0]) + 256 * HexValue(h[1]) + 16 * HexValue(h[2]) + HexValue(h[3])
  }

  /** Decodes the body of a JSON string literal: `None` for a raw quote, a raw
      control character, or a malformed escape. A `\u` escape of a lone
      surrogate is rejected too (no surrogate pairs are decoded). */
  function Unescape(s: string): Option<string>
    decreases |s|
  {
    if s == [] then Some("")
    else if s[0] == '\\' then
      if |s| < 2 then None
      else if s[1] == '"' then Prepend('"', Unescape(s[2..]))
      else if s[1] == '\\' then Prepend('\\', Unescape(s[2..]))
      else if s[1] == '/' then Prepend('/', Unescape(s[2..]))
      else if s[1] == 'b' then Prepend('\U{8}', Unescape(s[2..]))
      else if s[1] == 'f' then Prepend('\U{C}', Unescape(s[2..]))
      else if s[1] == 'n' then Prepend('\n', Unescape(s[2..]))
      else if s[1] == 'r' then Prepend('\r', Unescape(s[2..]))
      else if s[1] == 't' then Prepend('\t', Unescape(s[2..]))
      else if s[1] == 'u' && |s| >= 6 && (forall i | 2 <= i < 6 :: IsHex(s[i])) then
        var n := Hex4(s[2..6]);
        if 0xD800 <= n <= 0xDFFF then None else Prepend(n as char, Unescape(s[6..]))
      else None
    else if s[0] == '"' || (s[0] as int) < 0x20 then None
    else Prepend(s[0], Unescape(s[1..]))
  }

  /** Decoding what one character's escape is followed by. */
  lemma UnescapeChar(c: char, rest: string)
    ensures Unescape(EscapeChar(c) + rest) == Prepend(c, Unescape(rest))
  {
    if c == '"' || c == '\\' || c == '\U{8}' || c == '\U{C}' || c == '\n' || c == '\r' || c == '\t' {
      UnescapeShort(c, rest);
    } else if (c as int) < 0x20 {
      UnescapeControl(c, rest);
    } else {
      var s := EscapeChar(c) + rest;
      assert s[1..] == rest;
    }
  }

  lemma UnescapeShort(c: char, rest: string)
    requires c == '"' || c == '\\' || c == '\U{8}' || c == '\U{C}' || c == '\n' || c == '\r' || c == '\t'
    ensures Unescape(EscapeChar(c) + rest) == Prepend(c, Unescape(rest))
  {
    var s := EscapeChar(c) + rest;
    assert |EscapeChar(c)| == 2;
    assert s[2..] == rest;
  }

  lemma UnescapeControl(c: char, rest: string)
    requires (c as int) < 0x20
    requires !(c == '\U{8}' || c == '\U{C}' || c == '\n' || c == '\r' || c == '\t')
    ensures Unescape(EscapeChar(c) + rest) == Prepend(c, Unescape(rest))
  {
    var n := c as int;
    var e := EscapeChar(c);
    assert e == "\\u00" + [HexDigit(n / 16), HexDigit(n % 16)];
    var s := e + rest;
    assert s[6..] == rest;
    assert s[2..6] == ['0', '0', HexDigit(n / 16), HexDigit(n % 16)];
    assert HexValue(HexDigit(n / 16)) == n / 16;
    assert HexValue(HexDigit(n % 16)) == n % 16;
    assert Hex4(s[2..6]) == n;
  }

  /** Round trip: decoding the escaped form of any string recovers it. */
  lemma {:induction false} UnescapeEscape(s: string)
    ensures Unescape(Escape(s)) == Some(s)
  {
    if s != [] {
      UnescapeChar(s[0], Escape(s[1..]));
      UnescapeEscape(s[1..]);
      assert [s[0]] + s[1..] == s;
    }
  }
}
