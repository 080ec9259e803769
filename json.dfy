/**
 * The string escaping of `JSON.stringify`, as used for the feature map that
 * the generated script embeds: `"` and `\` are escaped, the control
 * characters below U+0020 take their short escape or `\u00XX` with
 * lower-case hexadecimal digits, and every other character is copied
 * (section 7 of RFC 8259 gives the grammar the decoder below reads).
 */
module Json {

  /** The lower-case hexadecimal digit of `n`. */
  function HexDigit(n: nat): (c: char)
    requires n < 16
    ensures ('0' <= c <= '9') || ('a' <= c <= 'f')
  {
    if n < 10 then (48 + n) as char else (87 + n) as char
  }

  /** The value of a lower-case hexadecimal digit. */
  function HexValue(c: char): (n: nat)
    ensures n < 16
  {
    if '0' <= c <= '9' then c as int - 48
    else if 'a' <= c <= 'f' then c as int - 87
    else 0
  }

  /** `HexValue` reads back what `HexDigit` writes. */
  lemma HexRoundTrip(n: nat)
    requires n < 16
    ensures HexValue(HexDigit(n)) == n
  {
  }

  /** The escape of one character. */
  function EscapeChar(c: char): (r: string)
    ensures |r| >= 1
    ensures r[0] == '\\' <==> (c == '"' || c == '\\' || c < ' ')
  {
    if c == '"' then "\\\""
    else if c == '\\' then "\\\\"
    else if c == '\U{0008}' then "\\b"
    else if c == '\U{000C}' then "\\f"
    else if c == '\n' then "\\n"
    else if c == '\r' then "\\r"
    else if c == '\t' then "\\t"
    else if c < ' ' then ['\\', 'u', '0', '0', HexDigit(c as int / 16), HexDigit(c as int % 16)]
    else [c]
  }

  /** The text between the quotes of a JSON string. */
  function Escape(s: string): string {
    if s == [] then "" else EscapeChar(s[0]) + Escape(s[1..])
  }

  /** `JSON.stringify(s)` for a string `s`. */
  function Quote(s: string): string {
    "\"" + Escape(s) + "\""
  }

  /** `s` holds nothing that must be escaped. */
  predicate Plain(s: string) {
    forall i | 0 <= i < |s| :: s[i] != '"' && s[i] != '\\' && s[i] >= ' '
  }

  /** A plain string is written as it is. */
  lemma {:induction false} EscapePlain(s: string)
    requires Plain(s)
    ensures Escape(s) == s
  {
    if s != [] {
      assert Plain(s[1..]) by {
        forall i | 0 <= i < |s[1..]| ensures s[1..][i] != '"' && s[1..][i] != '\\' && s[1..][i] >= ' ' {
          assert s[1..][i] == s[i + 1];
        }
      }
      EscapePlain(s[1..]);
      assert [s[0]] + s[1..] == s;
    }
  }

  /**
   * The decoding of the text between the quotes of a JSON string. A `\u`
   * escape of a UTF-16 surrogate, which the escaping never writes, decodes
   * to U+FFFD.
   */
  function Unescape(t: string): string
    decreases |t|
  {
    if t == [] then ""
    else if t[0] != '\\' || |t| < 2 then [t[0]] + Unescape(t[1..])
    else if t[1] == 'u' && |t| >= 6 then
      var code := HexValue(t[2]) * 4096 + HexValue(t[3]) * 256 + HexValue(t[4]) * 16 + HexValue(t[5]);
      [if 0xD800 <= code < 0xE000 then '\U{FFFD}' else code as char] + Unescape(t[6..])
    else
      [ShortEscape(t[1])] + Unescape(t[2..])
  }

  /** The character a two-character escape `\x` stands for. */
  function ShortEscape(x: char): char {
    if x == 'b' then '\U{0008}'
    else if x == 'f' then '\U{000C}'
    else if x == 'n' then '\n'
    else if x == 'r' then '\r'
    else if x == 't' then '\t'
    else x
  }

  /** Decoding one escape yields its character, whatever follows. */
  lemma UnescapeChar(c: char, rest: string)
    ensures Unescape(EscapeChar(c) + rest) == [c] + Unescape(rest)
  {
    var e := EscapeChar(c);
    if c < ' ' && c != '\U{0008}' && c != '\U{000C}' && c != '\n' && c != '\r' && c != '\t' {
      var hi, lo := c as int / 16, c as int % 16;
      HexRoundTrip(hi);
      HexRoundTrip(lo);
      assert (e + rest)[6..] == rest;
      assert HexValue('0') == 0;
    } else if e[0] == '\\' {
      assert (e + rest)[2..] == rest;
    } else {
      assert (e + rest)[1..] == rest;
    }
  }

  /** Decoding reverses the escaping. */
  lemma {:induction false} UnescapeEscape(s: string)
    ensures Unescape(Escape(s)) == s
  {
    if s != [] {
      UnescapeChar(s[0], Escape(s[1..]));
      UnescapeEscape(s[1..]);
      assert [s[0]] + s[1..] == s;
    }
  }
}
