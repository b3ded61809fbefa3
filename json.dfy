/**
 * The part of Go's encoding/json that the asset record needs: how json.Marshal
 * writes a Go string (UTF-8 text, with the HTML-safe escaping Marshal uses) and
 * how json.Unmarshal reads the contents of a JSON string literal back (escapes,
 * UTF-16 surrogate pairs, and the U+FFFD replacement of invalid UTF-8).
 */
module Json {
  import opened Wrappers

  newtype byte = b: int | 0 <= b < 256
  type Bytes = seq<byte>

  const Quote: byte := 0x22
  const Backslash: byte := 0x5C

  /** U+FFFD, which Go substitutes for invalid input. */
  const Replacement: char := 0xFFFD as char

  predicate IsAscii(s: string) {
    forall i | 0 <= i < |s| :: s[i] as int < 0x80
  }

  /** The bytes of a string all of whose characters are ASCII. */
  function Ascii(s: string): (r: Bytes)
    requires IsAscii(s)
    ensures |r| == |s|
    ensures forall i | 0 <= i < |s| :: r[i] as int == s[i] as int
  {
    seq(|s|, i requires 0 <= i < |s| => s[i] as int as byte)
  }

  // ---------------------------------------------------------------- UTF-8

  /** utf8.EncodeRune: the UTF-8 encoding of one Unicode scalar value. */
  function EncodeRune(c: char): (r: Bytes)
    ensures 1 <= |r| <= 4
    ensures (|r| == 1) == (c as int < 0x80)
    ensures c as int >= 0x80 ==> r[0] >= 0xC2
  {
    var n := c as int;
    var c0, n1 := n % 64, n / 64;
    var c1, n2 := n1 % 64, n1 / 64;
    var c2, n3 := n2 % 64, n2 / 64;
    if n < 0x80 then [n as byte]
    else if n < 0x800 then [(0xC0 + n1) as byte, (0x80 + c0) as byte]
    else if n < 0x10000 then [(0xE0 + n2) as byte, (0x80 + c1) as byte, (0x80 + c0) as byte]
    else [(0xF0 + n3) as byte, (0x80 + c2) as byte, (0x80 + c1) as byte, (0x80 + c0) as byte]
  }

  predicate InRange(b: byte, lo: int, hi: int) {
    lo <= b as int <= hi
  }

  /**
   * utf8.DecodeRune: the first character of b and the number of bytes it
   * takes. An invalid or truncated sequence decodes as U+FFFD of length 1.
   */
  function DecodeRune(b: Bytes): (r: (char, nat))
    requires |b| > 0
    ensures 1 <= r.1 <= |b| && r.1 <= 4
  {
    var x := b[0] as int;
    if x < 0x80 then (x as char, 1)
    else if x < 0xC2 || x > 0xF4 then (Replacement, 1)
    else if x < 0xE0 then
      if |b| >= 2 && InRange(b[1], 0x80, 0xBF) then
        (((x - 0xC0) * 64 + (b[1] as int - 0x80)) as char, 2)
      else (Replacement, 1)
    else if x < 0xF0 then
      var lo := if x == 0xE0 then 0xA0 else 0x80;
      var hi := if x == 0xED then 0x9F else 0xBF;
      if |b| >= 3 && InRange(b[1], lo, hi) && InRange(b[2], 0x80, 0xBF) then
        (((x - 0xE0) * 4096 + (b[1] as int - 0x80) * 64 + (b[2] as int - 0x80)) as char, 3)
      else (Replacement, 1)
    else
      var lo := if x == 0xF0 then 0x90 else 0x80;
      var hi := if x == 0xF4 then 0x8F else 0xBF;
      if |b| >= 4 && InRange(b[1], lo, hi) && InRange(b[2], 0x80, 0xBF) && InRange(b[3], 0x80, 0xBF) then
        (((x - 0xF0) * 262144 + (b[1] as int - 0x80) * 4096
          + (b[2] as int - 0x80) * 64 + (b[3] as int - 0x80)) as char, 4)
      else (Replacement, 1)
  }

  // ------------------------------------------------------------- encoding

  /** The lower-case hexadecimal digit Go writes for d. */
  function HexDigit(d: int): (r: byte)
    requires 0 <= d < 16
  {
    if d < 10 then (0x30 + d) as byte else (0x61 + d - 10) as byte
  }

  /**
   * Characters below U+0080 that Marshal copies unchanged (its htmlSafeSet):
   * printable ASCII other than the quote, the backslash and the three HTML
   * metacharacters.
   */
  predicate HtmlSafe(c: char) {
    0x20 <= c as int < 0x80 && c != '"' && c != '\\' && c != '<' && c != '>' && c != '&'
  }

  predicate AllHtmlSafe(s: string) {
    forall i | 0 <= i < |s| :: HtmlSafe(s[i])
  }

  /** How Marshal writes one character inside a JSON string literal. */
  function EscapeChar(c: char): (r: Bytes)
    ensures |r| > 0
  {
    var n := c as int;
    if HtmlSafe(c) then [n as byte]
    else if c == '"' || c == '\\' then [Backslash, n as byte]
    else if c == '\n' then [Backslash, 'n' as byte]
    else if c == '\r' then [Backslash, 'r' as byte]
    else if c == '\t' then [Backslash, 't' as byte]
    else if n < 0x80 then
      // the other control characters, and <, > and &
      [Backslash, 'u' as byte, '0' as byte, '0' as byte, HexDigit(n / 16), HexDigit(n % 16)]
    else if n == 0x2028 || n == 0x2029 then
      [Backslash, 'u' as byte, '2' as byte, '0' as byte, '2' as byte, HexDigit(n % 16)]
    else EncodeRune(c)
  }

  /** The escaped contents of a string literal, without the quotes. */
  function EscapeString(s: string): Bytes {
    if s == [] then [] else EscapeChar(s[0]) + EscapeString(s[1..])
  }

  /** A string as Marshal writes it: a quoted, escaped literal. */
  function QuoteString(s: string): Bytes {
    [Quote] + EscapeString(s) + [Quote]
  }

  // ------------------------------------------------------------- decoding

  /** The value of a hexadecimal digit of either case. */
  function HexValue(b: byte): (r: Option<int>)
    ensures r.Some? ==> 0 <= r.value < 16
  {
    if 0x30 <= b <= 0x39 then Some(b as int - 0x30)
    else if 0x61 <= b <= 0x66 then Some(b as int - 0x61 + 10)
    else if 0x41 <= b <= 0x46 then Some(b as int - 0x41 + 10)
    else None
  }

  /** Go's getu4: the code unit of a leading \uXXXX escape, if b starts with one. */
  function GetU4(b: Bytes): (r: Option<int>)
    ensures r.Some? ==> 0 <= r.value < 0x10000
  {
    if |b| < 6 || b[0] != Backslash || b[1] != 'u' as byte then None
    else
      match (HexValue(b[2]), HexValue(b[3]), HexValue(b[4]), HexValue(b[5]))
      case (Some(d3), Some(d2), Some(d1), Some(d0)) => Some(d3 * 4096 + d2 * 256 + d1 * 16 + d0)
      case _ => None
  }

  /**
   * The character an escape sequence at the start of b stands for, and the
   * number of bytes it takes. A \u escape for a high surrogate followed by one
   * for a low surrogate is one character; any other surrogate is U+FFFD.
   */
  function ParseEscape(b: Bytes): (r: Option<(char, nat)>)
    requires |b| > 0 && b[0] == Backslash
    ensures r.Some? ==> 2 <= r.value.1 <= |b|
  {
    if |b| < 2 then None
    else
      var e := b[1];
      if e == Quote || e == Backslash || e == '/' as byte then Some((e as int as char, 2))
      else if e == 'b' as byte then Some((0x08 as char, 2))
      else if e == 'f' as byte then Some((0x0C as char, 2))
      else if e == 'n' as byte then Some(('\n', 2))
      else if e == 'r' as byte then Some(('\r', 2))
      else if e == 't' as byte then Some(('\t', 2))
      else if e == 'u' as byte then
        match GetU4(b)
        case None => None
        case Some(u) =>
          if 0xD800 <= u < 0xE000 then
            match GetU4(b[6..])
            case Some(u2) =>
              if u < 0xDC00 && 0xDC00 <= u2 < 0xE000 then
                Some((((u - 0xD800) * 0x400 + (u2 - 0xDC00) + 0x10000) as char, 12))
              else Some((Replacement, 6))
            case None => Some((Replacement, 6))
          else Some((u as char, 6))
      else None
  }

  /**
   * The characters of a string literal whose opening quote has been read, up
   * to its closing quote, and the bytes after it. None when the literal is
   * not closed, holds a raw control byte or a malformed escape.
   */
  function ParseChars(b: Bytes): (r: Option<(string, Bytes)>)
    ensures r.Some? ==> |r.value.1| < |b| && r.value.1 == b[|b| - |r.value.1|..]
    decreases |b|
  {
    if |b| == 0 then None
    else if b[0] == Quote then Some(([], b[1..]))
    else if b[0] < 0x20 then None
    else
      var step :=
        if b[0] == Backslash then ParseEscape(b)
        else Some(DecodeRune(b));
      match step
      case None => None
      case Some((c, k)) =>
        match ParseChars(b[k..])
        case None => None
        case Some((s, rest)) => Some(([c] + s, rest))
  }

  // ----------------------------------------------------------- round trip

  /** UTF-8 decoding undoes UTF-8 encoding, whatever follows. */
  lemma DecodeEncodeRune(c: char, rest: Bytes)
    ensures DecodeRune(EncodeRune(c) + rest) == (c, |EncodeRune(c)|)
  {
  }

  /** Every backslash escape Marshal writes reads back as the character escaped. */
  lemma ParseEscapeOfEscapeChar(c: char, rest: Bytes)
    requires !HtmlSafe(c) && (c as int < 0x80 || c as int == 0x2028 || c as int == 0x2029)
    ensures ParseEscape(EscapeChar(c) + rest) == Some((c, |EscapeChar(c)|))
  {
  }

  /** Reading past one escaped character yields that character. */
  lemma ParseCharsStep(c: char, rest: Bytes)
    ensures ParseChars(EscapeChar(c) + rest) ==
            match ParseChars(rest)
            case None => None
            case Some((s, t)) => Some(([c] + s, t))
  {
    var e := EscapeChar(c);
    var b := e + rest;
    assert b[|e|..] == rest;
    var n := c as int;
    if HtmlSafe(c) {
      assert DecodeRune(b) == (c, 1);
    } else if n < 0x80 || n == 0x2028 || n == 0x2029 {
      ParseEscapeOfEscapeChar(c, rest);
    } else {
      DecodeEncodeRune(c, rest);
    }
  }

  /** Unquoting undoes Marshal's quoting: the literal reads back as s. */
  lemma {:induction false} ParseQuoted(s: string, tail: Bytes)
    ensures ParseChars(EscapeString(s) + [Quote] + tail) == Some((s, tail))
  {
    if s == [] {
      assert EscapeString(s) + [Quote] + tail == [Quote] + tail;
    } else {
      var rest := EscapeString(s[1..]) + [Quote] + tail;
      assert EscapeString(s) + [Quote] + tail == EscapeChar(s[0]) + rest;
      ParseCharsStep(s[0], rest);
      ParseQuoted(s[1..], tail);
      assert [s[0]] + s[1..] == s;
    }
  }

  /** A string of HTML-safe characters is written as its own bytes. */
  lemma {:induction false} EscapeHtmlSafe(s: string)
    requires AllHtmlSafe(s)
    ensures EscapeString(s) == Ascii(s)
  {
    if s != [] {
      EscapeHtmlSafe(s[1..]);
      assert Ascii(s) == [s[0] as int as byte] + Ascii(s[1..]);
    }
  }
}
