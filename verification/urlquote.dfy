/** Percent-encoding as `urllib.parse.quote` and `quote_plus` perform it (section 2.1 of
    RFC 3986): the text is encoded as UTF-8, and every byte outside the unreserved set
    (and the caller's safe set) becomes `%` followed by two upper-case hexadecimal digits.
    The decoders below are the partners the round-trip lemmas are stated against. */
module UrlQuote {
  import opened Wrappers

  newtype byte = b: int | 0 <= b < 256

  // ---------------------------------------------------------------- UTF-8

  /** The UTF-8 encoding of one Unicode scalar value. */
  function Utf8(c: char): (bs: seq<byte>)
    ensures 1 <= |bs| <= 4
    ensures (c as int < 0x80) <==> |bs| == 1
  {
    var n := c as int;
    if n < 0x80 then [n as byte]
    else if n < 0x800 then [(0xC0 + n / 64) as byte, (0x80 + n % 64) as byte]
    else if n < 0x10000 then
      [(0xE0 + n / 4096) as byte, (0x80 + (n / 64) % 64) as byte, (0x80 + n % 64) as byte]
    else
      [(0xF0 + n / 262144) as byte, (0x80 + (n / 4096) % 64) as byte,
       (0x80 + (n / 64) % 64) as byte, (0x80 + n % 64) as byte]
  }

  function EncodeUtf8(s: string): seq<byte> {
    if s == [] then [] else Utf8(s[0]) + EncodeUtf8(s[1..])
  }

  predicate IsContinuation(b: byte) {
    0x80 <= b < 0xC0
  }

  predicate IsScalar(n: int) {
    0 <= n < 0xD800 || 0xE000 <= n < 0x110000
  }

  /** Reads one well-formed UTF-8 sequence at the front of `bs`: the character and the
      number of bytes it takes; None for an ill-formed, overlong or truncated sequence. */
  function DecodeChar(bs: seq<byte>): (r: Option<(char, nat)>)
    ensures r.Some? ==> 1 <= r.value.1 <= |bs|
  {
    if bs == [] then None
    else
      var b0 := bs[0] as int;
      if b0 < 0x80 then Some((b0 as char, 1))
      else if 0xC2 <= b0 < 0xE0 && |bs| >= 2 && IsContinuation(bs[1]) then
        var n := (b0 - 0xC0) * 64 + (bs[1] as int - 0x80);
        if IsScalar(n) then Some((n as char, 2)) else None
      else if 0xE0 <= b0 < 0xF0 && |bs| >= 3 && IsContinuation(bs[1]) && IsContinuation(bs[2]) then
        var n := (b0 - 0xE0) * 4096 + (bs[1] as int - 0x80) * 64 + (bs[2] as int - 0x80);
        if 0x800 <= n && IsScalar(n) then Some((n as char, 3)) else None
      else if 0xF0 <= b0 < 0xF5 && |bs| >= 4
              && IsContinuation(bs[1]) && IsContinuation(bs[2]) && IsContinuation(bs[3]) then
        var n := (b0 - 0xF0) * 262144 + (bs[1] as int - 0x80) * 4096
                 + (bs[2] as int - 0x80) * 64 + (bs[3] as int - 0x80);
        if 0x10000 <= n && IsScalar(n) then Some((n as char, 4)) else None
      else None
  }

  function DecodeUtf8(bs: seq<byte>): Option<string>
    decreases |bs|
  {
    if bs == [] then Some([])
    else match DecodeChar(bs)
      case None => None
      case Some((c, k)) =>
        match DecodeUtf8(bs[k..])
        case None => None
        case Some(rest) => Some([c] + rest)
  }

  /** Reading back the encoding of one character gives that character, whatever follows. */
  lemma DecodeCharUtf8(c: char, rest: seq<byte>)
    ensures DecodeChar(Utf8(c) + rest) == Some((c, |Utf8(c)|))
  {
    var n := c as int;
    var bs := Utf8(c) + rest;
    if n < 0x80 {
    } else if n < 0x800 {
      assert n == (n / 64) * 64 + n % 64;
    } else if n < 0x10000 {
      var q := n / 64;
      assert n == q * 64 + n % 64;
      assert q == (q / 64) * 64 + q % 64;
      assert q / 64 == n / 4096;
      assert bs[0] as int - 0xE0 == n / 4096;
    } else {
      var q := n / 64;
      var q2 := q / 64;
      assert n == q * 64 + n % 64;
      assert q == q2 * 64 + q % 64;
      assert q2 == (q2 / 64) * 64 + q2 % 64;
      assert q2 == n / 4096;
      assert q2 / 64 == n / 262144;
      assert bs[0] as int - 0xF0 == n / 262144;
    }
  }

  /** Decoding inverts encoding: UTF-8 loses nothing. */
  lemma {:induction false} Utf8RoundTrip(s: string)
    ensures DecodeUtf8(EncodeUtf8(s)) == Some(s)
  {
    if s != [] {
      var head := Utf8(s[0]);
      var tail := EncodeUtf8(s[1..]);
      DecodeCharUtf8(s[0], tail);
      assert (head + tail)[|head|..] == tail;
      Utf8RoundTrip(s[1..]);
      assert [s[0]] + s[1..] == s;
    }
  }

  // ---------------------------------------------------------------- percent-encoding

  /** The bytes `quote` never escapes: ASCII letters, digits and `_ . - ~`. */
  predicate IsUnreserved(b: byte) {
    ('A' as byte <= b <= 'Z' as byte) || ('a' as byte <= b <= 'z' as byte)
    || ('0' as byte <= b <= '9' as byte)
    || b == '_' as byte || b == '.' as byte || b == '-' as byte || b == '~' as byte
  }

  predicate IsHexDigit(c: char) {
    ('0' <= c <= '9') || ('A' <= c <= 'F') || ('a' <= c <= 'f')
  }

  /** The upper-case hex digit of `n`; `HexValue` reads it back. */
  function HexDigit(n: int): (c: char)
    requires 0 <= n < 16
    ensures IsHexDigit(c) && HexValue(c) == n
    ensures !('a' <= c <= 'f')
  {
    if n < 10 then ('0' as int + n) as char else ('A' as int + n - 10) as char
  }

  function HexValue(c: char): (n: int)
    requires IsHexDigit(c)
    ensures 0 <= n < 16
  {
    if '0' <= c <= '9' then c as int - '0' as int
    else if 'A' <= c <= 'F' then c as int - 'A' as int + 10
    else c as int - 'a' as int + 10
  }

  /** How one byte is written. `form` selects `quote_plus` with `safe=''` (a space becomes
      `+`, a slash is escaped); otherwise `quote` with its default `safe='/'`. */
  function QuoteByte(b: byte, form: bool): (s: string)
    ensures |s| == 1 || |s| == 3
  {
    if IsUnreserved(b) || (!form && b == '/' as byte) then [b as char]
    else if form && b == ' ' as byte then "+"
    else ['%', HexDigit(b as int / 16), HexDigit(b as int % 16)]
  }

  function QuoteBytes(bs: seq<byte>, form: bool): string {
    if bs == [] then "" else QuoteByte(bs[0], form) + QuoteBytes(bs[1..], form)
  }

  /** `urllib.parse.quote(s)`: UTF-8, then every byte but the unreserved ones and `/` escaped. */
  function Quote(s: string): string {
    QuoteBytes(EncodeUtf8(s), false)
  }

  /** `urllib.parse.quote_plus(s)`, as `requests` applies it to query parameters. */
  function QuotePlus(s: string): string {
    QuoteBytes(EncodeUtf8(s), true)
  }

  /** The characters a percent-encoded text may hold. */
  predicate IsQuotedChar(c: char, form: bool) {
    (c as int < 256 && IsUnreserved(c as int as byte)) || c == '%' || IsHexDigit(c)
    || (!form && c == '/') || (form && c == '+')
  }

  /** Percent-decoding: `%XY` gives byte XY, `+` gives a space in the form encoding, and
      other ASCII characters give their own byte; None for anything else. */
  function PercentDecode(s: string, form: bool): Option<seq<byte>>
    decreases |s|
  {
    if s == [] then Some([])
    else if s[0] == '%' then
      if |s| >= 3 && IsHexDigit(s[1]) && IsHexDigit(s[2]) then
        match PercentDecode(s[3..], form)
        case None => None
        case Some(rest) => Some([(HexValue(s[1]) * 16 + HexValue(s[2])) as byte] + rest)
      else None
    else if form && s[0] == '+' then
      match PercentDecode(s[1..], form)
      case None => None
      case Some(rest) => Some([' ' as byte] + rest)
    else if s[0] as int < 128 then
      match PercentDecode(s[1..], form)
      case None => None
      case Some(rest) => Some([s[0] as int as byte] + rest)
    else None
  }

  /** The inverse of `Quote`: percent-decode, then decode UTF-8. */
  function Unquote(s: string): Option<string> {
    match PercentDecode(s, false)
    case None => None
    case Some(bs) => DecodeUtf8(bs)
  }

  /** The inverse of `QuotePlus`. */
  function UnquotePlus(s: string): Option<string> {
    match PercentDecode(s, true)
    case None => None
    case Some(bs) => DecodeUtf8(bs)
  }

  lemma QuoteByteDecodes(b: byte, form: bool, rest: string, tail: seq<byte>)
    requires PercentDecode(rest, form) == Some(tail)
    ensures PercentDecode(QuoteByte(b, form) + rest, form) == Some([b] + tail)
  {
    var q := QuoteByte(b, form);
    var s := q + rest;
    if |q| == 1 {
      assert s[1..] == rest;
    } else {
      assert s[3..] == rest;
      assert s[1] == HexDigit(b as int / 16) && s[2] == HexDigit(b as int % 16);
    }
  }

  /** Percent-decoding inverts percent-encoding, in both forms. */
  lemma {:induction false} QuoteBytesRoundTrip(bs: seq<byte>, form: bool)
    ensures PercentDecode(QuoteBytes(bs, form), form) == Some(bs)
  {
    if bs != [] {
      QuoteBytesRoundTrip(bs[1..], form);
      QuoteByteDecodes(bs[0], form, QuoteBytes(bs[1..], form), bs[1..]);
      assert [bs[0]] + bs[1..] == bs;
    }
  }

  /** `Unquote` recovers every text `Quote` encodes, and `UnquotePlus` every text
      `QuotePlus` encodes. */
  lemma QuoteRoundTrip(s: string)
    ensures Unquote(Quote(s)) == Some(s)
    ensures UnquotePlus(QuotePlus(s)) == Some(s)
  {
    QuoteBytesRoundTrip(EncodeUtf8(s), false);
    QuoteBytesRoundTrip(EncodeUtf8(s), true);
    Utf8RoundTrip(s);
  }

  /** Every character of an encoded text is unreserved, `%`, a hex digit, or the form's
      own separator (`/` for `quote`, `+` for `quote_plus`). */
  lemma {:induction false} QuoteBytesAlphabet(bs: seq<byte>, form: bool)
    ensures forall i :: 0 <= i < |QuoteBytes(bs, form)| ==> IsQuotedChar(QuoteBytes(bs, form)[i], form)
  {
    if bs != [] {
      QuoteBytesAlphabet(bs[1..], form);
      var q := QuoteByte(bs[0], form);
      var r := QuoteBytes(bs[1..], form);
      assert QuoteBytes(bs, form) == q + r;
      forall i | 0 <= i < |q + r| ensures IsQuotedChar((q + r)[i], form) {
        if i >= |q| {
          assert (q + r)[i] == r[i - |q|];
        }
      }
    }
  }

  lemma EncodeUtf8Append(a: string, b: string)
    ensures EncodeUtf8(a + b) == EncodeUtf8(a) + EncodeUtf8(b)
  {
    if a != [] {
      assert (a + b)[0] == a[0] && (a + b)[1..] == a[1..] + b;
      EncodeUtf8Append(a[1..], b);
      calc {
        EncodeUtf8(a + b);
        Utf8(a[0]) + EncodeUtf8(a[1..] + b);
        Utf8(a[0]) + (EncodeUtf8(a[1..]) + EncodeUtf8(b));
      }
    } else {
      assert a + b == b;
    }
  }

  lemma QuoteBytesAppend(a: seq<byte>, b: seq<byte>, form: bool)
    ensures QuoteBytes(a + b, form) == QuoteBytes(a, form) + QuoteBytes(b, form)
  {
    if a != [] {
      assert (a + b)[0] == a[0] && (a + b)[1..] == a[1..] + b;
      QuoteBytesAppend(a[1..], b, form);
      calc {
        QuoteBytes(a + b, form);
        QuoteByte(a[0], form) + QuoteBytes(a[1..] + b, form);
        QuoteByte(a[0], form) + (QuoteBytes(a[1..], form) + QuoteBytes(b, form));
      }
    } else {
      assert a + b == b;
    }
  }

  /** A text made only of unreserved ASCII characters is left exactly as it is. */
  lemma {:induction false} QuoteKeepsUnreserved(s: string, form: bool)
    requires IsUnreservedText(s)
    ensures QuoteBytes(EncodeUtf8(s), form) == s
  {
    if s != [] {
      QuoteKeepsUnreserved(s[1..], form);
      assert Utf8(s[0]) == [s[0] as int as byte];
      QuoteBytesAppend(Utf8(s[0]), EncodeUtf8(s[1..]), form);
      assert [s[0]] + s[1..] == s;
    }
  }

  predicate IsUnreservedText(s: string) {
    forall i :: 0 <= i < |s| ==> s[i] as int < 128 && IsUnreserved(s[i] as int as byte)
  }

  /** Between two runs of unreserved characters, a space is written `%20` by `Quote`. */
  lemma QuoteSpace(a: string, b: string)
    requires IsUnreservedText(a) && IsUnreservedText(b)
    ensures Quote(a + " " + b) == a + "%20" + b
  {
    var ea, sp, eb := EncodeUtf8(a), EncodeUtf8(" "), EncodeUtf8(b);
    EncodeUtf8Append(a + " ", b);
    EncodeUtf8Append(a, " ");
    QuoteBytesAppend(ea + sp, eb, false);
    QuoteBytesAppend(ea, sp, false);
    QuoteKeepsUnreserved(a, false);
    QuoteKeepsUnreserved(b, false);
    assert sp == [32 as byte];
    assert QuoteBytes(sp, false) == "%20";
  }

  /** Between two runs of unreserved characters, a colon is written `%3A` by `QuotePlus`. */
  lemma QuotePlusColon(a: string, b: string)
    requires IsUnreservedText(a) && IsUnreservedText(b)
    ensures QuotePlus(a + ":" + b) == a + "%3A" + b
  {
    var ea, colon, eb := EncodeUtf8(a), EncodeUtf8(":"), EncodeUtf8(b);
    EncodeUtf8Append(a + ":", b);
    EncodeUtf8Append(a, ":");
    QuoteBytesAppend(ea + colon, eb, true);
    QuoteBytesAppend(ea, colon, true);
    QuoteKeepsUnreserved(a, true);
    QuoteKeepsUnreserved(b, true);
    assert colon == [58 as byte];
    assert QuoteBytes(colon, true) == "%3A";
  }
}
