/** Percent-encoding of one URL path segment over UTF-8 (section 2.1 of RFC 3986), as encodeURIComponent and
    decodeURIComponent do it for strings of Unicode scalar values. */
module PercentEncoding {
  import opened Prelude

  predicate Unreserved(c: char) {
    || 'A' <= c <= 'Z' || 'a' <= c <= 'z' || '0' <= c <= '9'
    || c == '-' || c == '_' || c == '.' || c == '!' || c == '~' || c == '*' || c == '\'' || c == '(' || c == ')'
  }

  function HexDigit(d: nat): char
    requires d < 16
  {
    if d < 10 then (('0' as int) + d) as char else (('A' as int) + d - 10) as char
  }

  function HexValue(c: char): Option<nat> {
    if '0' <= c <= '9' then Some((c as int) - ('0' as int))
    else if 'A' <= c <= 'F' then Some((c as int) - ('A' as int) + 10)
    else if 'a' <= c <= 'f' then Some((c as int) - ('a' as int) + 10)
    else None
  }

  function EncodeByte(b: Byte): string {
    ['%', HexDigit(b / 16), HexDigit(b % 16)]
  }

  function Utf8(c: char): (r: seq<Byte>)
    ensures 1 <= |r| <= 4
  {
    var n := c as int;
    if n < 0x80 then [n]
    else if n < 0x800 then [0xC0 + n / 64, 0x80 + n % 64]
    else if n < 0x1_0000 then [0xE0 + n / 64 / 64, 0x80 + n / 64 % 64, 0x80 + n % 64]
    else [0xF0 + n / 64 / 64 / 64, 0x80 + n / 64 / 64 % 64, 0x80 + n / 64 % 64, 0x80 + n % 64]
  }

  function EncodeBytes(bytes: seq<Byte>): (r: string)
    ensures |r| == 3 * |bytes|
  {
    if bytes == [] then "" else EncodeByte(bytes[0]) + EncodeBytes(bytes[1..])
  }

  function EncodeChar(c: char): (r: string)
    ensures r != ""
  {
    if Unreserved(c) then [c] else EncodeBytes(Utf8(c))
  }

  function Encode(s: string): string {
    if s == "" then "" else EncodeChar(s[0]) + Encode(s[1..])
  }

  // ----- decoding

  /** The byte that the three characters at `at` stand for. */
  function ByteAt(s: string, at: nat): Option<Byte> {
    if at + 3 > |s| || s[at] != '%' then None
    else
      var h, l := HexValue(s[at + 1]), HexValue(s[at + 2]);
      if h.None? || l.None? then None else Some(h.value * 16 + l.value)
  }

  /** How many bytes a character takes, by its first byte. */
  function Width(lead: Byte): Option<nat> {
    if lead < 0x80 then Some(1)
    else if lead < 0xC0 then None
    else if lead < 0xE0 then Some(2)
    else if lead < 0xF0 then Some(3)
    else if lead < 0xF8 then Some(4)
    else None
  }

  /** The six payload bits of the continuation byte at `at`. */
  function TailAt(s: string, at: nat): Option<nat> {
    var b := ByteAt(s, at);
    if b.None? || b.value < 0x80 || b.value >= 0xC0 then None else Some(b.value - 0x80)
  }

  /** The code point is one that a sequence of that width must be used for. */
  predicate Fits(code: int, width: nat) {
    match width
    case 1 => 0 <= code < 0x80
    case 2 => 0x80 <= code < 0x800
    case 3 => 0x800 <= code < 0xD800 || 0xE000 <= code < 0x1_0000
    case _ => 0x1_0000 <= code < 0x11_0000
  }

  function Code(s: string, lead: Byte, width: nat): Option<int> {
    if width == 1 then Some(lead)
    else if width == 2 then
      var a := TailAt(s, 3);
      if a.None? then None else Some((lead - 0xC0) * 64 + a.value)
    else if width == 3 then
      var (a, b) := (TailAt(s, 3), TailAt(s, 6));
      if a.None? || b.None? then None else Some((lead - 0xE0) * 4096 + a.value * 64 + b.value)
    else
      var (a, b, c) := (TailAt(s, 3), TailAt(s, 6), TailAt(s, 9));
      if a.None? || b.None? || c.None? then None else Some((lead - 0xF0) * 262144 + a.value * 4096 + b.value * 64 + c.value)
  }

  /** The first character of a text and how many characters of the text it takes. */
  function DecodeHead(s: string): (r: Option<(char, nat)>)
    requires s != ""
    ensures r.Some? ==> 1 <= r.value.1
    ensures s[0] != '%' ==> r == Some((s[0], 1))
    ensures s[0] == '%' && r.Some? ==> 3 <= r.value.1
  {
    if s[0] != '%' then Some((s[0], 1))
    else
      var lead := ByteAt(s, 0);
      if lead.None? then None
      else
        var width := Width(lead.value);
        if width.None? then None
        else
          var code := Code(s, lead.value, width.value);
          if code.None? || !Fits(code.value, width.value) then None else Some((code.value as char, 3 * width.value))
  }

  function Decode(s: string): Option<string>
    decreases |s|
  {
    if s == "" then Some("")
    else
      var head := DecodeHead(s);
      if head.None? || head.value.1 > |s| then None
      else
        var rest := Decode(s[head.value.1..]);
        if rest.None? then None else Some([head.value.0] + rest.value)
  }

  // ----- the code, spelled out

  /** What a link may carry as it is. */
  lemma KeptCharacters(c: char)
    ensures EncodeChar(c) == [c] <==> 'A' <= c <= 'Z' || 'a' <= c <= 'z' || '0' <= c <= '9'
                                      || c in {'-', '_', '.', '!', '~', '*', '\'', '(', ')'}
  {
    if !Unreserved(c) { assert |EncodeChar(c)| >= 3; }
  }

  /** What becomes of characters of one to four bytes. */
  lemma OneByteCodes()
    ensures EncodeChar('/') == "%2F" && EncodeChar(' ') == "%20" && EncodeChar('%') == "%25" && EncodeChar('\\') == "%5C"
  {
    OneByte(0x2F);
    OneByte(0x20);
    OneByte(0x25);
    OneByte(0x5C);
  }

  lemma TwoByteCode()
    ensures EncodeChar('\U{E9}') == "%C3%A9"
  {
    OneByte(0xA9);
    MoreBytes(0xC3, [0xA9]);
    assert Utf8('\U{E9}') == [0xC3] + [0xA9];
  }

  lemma ThreeByteCode()
    ensures EncodeChar('\U{20AC}') == "%E2%82%AC"
  {
    OneByte(0xAC);
    MoreBytes(0x82, [0xAC]);
    MoreBytes(0xE2, [0x82] + [0xAC]);
    assert Utf8('\U{20AC}') == [0xE2] + ([0x82] + [0xAC]);
  }

  lemma FourByteCode()
    ensures EncodeChar('\U{1F600}') == "%F0%9F%98%80"
  {
    hide EncodeBytes;
    FourBytes(0xF0, 0x9F, 0x98, 0x80);
    assert Utf8('\U{1F600}') == [0xF0, 0x9F, 0x98, 0x80];
    assert EncodeByte(0xF0) == "%F0" && EncodeByte(0x9F) == "%9F" && EncodeByte(0x98) == "%98" && EncodeByte(0x80) == "%80";
  }

  lemma FourBytes(a: Byte, b: Byte, c: Byte, d: Byte)
    ensures EncodeBytes([a, b, c, d]) == EncodeByte(a) + EncodeByte(b) + EncodeByte(c) + EncodeByte(d)
  {
    hide EncodeByte;
    OneByte(d);
    MoreBytes(c, [d]);
    MoreBytes(b, [c, d]);
    MoreBytes(a, [b, c, d]);
    assert [c] + [d] == [c, d] && [b] + [c, d] == [b, c, d] && [a] + [b, c, d] == [a, b, c, d];
  }

  lemma OneByte(b: Byte)
    ensures EncodeBytes([b]) == EncodeByte(b)
  {
    assert [b][1..] == [] && EncodeBytes([]) == "";
  }

  lemma MoreBytes(b: Byte, bytes: seq<Byte>)
    ensures EncodeBytes([b] + bytes) == EncodeByte(b) + EncodeBytes(bytes)
  {
    assert ([b] + bytes)[1..] == bytes;
  }

  // ----- decoding undoes encoding

  lemma HexInverse(d: nat)
    requires d < 16
    ensures HexValue(HexDigit(d)) == Some(d)
  {
  }

  lemma ByteInverse(b: Byte, s: string, at: nat)
    requires at + 3 <= |s| && s[at..at + 3] == EncodeByte(b)
    ensures ByteAt(s, at) == Some(b)
  {
    HexInverse(b / 16);
    HexInverse(b % 16);
    var t := s[at..at + 3];
    assert s[at] == t[0] && s[at + 1] == t[1] && s[at + 2] == t[2];
  }

  lemma {:induction false} BytesAt(bytes: seq<Byte>, rest: string, k: nat)
    requires k < |bytes|
    ensures var s := EncodeBytes(bytes) + rest; 3 * k + 3 <= |s| && s[3 * k..3 * k + 3] == EncodeByte(bytes[k])
    decreases k
  {
    if k == 0 { return; }
    BytesAt(bytes[1..], rest, k - 1);
    var s, t := EncodeBytes(bytes) + rest, EncodeBytes(bytes[1..]) + rest;
    assert s == EncodeByte(bytes[0]) + t;
    assert s[3 * k..3 * k + 3] == t[3 * (k - 1)..3 * (k - 1) + 3];
  }

  lemma ByteOfEncoded(bytes: seq<Byte>, rest: string, k: nat)
    requires k < |bytes|
    ensures ByteAt(EncodeBytes(bytes) + rest, 3 * k) == Some(bytes[k])
  {
    BytesAt(bytes, rest, k);
    ByteInverse(bytes[k], EncodeBytes(bytes) + rest, 3 * k);
  }

  lemma Head1(c: char, rest: string)
    requires c as int < 0x80 && !Unreserved(c)
    ensures DecodeHead(EncodeChar(c) + rest) == Some((c, 3))
  {
    ByteOfEncoded(Utf8(c), rest, 0);
  }

  lemma Tail(bytes: seq<Byte>, rest: string, k: nat)
    requires k < |bytes| && 0x80 <= bytes[k] < 0xC0
    ensures TailAt(EncodeBytes(bytes) + rest, 3 * k) == Some(bytes[k] - 0x80)
  {
    ByteOfEncoded(bytes, rest, k);
  }

  lemma Head2(c: char, rest: string)
    requires 0x80 <= c as int < 0x800
    ensures DecodeHead(EncodeChar(c) + rest) == Some((c, 6))
  {
    var n, s := c as int, EncodeChar(c) + rest;
    ByteOfEncoded(Utf8(c), rest, 0);
    Tail(Utf8(c), rest, 1);
    assert Code(s, 0xC0 + n / 64, 2) == Some(n / 64 * 64 + n % 64);
  }

  lemma Head3(c: char, rest: string)
    requires 0x800 <= c as int < 0x1_0000
    ensures DecodeHead(EncodeChar(c) + rest) == Some((c, 9))
  {
    var n, s := c as int, EncodeChar(c) + rest;
    ByteOfEncoded(Utf8(c), rest, 0);
    Tail(Utf8(c), rest, 1);
    Tail(Utf8(c), rest, 2);
    assert Code(s, 0xE0 + n / 64 / 64, 3) == Some(n / 64 / 64 * 4096 + n / 64 % 64 * 64 + n % 64);
  }

  lemma Sextets(n: nat)
    ensures n / 64 / 64 / 64 * 262144 + n / 64 / 64 % 64 * 4096 + n / 64 % 64 * 64 + n % 64 == n
  {
  }

  lemma Head4(c: char, rest: string)
    requires 0x1_0000 <= c as int
    ensures DecodeHead(EncodeChar(c) + rest) == Some((c, 12))
  {
    var n, s := c as int, EncodeChar(c) + rest;
    ByteOfEncoded(Utf8(c), rest, 0);
    Tail(Utf8(c), rest, 1);
    Tail(Utf8(c), rest, 2);
    Tail(Utf8(c), rest, 3);
    Sextets(n);
    assert Code(s, 0xF0 + n / 64 / 64 / 64, 4) == Some(n);
  }

  lemma HeadOfEncoded(c: char, rest: string)
    ensures DecodeHead(EncodeChar(c) + rest) == Some((c, |EncodeChar(c)|))
  {
    if Unreserved(c) { return; }
    var n := c as int;
    if n < 0x80 {
      Head1(c, rest);
    } else if n < 0x800 {
      Head2(c, rest);
    } else if n < 0x1_0000 {
      Head3(c, rest);
    } else {
      Head4(c, rest);
    }
  }

  lemma DecodeBehind(first: string, rest: string, c: char)
    requires first != "" && DecodeHead(first + rest) == Some((c, |first|)) && Decode(rest).Some?
    ensures Decode(first + rest) == Some([c] + Decode(rest).value)
  {
    hide DecodeHead;
    assert (first + rest)[|first|..] == rest;
  }

  /** Decoding gives back every text that was encoded. */
  lemma {:induction false} DecodeOfEncode(s: string)
    ensures Decode(Encode(s)) == Some(s)
    decreases |s|
  {
    if s == "" { return; }
    hide DecodeHead, EncodeChar, Decode;
    DecodeOfEncode(s[1..]);
    HeadOfEncoded(s[0], Encode(s[1..]));
    DecodeBehind(EncodeChar(s[0]), Encode(s[1..]), s[0]);
    assert s == [s[0]] + s[1..];
  }

  /** An encoded text is plain ASCII without a slash. */
  lemma {:induction false} EncodedIsSafe(s: string)
    ensures forall i :: 0 <= i < |Encode(s)| ==> Unreserved(Encode(s)[i]) || Encode(s)[i] == '%'
    ensures s != "" ==> Encode(s) != ""
    decreases |s|
  {
    if s == "" { return; }
    EncodedIsSafe(s[1..]);
    BytesAreSafe(Utf8(s[0]));
  }

  lemma {:induction false} BytesAreSafe(bytes: seq<Byte>)
    ensures forall i :: 0 <= i < |EncodeBytes(bytes)| ==> Unreserved(EncodeBytes(bytes)[i]) || EncodeBytes(bytes)[i] == '%'
    decreases |bytes|
  {
    if bytes == [] { return; }
    BytesAreSafe(bytes[1..]);
  }

  /** Decoding shortens exactly the texts that contain a percent sign. */
  lemma {:induction false} DecodeShortens(s: string)
    requires Decode(s).Some?
    ensures |Decode(s).value| <= |s|
    ensures '%' in s ==> |Decode(s).value| < |s|
    ensures s != "" ==> Decode(s).value != ""
    decreases |s|
  {
    if s == "" { return; }
    DecodeShortens(s[DecodeHead(s).value.1..]);
    assert s == [s[0]] + s[1..];
  }

  lemma {:induction false} DecodePlain(s: string)
    requires '%' !in s
    ensures Decode(s) == Some(s)
    decreases |s|
  {
    if s == "" { return; }
    assert s == [s[0]] + s[1..];
    DecodePlain(s[1..]);
  }

  /** A text decodes to itself exactly when it contains no percent sign. */
  lemma {:induction false} DecodesToItself(s: string)
    ensures Decode(s) == Some(s) <==> '%' !in s
  {
    if '%' !in s {
      DecodePlain(s);
    } else if Decode(s).Some? {
      DecodeShortens(s);
    }
  }
}
