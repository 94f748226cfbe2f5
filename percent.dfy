/** Percent-encoding of text for URLs: JavaScript's `encodeURIComponent`, the
    application/x-www-form-urlencoded serializer that `URLSearchParams` uses,
    and a strict decoder that inverts both. Text is a sequence of Unicode
    scalar values, encoded as UTF-8 bytes before escaping. */
module Percent {
  import opened Wrappers

  type Byte = b: int | 0 <= b < 256

  // ---------------------------------------------------------------------------
  // UTF-8

  /** The UTF-8 encoding of one scalar value. */
  function Utf8(c: char): (bs: seq<Byte>)
    ensures 1 <= |bs| <= 4
    ensures |bs| == 1 <==> (c as int) < 0x80
  {
    var v := c as int;
    if v < 0x80 then [v]
    else if v < 0x800 then [0xC0 + v / 64, 0x80 + v % 64]
    else if v < 0x10000 then [0xE0 + v / 4096, 0x80 + (v / 64) % 64, 0x80 + v % 64]
    else [0xF0 + v / 262144, 0x80 + (v / 4096) % 64, 0x80 + (v / 64) % 64, 0x80 + v % 64]
  }

  /** How many bytes a sequence that starts with `b` spans; 0 when `b` cannot start one. */
  function Utf8Length(b: Byte): (n: nat)
    ensures n <= 4
  {
    if b < 0x80 then 1
    else if 0xC0 <= b < 0xE0 then 2
    else if 0xE0 <= b < 0xF0 then 3
    else if 0xF0 <= b < 0xF8 then 4
    else 0
  }

  predicate IsContinuation(b: Byte) { 0x80 <= b < 0xC0 }

  /** The scalar value a complete byte sequence encodes, when it is the shortest
      encoding of a scalar value. */
  function Utf8Value(bs: seq<Byte>): (r: Option<char>)
    requires 1 <= |bs| <= 4 && Utf8Length(bs[0]) == |bs|
  {
    if exists k :: 1 <= k < |bs| && !IsContinuation(bs[k]) then None
    else
      var v: int :=
        if |bs| == 1 then bs[0]
        else if |bs| == 2 then (bs[0] as int - 0xC0) * 64 + (bs[1] as int - 0x80)
        else if |bs| == 3 then (bs[0] as int - 0xE0) * 4096 + (bs[1] as int - 0x80) * 64 + (bs[2] as int - 0x80)
        else (bs[0] as int - 0xF0) * 262144 + (bs[1] as int - 0x80) * 4096 + (bs[2] as int - 0x80) * 64 + (bs[3] as int - 0x80);
      var least: int := if |bs| == 1 then 0 else if |bs| == 2 then 0x80 else if |bs| == 3 then 0x800 else 0x10000;
      if least <= v && v <= 0x10FFFF && !(0xD800 <= v < 0xE000) then Some(v as char) else None
  }

  /** Decoding the UTF-8 encoding of a scalar value gives it back. */
  lemma {:induction false} Utf8RoundTrip(c: char)
    ensures Utf8Length(Utf8(c)[0]) == |Utf8(c)|
    ensures Utf8Value(Utf8(c)) == Some(c)
  {
    var v := c as int;
    var bs := Utf8(c);
    if v < 0x80 {
    } else if v < 0x800 {
      Split2(v);
    } else if v < 0x10000 {
      Split3(v);
    } else {
      Split4(v);
    }
  }

  lemma {:induction false} Split2(v: int)
    requires 0x80 <= v < 0x800
    ensures 0xC0 <= 0xC0 + v / 64 < 0xE0
    ensures ((0xC0 + v / 64) - 0xC0) * 64 + ((0x80 + v % 64) - 0x80) == v
  {
  }

  lemma {:induction false} Split3(v: int)
    requires 0x800 <= v < 0x10000
    ensures 0xE0 <= 0xE0 + v / 4096 < 0xF0
    ensures (v / 4096) * 4096 + ((v / 64) % 64) * 64 + v % 64 == v
  {
    assert v / 64 == (v / 4096) * 64 + (v / 64) % 64;
  }

  lemma {:induction false} Split4(v: int)
    requires 0x10000 <= v <= 0x10FFFF
    ensures 0xF0 <= 0xF0 + v / 262144 < 0xF8
    ensures (v / 262144) * 262144 + ((v / 4096) % 64) * 4096 + ((v / 64) % 64) * 64 + v % 64 == v
  {
    assert v / 64 == (v / 4096) * 64 + (v / 64) % 64;
    assert v / 4096 == (v / 262144) * 64 + (v / 4096) % 64;
  }

  // ---------------------------------------------------------------------------
  // Escaping

  const HexDigits: string := "0123456789ABCDEF"

  predicate IsHex(c: char)
  {
    '0' <= c <= '9' || 'A' <= c <= 'F' || 'a' <= c <= 'f'
  }

  function HexValue(c: char): (d: nat)
    requires IsHex(c)
    ensures d < 16
  {
    if '0' <= c <= '9' then c as int - '0' as int
    else if 'A' <= c <= 'F' then c as int - 'A' as int + 10
    else c as int - 'a' as int + 10
  }

  /** `%XX` with upper-case hex digits, for each byte. */
  function Escape(bs: seq<Byte>): (s: string)
    ensures |s| == 3 * |bs|
    ensures forall k :: 0 <= k < |s| ==> s[k] == '%' || s[k] in HexDigits
  {
    if bs == [] then []
    else ['%', HexDigits[bs[0] / 16], HexDigits[bs[0] % 16]] + Escape(bs[1..])
  }

  /** Whether `c` is a letter or digit in ASCII. */
  predicate IsAsciiAlnum(c: char)
  {
    'A' <= c <= 'Z' || 'a' <= c <= 'z' || '0' <= c <= '9'
  }

  /** The characters `encodeURIComponent` leaves as they are. */
  predicate UriUnreserved(c: char)
  {
    IsAsciiAlnum(c) || c in "-_.!~*'()"
  }

  /** JavaScript's `encodeURIComponent`: unreserved characters stay, every
      other character becomes the escapes of its UTF-8 bytes. */
  function EncodeURIComponent(s: string): (r: string)
    ensures forall k :: 0 <= k < |r| ==> UriUnreserved(r[k]) || r[k] == '%'
    ensures |r| >= |s|
  {
    if s == [] then []
    else (if UriUnreserved(s[0]) then [s[0]] else Escape(Utf8(s[0]))) + EncodeURIComponent(s[1..])
  }

  /** The characters the application/x-www-form-urlencoded serializer leaves as they are. */
  predicate FormUnreserved(c: char)
  {
    IsAsciiAlnum(c) || c in "*-._"
  }

  /** The application/x-www-form-urlencoded byte serializer: unreserved
      characters stay, a space becomes `+`, everything else is escaped. */
  function FormEncode(s: string): (r: string)
    ensures forall k :: 0 <= k < |r| ==> FormUnreserved(r[k]) || r[k] == '%' || r[k] == '+'
    ensures |r| >= |s|
  {
    if s == [] then []
    else
      (if FormUnreserved(s[0]) then [s[0]] else if s[0] == ' ' then "+" else Escape(Utf8(s[0])))
      + FormEncode(s[1..])
  }

  // ---------------------------------------------------------------------------
  // Decoding

  /** The byte escaped as `%XX` at position `i`, if there is one. */
  function EscapedByte(s: string, i: nat): (r: Option<Byte>)
  {
    if i + 3 <= |s| && s[i] == '%' && IsHex(s[i + 1]) && IsHex(s[i + 2])
    then Some(HexValue(s[i + 1]) * 16 + HexValue(s[i + 2]))
    else None
  }

  /** The `n` bytes escaped at the start of `s`, if all are there. */
  function EscapedBytes(s: string, n: nat): (r: Option<seq<Byte>>)
    ensures r.Some? ==> |r.value| == n && 3 * n <= |s|
    decreases n
  {
    if n == 0 then Some([])
    else match EscapedByte(s, 0)
      case None => None
      case Some(b) =>
        match EscapedBytes(s[3..], n - 1)
        case None => None
        case Some(rest) => Some([b] + rest)
  }

  function Prepend(c: char, r: Option<string>): Option<string>
  {
    if r.None? then None else Some([c] + r.value)
  }

  /** Strict percent-decoding: escapes are replaced by the text their bytes
      encode in UTF-8, `+` becomes a space when `plusIsSpace` holds, and every
      other character stands for itself. A malformed escape or byte sequence
      gives `None`. With `plusIsSpace` false this is JavaScript's
      `decodeURIComponent`. */
  function PercentDecode(s: string, plusIsSpace: bool): (r: Option<string>)
    decreases |s|
  {
    if s == [] then Some([])
    else if s[0] == '+' && plusIsSpace then Prepend(' ', PercentDecode(s[1..], plusIsSpace))
    else if s[0] != '%' then Prepend(s[0], PercentDecode(s[1..], plusIsSpace))
    else match EscapedByte(s, 0)
      case None => None
      case Some(b) =>
        var n := Utf8Length(b);
        if n == 0 then None
        else match EscapedBytes(s, n)
          case None => None
          case Some(bs) =>
            match Utf8Value(bs)
            case None => None
            case Some(c) => Prepend(c, PercentDecode(s[3 * n..], plusIsSpace))
  }

  /** The escapes of a byte sequence read back as that sequence. */
  lemma {:induction false} EscapedBytesOfEscape(bs: seq<Byte>, rest: string)
    ensures EscapedBytes(Escape(bs) + rest, |bs|) == Some(bs)
    decreases |bs|
  {
    if bs != [] {
      var head := ['%', HexDigits[bs[0] / 16], HexDigits[bs[0] % 16]];
      var tail := Escape(bs[1..]) + rest;
      assert Escape(bs) + rest == head + tail;
      EscapedByteOfHead(bs[0], tail);
      EscapedBytesOfEscape(bs[1..], rest);
      assert [bs[0]] + bs[1..] == bs;
    }
  }

  lemma {:induction false} EscapedByteOfHead(b: Byte, tail: string)
    ensures EscapedByte(['%', HexDigits[b / 16], HexDigits[b % 16]] + tail, 0) == Some(b)
    ensures (['%', HexDigits[b / 16], HexDigits[b % 16]] + tail)[3..] == tail
  {
    HexDigitValue(b);
  }

  lemma {:induction false} HexDigitValue(b: Byte)
    ensures IsHex(HexDigits[b / 16]) && IsHex(HexDigits[b % 16])
    ensures HexValue(HexDigits[b / 16]) * 16 + HexValue(HexDigits[b % 16]) == b
  {
    HexDigitAt(b / 16);
    HexDigitAt(b % 16);
  }

  lemma {:induction false} HexDigitAt(d: nat)
    requires d < 16
    ensures IsHex(HexDigits[d]) && HexValue(HexDigits[d]) == d
  {
  }

  /** The escapes of one character decode to that character. */
  lemma {:induction false} DecodeEscapedChar(c: char, rest: string, plusIsSpace: bool)
    ensures PercentDecode(Escape(Utf8(c)) + rest, plusIsSpace) == Prepend(c, PercentDecode(rest, plusIsSpace))
  {
    var bs := Utf8(c);
    var s := Escape(bs) + rest;
    Utf8RoundTrip(c);
    EscapedBytesOfEscape(bs, rest);
    EscapedBytesOfEscape(bs[..1], Escape(bs[1..]) + rest);
    assert Escape(bs) == Escape(bs[..1]) + Escape(bs[1..]) by {
      assert bs == bs[..1] + bs[1..];
    }
    assert s[0] == '%';
    assert EscapedByte(s, 0) == Some(bs[0]);
    assert s[3 * |bs|..] == rest;
  }

  /** `decodeURIComponent` inverts `encodeURIComponent`. */
  lemma {:induction false} DecodeEncodeURIComponent(s: string)
    ensures PercentDecode(EncodeURIComponent(s), false) == Some(s)
    decreases |s|
  {
    if s != [] {
      var tail := EncodeURIComponent(s[1..]);
      DecodeEncodeURIComponent(s[1..]);
      if UriUnreserved(s[0]) {
        assert EncodeURIComponent(s)[1..] == tail;
      } else {
        DecodeEscapedChar(s[0], tail, false);
      }
      assert [s[0]] + s[1..] == s;
    }
  }

  /** Form decoding inverts the form serializer. */
  lemma {:induction false} DecodeFormEncode(s: string)
    ensures PercentDecode(FormEncode(s), true) == Some(s)
    decreases |s|
  {
    if s != [] {
      var tail := FormEncode(s[1..]);
      DecodeFormEncode(s[1..]);
      if FormUnreserved(s[0]) || s[0] == ' ' {
        assert FormEncode(s)[1..] == tail;
      } else {
        DecodeEscapedChar(s[0], tail, true);
      }
      assert [s[0]] + s[1..] == s;
    }
  }
}
