/** Numbers as JavaScript and Python hold them, and the number/text conversions
    the source relies on: JavaScript's `parseFloat` and `Number.prototype.toFixed`,
    and Python's `float(str)`. Finite values are exact reals: the rounding of a
    decimal literal to the nearest binary double is not modelled. */
module Numbers {
  import opened Text
  import opened Wrappers

  /** A double: not-a-number, an infinity, or a finite value. */
  datatype Number = NaN | PosInf | NegInf | Finite(value: real)

  function Abs(x: real): (r: real)
    ensures r >= 0.0 && (r == x || r == -x)
  {
    if x < 0.0 then -x else x
  }

  // ---------------------------------------------------------------------------
  // Scanning an unsigned decimal literal

  /** The pieces of an unsigned decimal literal `digits[.digits][(e|E)[sign]digits]`
      found at the start of a string, and how many characters it spans. */
  datatype Literal = Literal(intDigits: string, fracDigits: string,
                             expNegative: bool, expDigits: string, length: nat)

  predicate WellFormed(l: Literal)
  {
    AllDigits(l.intDigits) && AllDigits(l.fracDigits) && AllDigits(l.expDigits)
    && (l.intDigits != [] || l.fracDigits != [])
  }

  /** The exact value a literal denotes. */
  function LiteralValue(l: Literal): (v: real)
    requires WellFormed(l)
    ensures v >= 0.0
  {
    var mantissa := DigitsValue(l.intDigits + l.fracDigits) as real / Pow10(|l.fracDigits|) as real;
    if l.expDigits == [] then mantissa
    else
      var e := Pow10(DigitsValue(l.expDigits)) as real;
      if l.expNegative then mantissa / e else mantissa * e
  }

  /** The end of the run of decimal digits that starts at position `i`. */
  function DigitsEnd(s: string, i: nat): (j: nat)
    requires i <= |s|
    ensures i <= j <= |s|
    ensures forall k :: i <= k < j ==> IsDigit(s[k])
    ensures j == |s| || !IsDigit(s[j])
    decreases |s| - i
  {
    if i < |s| && IsDigit(s[i]) then DigitsEnd(s, i + 1) else i
  }

  /** The longest unsigned decimal literal at the start of `s`, if any: the
      grammar JavaScript's StrUnsignedDecimalLiteral and Python's float literal
      share (without `Infinity`, and without Python's digit underscores). */
  function ScanUnsigned(s: string): (r: Option<Literal>)
    ensures r.Some? ==> WellFormed(r.value) && 1 <= r.value.length <= |s|
  {
    var a := DigitsEnd(s, 0);
    assert AllDigits(s[..a]);
    if a < |s| && s[a] == '.' then
      var b := DigitsEnd(s, a + 1);
      assert AllDigits(s[a + 1..b]);
      if a == 0 && b == a + 1 then None
      else Some(WithExponent(s, s[..a], s[a + 1..b], b))
    else if a == 0 then None
    else Some(WithExponent(s, s[..a], "", a))
  }

  /** Completes a literal whose mantissa ends at `m` with the exponent that
      follows it, when a complete one does. */
  function WithExponent(s: string, intDigits: string, fracDigits: string, m: nat): (l: Literal)
    requires m <= |s|
    ensures l.intDigits == intDigits && l.fracDigits == fracDigits && m <= l.length <= |s|
    ensures AllDigits(l.expDigits)
    ensures l.length == m <==> l.expDigits == []
  {
    if m < |s| && (s[m] == 'e' || s[m] == 'E') then
      var signed := m + 1 < |s| && (s[m + 1] == '+' || s[m + 1] == '-');
      var k := if signed then m + 2 else m + 1;
      var e := DigitsEnd(s, k);
      assert AllDigits(s[k..e]);
      if e > k then Literal(intDigits, fracDigits, signed && s[m + 1] == '-', s[k..e], e)
      else Literal(intDigits, fracDigits, false, "", m)
    else Literal(intDigits, fracDigits, false, "", m)
  }

  /** Splits off a leading `+` or `-`. */
  function SplitSign(t: string): (r: (bool, string))
    ensures r.1 == if t != [] && (t[0] == '+' || t[0] == '-') then t[1..] else t
    ensures r.0 <==> t != [] && t[0] == '-'
  {
    if t != [] && (t[0] == '+' || t[0] == '-') then (t[0] == '-', t[1..]) else (false, t)
  }

  function Signed(negative: bool, v: real): real { if negative then -v else v }

  // ---------------------------------------------------------------------------
  // JavaScript parseFloat

  /** JavaScript's `parseFloat(s)` on a string: skip leading white space, then
      read the longest prefix that is a signed decimal literal or `Infinity`;
      NaN when there is none. Whatever follows the prefix is ignored. */
  function JsParseFloat(s: string): Number
  {
    var signed := SplitSign(TrimStart(s, IsJsSpace));
    var negative, rest := signed.0, signed.1;
    if StartsWith(rest, "Infinity") then (if negative then NegInf else PosInf)
    else
      var l := ScanUnsigned(rest);
      if l.None? then NaN else Finite(Signed(negative, LiteralValue(l.value)))
  }

  // ---------------------------------------------------------------------------
  // Python float(str)

  function AsciiLower(s: string): (r: string)
    ensures |r| == |s|
  {
    if s == [] then []
    else [if 'A' <= s[0] <= 'Z' then (s[0] as int + 32) as char else s[0]] + AsciiLower(s[1..])
  }

  /** Python's `float(s)` on a string: after stripping white space the whole
      text must be a signed decimal literal, or `inf`, `infinity` or `nan` in
      any letter case; otherwise `float` raises ValueError (here `None`). */
  function PyParseFloat(s: string): (r: Option<Number>)
    ensures r.Some? && r.value.Finite? ==> ScanUnsigned(SplitSign(PyStrip(s)).1).Some?
  {
    var signed := SplitSign(PyStrip(s));
    var negative, rest := signed.0, signed.1;
    var lower := AsciiLower(rest);
    if lower == "inf" || lower == "infinity" then Some(if negative then NegInf else PosInf)
    else if lower == "nan" then Some(NaN)
    else
      var l := ScanUnsigned(rest);
      if l.Some? && l.value.length == |rest| then Some(Finite(Signed(negative, LiteralValue(l.value))))
      else None
  }

  /** `float` of a text with no white space around it whose unsigned part
      is one literal throughout and not one of the special words. */
  lemma {:induction false} PyParseFloatOfLiteral(text: string, negative: bool, rest: string, l: Literal)
    requires PyStrip(text) == text && SplitSign(text) == (negative, rest)
    requires AsciiLower(rest) != "inf" && AsciiLower(rest) != "infinity" && AsciiLower(rest) != "nan"
    requires ScanUnsigned(rest) == Some(l) && l.length == |rest|
    ensures PyParseFloat(text) == Some(Finite(Signed(negative, LiteralValue(l))))
  {
  }

  // ---------------------------------------------------------------------------
  // JavaScript toFixed

  /** The minus sign written before a negative number. */
  function SignText(negative: bool): string { if negative then "-" else "" }

  /** Python's `float` of a signed fixed-point text is its value. */
  lemma {:induction false} PyParseSignedFixed(text: string, negative: bool, m: nat, f: nat, x: real)
    requires f >= 1 && text == SignText(negative) + FixedDigits(m, f)
    requires x == Signed(negative, m as real / Pow10(f) as real)
    ensures PyParseFloat(text) == Some(Finite(x))
  {
    var l := ScanFixedDigits(m, f);
    PyParseSignedDigits(text, negative, FixedDigits(m, f), l);
  }

  /** Python's `float` of a sign and a text that starts and ends with a
      digit and is one literal throughout. */
  lemma {:induction false} PyParseSignedDigits(text: string, negative: bool, body: string, l: Literal)
    requires text == SignText(negative) + body
    requires body != [] && IsDigit(body[0]) && IsDigit(body[|body| - 1])
    requires ScanUnsigned(body) == Some(l) && WellFormed(l) && l.length == |body|
    ensures PyParseFloat(text) == Some(Finite(Signed(negative, LiteralValue(l))))
  {
    SignedTextShape(negative, body);
    TrimmedAlready(text, IsPySpace);
    NotSpecialWord(body);
    PyParseFloatOfLiteral(text, negative, body, l);
  }

  lemma {:induction false} SignedTextShape(negative: bool, body: string)
    requires body != [] && IsDigit(body[0]) && IsDigit(body[|body| - 1])
    ensures var text := SignText(negative) + body;
            text != [] && !IsPySpace(text[0]) && !IsPySpace(text[|text| - 1])
            && SplitSign(text) == (negative, body)
  {
    var text := SignText(negative) + body;
    assert text[|text| - 1] == body[|body| - 1];
    if negative {
      assert text[1..] == body;
    } else {
      assert text == body;
    }
  }

  /** A text that starts with a digit is none of the words `float` accepts. */
  lemma {:induction false} NotSpecialWord(body: string)
    requires body != [] && IsDigit(body[0])
    ensures var lower := AsciiLower(body); lower != "inf" && lower != "infinity" && lower != "nan"
  {
    var lower := AsciiLower(body);
    assert lower[0] == body[0] by {
      assert lower == [body[0]] + AsciiLower(body[1..]);
    }
    assert lower[0] != 'i' && lower[0] != 'n';
  }

  /** The integer nearest to `x`·10^f, the larger one on a tie. */
  function RoundScaled(x: real, f: nat): (m: nat)
    requires x >= 0.0
    ensures (m as real) - 0.5 <= x * Pow10(f) as real < (m as real) + 0.5
  {
    var y := x * Pow10(f) as real;
    assert y >= 0.0;
    (y + 0.5).Floor
  }

  /** The decimal digits of `m`, with zeros in front to make at least `f + 1`. */
  function PaddedDigits(m: nat, f: nat): (t: string)
    ensures |t| >= f + 1 && AllDigits(t)
    ensures DigitsValue(t) == m
  {
    var d := NatToString(m);
    DigitsValueOfNatToString(m);
    if |d| <= f then
      ZerosPrefixValue(f + 1 - |d|, d);
      Zeros(f + 1 - |d|) + d
    else d
  }

  /** `m`·10^-f written with exactly `f` fraction digits: the digits of `m`,
      padded to at least `f + 1`, with a point before the last `f`. */
  function FixedDigits(m: nat, f: nat): (s: string)
    requires f >= 1
    ensures |s| >= f + 2 && s[|s| - f - 1] == '.'
    ensures forall k :: 0 <= k < |s| ==> IsDigit(s[k]) || s[k] == '.'
  {
    var t := PaddedDigits(m, f);
    PointedChars(t[..|t| - f], t[|t| - f..]);
    t[..|t| - f] + "." + t[|t| - f..]
  }

  /** Two runs of digits around a point hold only digits and the point. */
  lemma {:induction false} PointedChars(a: string, b: string)
    requires AllDigits(a) && AllDigits(b)
    ensures forall k :: 0 <= k < |a + "." + b| ==> IsDigit((a + "." + b)[k]) || (a + "." + b)[k] == '.'
  {
    var s := a + "." + b;
    forall k | 0 <= k < |s|
      ensures IsDigit(s[k]) || s[k] == '.'
    {
      if k < |a| {
        assert s[k] == a[k];
      } else if k > |a| {
        assert s[k] == b[k - |a| - 1];
      }
    }
  }

  /** JavaScript's `n.toFixed(f)` for f >= 1: NaN and the infinities print as
      their names; a finite value prints as its magnitude rounded to `f`
      fraction digits (the larger candidate on a tie), preceded by `-` when
      the value is negative. */
  function ToFixed(n: Number, f: nat): (s: string)
    requires f >= 1
    ensures forall k :: 0 <= k < |s| ==> NumberChar(s[k])
  {
    match n
    case NaN => "NaN"
    case PosInf => "Infinity"
    case NegInf => "-Infinity"
    case Finite(x) => (if x < 0.0 then "-" else "") + FixedDigits(RoundScaled(Abs(x), f), f)
  }

  /** The characters a number's printed form is made of. */
  predicate NumberChar(c: char)
  {
    IsDigit(c) || c == '.' || c == '-' || 'A' <= c <= 'Z' || 'a' <= c <= 'z'
  }

  /** The value `toFixed` prints for a finite number: its rounding to `f` places. */
  function Rounded(x: real, f: nat): real
  {
    Signed(x < 0.0, RoundScaled(Abs(x), f) as real / Pow10(f) as real)
  }

  /** `toFixed` loses at most half a unit in the last printed place, and reading
      its text back with `parseFloat` gives exactly the rounded value. */
  lemma {:induction false} ToFixedRoundTrip(x: real, f: nat)
    requires f >= 1
    ensures JsParseFloat(ToFixed(Finite(x), f)) == Finite(Rounded(x, f))
    ensures Abs(Rounded(x, f) - x) <= 0.5 / Pow10(f) as real
  {
    ToFixedParses(x, f);
    ToFixedError(x, f);
  }

  lemma {:induction false} ToFixedParses(x: real, f: nat)
    requires f >= 1
    ensures JsParseFloat(ToFixed(Finite(x), f)) == Finite(Rounded(x, f))
  {
    var m := RoundScaled(Abs(x), f);
    var body := FixedDigits(m, f);
    assert ToFixed(Finite(x), f) == (if x < 0.0 then "-" else "") + body;
    var l := ScanFixedDigits(m, f);
    ParseSignedDigits(x < 0.0, body, l);
  }

  lemma {:induction false} ToFixedError(x: real, f: nat)
    ensures Abs(Rounded(x, f) - x) <= 0.5 / Pow10(f) as real
  {
    var m := RoundScaled(Abs(x), f);
    var v := m as real / Pow10(f) as real;
    RoundingError(Abs(x), m, Pow10(f));
    assert Rounded(x, f) == Signed(x < 0.0, v);
    if x < 0.0 {
      assert Rounded(x, f) - x == -(v - Abs(x));
    } else {
      assert Rounded(x, f) - x == v - Abs(x);
    }
  }

  /** The literal the scanner finds in `FixedDigits(m, f)`. */
  function FixedLiteral(m: nat, f: nat): (l: Literal)
    requires f >= 1
  {
    var t := PaddedDigits(m, f);
    Literal(t[..|t| - f], t[|t| - f..], false, "", |t| + 1)
  }

  /** The scanner reads all of a fixed-point text, and its value is m·10^-f. */
  lemma {:induction false} ScanFixedDigits(m: nat, f: nat) returns (l: Literal)
    requires f >= 1
    ensures ScanUnsigned(FixedDigits(m, f)) == Some(l) && WellFormed(l)
    ensures LiteralValue(l) == m as real / Pow10(f) as real
    ensures IsDigit(FixedDigits(m, f)[0]) && l.length == |FixedDigits(m, f)|
    ensures IsDigit(FixedDigits(m, f)[|FixedDigits(m, f)| - 1])
  {
    l := FixedLiteral(m, f);
    FixedScan(m, f);
    FixedLiteralValue(m, f);
  }

  lemma {:induction false} FixedScan(m: nat, f: nat)
    requires f >= 1
    ensures ScanUnsigned(FixedDigits(m, f)) == Some(FixedLiteral(m, f))
    ensures IsDigit(FixedDigits(m, f)[0]) && FixedLiteral(m, f).length == |FixedDigits(m, f)|
    ensures IsDigit(FixedDigits(m, f)[|FixedDigits(m, f)| - 1])
  {
    var t := PaddedDigits(m, f);
    assert FixedDigits(m, f) == t[..|t| - f] + "." + t[|t| - f..];
    assert FixedLiteral(m, f) == Literal(t[..|t| - f], t[|t| - f..], false, "", |t| + 1);
    PointedScan(t, f);
  }

  /** A run of digits with a point put before its last `f` digits is read
      whole, and starts and ends with a digit. */
  lemma {:induction false} PointedScan(t: string, f: nat)
    requires f >= 1 && |t| >= f + 1 && AllDigits(t)
    ensures var s := t[..|t| - f] + "." + t[|t| - f..];
            ScanUnsigned(s) == Some(Literal(t[..|t| - f], t[|t| - f..], false, "", |t| + 1))
            && IsDigit(s[0]) && IsDigit(s[|s| - 1])
  {
    var a, b := t[..|t| - f], t[|t| - f..];
    var s := a + "." + b;
    assert AllDigits(a) && AllDigits(b) by {
      assert forall k :: 0 <= k < |a| ==> a[k] == t[k];
      assert forall k :: 0 <= k < |b| ==> b[k] == t[|t| - f + k];
    }
    ScanPointed(a, b);
    assert s[0] == a[0] && s[|s| - 1] == b[|b| - 1];
  }

  lemma {:induction false} FixedLiteralValue(m: nat, f: nat)
    requires f >= 1
    ensures WellFormed(FixedLiteral(m, f))
    ensures LiteralValue(FixedLiteral(m, f)) == m as real / Pow10(f) as real
  {
    var l := FixedLiteral(m, f);
    var t := PaddedDigits(m, f);
    assert l.intDigits + l.fracDigits == t;
    assert |l.fracDigits| == f && l.expDigits == [];
  }

  /** A run of digits, a point and a run of digits is read whole. */
  lemma {:induction false} ScanPointed(intDigits: string, fracDigits: string)
    requires intDigits != [] && AllDigits(intDigits) && AllDigits(fracDigits)
    ensures ScanUnsigned(intDigits + "." + fracDigits)
         == Some(Literal(intDigits, fracDigits, false, "", |intDigits| + 1 + |fracDigits|))
  {
    var body := intDigits + "." + fracDigits;
    var a := |intDigits|;
    assert DigitsEnd(body, 0) == a && body[..a] == intDigits by {
      DigitsEndAt(body, 0, a);
    }
    assert a < |body| && body[a] == '.';
    assert DigitsEnd(body, a + 1) == |body| && body[a + 1..|body|] == fracDigits by {
      DigitsEndAt(body, a + 1, |body|);
    }
  }

  /** `parseFloat` of a sign and a text that starts with a digit is the signed
      value of the literal the scanner finds there. */
  lemma {:induction false} ParseSignedDigits(negative: bool, body: string, l: Literal)
    requires body != [] && IsDigit(body[0])
    requires ScanUnsigned(body) == Some(l) && WellFormed(l)
    ensures JsParseFloat((if negative then "-" else "") + body) == Finite(Signed(negative, LiteralValue(l)))
  {
    JsSignedTextShape(negative, body);
    ParseFloatOfLiteral((if negative then "-" else "") + body, negative, body, l);
  }

  /** A sign and a text that starts with a digit: no leading white space,
      the sign splits off, and no "Infinity". */
  lemma {:induction false} JsSignedTextShape(negative: bool, body: string)
    requires body != [] && IsDigit(body[0])
    ensures var text := (if negative then "-" else "") + body;
            TrimStart(text, IsJsSpace) == text && SplitSign(text) == (negative, body)
            && !StartsWith(body, "Infinity")
  {
    var text := (if negative then "-" else "") + body;
    assert TrimStart(text, IsJsSpace) == text by {
      assert !IsJsSpace(text[0]);
    }
    assert SplitSign(text) == (negative, body);
    assert !StartsWith(body, "Infinity") by { assert body[0] != 'I'; }
  }

  lemma {:induction false} ParseFloatOfLiteral(text: string, negative: bool, body: string, l: Literal)
    requires TrimStart(text, IsJsSpace) == text && SplitSign(text) == (negative, body)
    requires !StartsWith(body, "Infinity")
    requires ScanUnsigned(body) == Some(l) && WellFormed(l)
    ensures JsParseFloat(text) == Finite(Signed(negative, LiteralValue(l)))
  {
  }

  /** DigitsEnd stops at the first non-digit. */
  lemma {:induction false} DigitsEndAt(s: string, i: nat, j: nat)
    requires i <= j <= |s|
    requires forall k :: i <= k < j ==> IsDigit(s[k])
    requires j == |s| || !IsDigit(s[j])
    ensures DigitsEnd(s, i) == j
    decreases j - i
  {
    if i < j {
      DigitsEndAt(s, i + 1, j);
    }
  }

  lemma {:induction false} RoundingError(a: real, m: nat, p: nat)
    requires a >= 0.0 && p >= 1
    requires (m as real) - 0.5 <= a * p as real < (m as real) + 0.5
    ensures Abs(m as real / p as real - a) <= 0.5 / p as real
  {
    var pr := p as real;
    assert m as real / pr - a == ((m as real) - a * pr) / pr;
  }
}
