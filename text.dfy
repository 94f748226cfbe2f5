/** String primitives the source takes from Python's and JavaScript's standard
    libraries: decimal digit strings, whitespace trimming, prefix and substring
    tests, and `split`/`join` on a non-empty separator. */
module Text {

  // ---------------------------------------------------------------------------
  // Decimal digits

  predicate IsDigit(c: char) { '0' <= c <= '9' }

  predicate AllDigits(s: string) { forall i :: 0 <= i < |s| ==> IsDigit(s[i]) }

  function DigitValue(c: char): (d: nat)
    requires IsDigit(c)
    ensures d < 10
  {
    (c as int) - ('0' as int)
  }

  function DigitChar(d: nat): (c: char)
    requires d < 10
    ensures IsDigit(c) && DigitValue(c) == d
  {
    (('0' as int) + d) as char
  }

  /** 10^e as a natural number. */
  function Pow10(e: nat): (p: nat)
    ensures p >= 1
  {
    if e == 0 then 1 else 10 * Pow10(e - 1)
  }

  /** The decimal text of `n`, without leading zeros: Python's `str(n)` and
      JavaScript's `String(n)` for a non-negative integer. */
  function NatToString(n: nat): (s: string)
    ensures 1 <= |s| && AllDigits(s)
    decreases n
  {
    if n < 10 then [DigitChar(n)] else NatToString(n / 10) + [DigitChar(n % 10)]
  }

  /** The decimal text of an integer, with a leading `-` when it is negative. */
  function IntToString(i: int): (s: string)
    ensures |s| >= 1
    ensures s[0] == '-' <==> i < 0
  {
    if i < 0 then "-" + NatToString(-i) else NatToString(i)
  }

  /** The number a string of decimal digits denotes (leading zeros allowed). */
  function DigitsValue(s: string): nat
    requires AllDigits(s)
  {
    if s == [] then 0 else DigitsValue(s[..|s| - 1]) * 10 + DigitValue(s[|s| - 1])
  }

  /** `n` written with exactly `width` digits, zeros in front: the fraction
      digits of a fixed-point number and the three-digit groups of a grouped one. */
  function PadDigits(n: nat, width: nat): (s: string)
    requires 1 <= width && n < Pow10(width)
    ensures |s| == width && AllDigits(s)
    ensures DigitsValue(s) == n
  {
    NatToStringLength(n, width);
    DigitsValueOfNatToString(n);
    var d := NatToString(n);
    ZerosPrefixValue(width - |d|, d);
    Zeros(width - |d|) + d
  }

  function Zeros(k: nat): (s: string)
    ensures |s| == k && AllDigits(s)
    ensures forall i :: 0 <= i < k ==> s[i] == '0'
  {
    if k == 0 then "" else Zeros(k - 1) + "0"
  }

  /** Reading back the digits NatToString writes gives the number. */
  lemma {:induction false} DigitsValueOfNatToString(n: nat)
    ensures DigitsValue(NatToString(n)) == n
    decreases n
  {
    var s := NatToString(n);
    if n >= 10 {
      DigitsValueOfNatToString(n / 10);
      assert s[..|s| - 1] == NatToString(n / 10);
    }
  }

  /** NatToString(n) has at most `width` digits exactly when n < 10^width. */
  lemma {:induction false} NatToStringLength(n: nat, width: nat)
    ensures |NatToString(n)| <= width <==> (width >= 1 && n < Pow10(width))
    decreases n
  {
    if n >= 10 {
      if width >= 1 {
        NatToStringLength(n / 10, width - 1);
      } else {
        NatToStringLength(n / 10, 0);
      }
    } else if width >= 1 {
      Pow10Positive(width);
    }
  }

  lemma {:induction false} Pow10Positive(width: nat)
    requires width >= 1
    ensures Pow10(width) >= 10
  {
    if width > 1 {
      Pow10Positive(width - 1);
    }
  }

  /** `n` digits never make more than 10^n - 1. */
  lemma {:induction false} DigitsValueBelow(s: string)
    requires AllDigits(s)
    ensures DigitsValue(s) < Pow10(|s|)
    decreases |s|
  {
    if s != [] {
      DigitsValueBelow(s[..|s| - 1]);
    }
  }

  /** Leading zeros do not change the value of a digit string. */
  lemma {:induction false} ZerosPrefixValue(k: nat, s: string)
    requires AllDigits(s)
    ensures DigitsValue(Zeros(k) + s) == DigitsValue(s)
    decreases |s|
  {
    if s == [] {
      assert Zeros(k) + s == Zeros(k);
      ZerosValue(k);
    } else {
      var t := Zeros(k) + s;
      assert t[..|t| - 1] == Zeros(k) + s[..|s| - 1];
      ZerosPrefixValue(k, s[..|s| - 1]);
    }
  }

  lemma {:induction false} ZerosValue(k: nat)
    ensures DigitsValue(Zeros(k)) == 0
  {
    if k > 0 {
      assert Zeros(k)[..k - 1] == Zeros(k - 1);
      ZerosValue(k - 1);
    }
  }

  /** The value of a concatenation of digit strings. */
  lemma {:induction false} DigitsValueAppend(a: string, b: string)
    requires AllDigits(a) && AllDigits(b)
    ensures DigitsValue(a + b) == DigitsValue(a) * Pow10(|b|) + DigitsValue(b)
    decreases |b|
  {
    if b == [] {
      assert a + b == a;
    } else {
      DigitsValueAppend(a, b[..|b| - 1]);
      DigitsValueAppendStep(a, b);
    }
  }

  /** One step of that induction: the last digit of `b` comes off. */
  lemma {:induction false} DigitsValueAppendStep(a: string, b: string)
    requires AllDigits(a) && AllDigits(b) && b != []
    requires DigitsValue(a + b[..|b| - 1]) == DigitsValue(a) * Pow10(|b| - 1) + DigitsValue(b[..|b| - 1])
    ensures DigitsValue(a + b) == DigitsValue(a) * Pow10(|b|) + DigitsValue(b)
  {
    var t := a + b;
    var b' := b[..|b| - 1];
    var d := DigitValue(b[|b| - 1]);
    assert t[..|t| - 1] == a + b';
    assert t[|t| - 1] == b[|b| - 1];
    var x, y, p := DigitsValue(a), DigitsValue(b'), Pow10(|b'|);
    assert DigitsValue(t) == (x * p + y) * 10 + d;
    assert Pow10(|b|) == p * 10;
    assert DigitsValue(b) == y * 10 + d;
    ShiftDigit(x, p, y, d);
  }

  lemma {:induction false} ShiftDigit(x: int, p: int, y: int, d: int)
    ensures (x * p + y) * 10 + d == x * (p * 10) + (y * 10 + d)
  {
  }

  // ---------------------------------------------------------------------------
  // Whitespace

  /** JavaScript's WhiteSpace and LineTerminator code points: what
      `String.prototype.trim` removes and `parseFloat` skips. */
  predicate IsJsSpace(c: char)
  {
    c == '\t' || c == '\n' || c == '\U{B}' || c == '\U{C}' || c == '\r' || c == ' '
    || c == '\U{A0}' || c == '\U{1680}' || ('\U{2000}' <= c <= '\U{200A}')
    || c == '\U{2028}' || c == '\U{2029}' || c == '\U{202F}' || c == '\U{205F}'
    || c == '\U{3000}' || c == '\U{FEFF}'
  }

  /** Python's `str.isspace`: what `str.strip()` and `float()` remove. */
  predicate IsPySpace(c: char)
  {
    c == '\t' || c == '\n' || c == '\U{B}' || c == '\U{C}' || c == '\r'
    || ('\U{1C}' <= c <= '\U{1F}') || c == ' ' || c == '\U{85}' || c == '\U{A0}'
    || c == '\U{1680}' || ('\U{2000}' <= c <= '\U{200A}') || c == '\U{2028}'
    || c == '\U{2029}' || c == '\U{202F}' || c == '\U{205F}' || c == '\U{3000}'
  }

  /** `s` without the white space at its start. */
  function TrimStart(s: string, ws: char -> bool): (r: string)
    ensures |r| <= |s| && r == s[|s| - |r|..]
    ensures forall i :: 0 <= i < |s| - |r| ==> ws(s[i])
    ensures r == [] || !ws(r[0])
  {
    if s != [] && ws(s[0]) then TrimStart(s[1..], ws) else s
  }

  /** `s` without the white space at its end. */
  function TrimEnd(s: string, ws: char -> bool): (r: string)
    ensures |r| <= |s| && r == s[..|r|]
    ensures forall i :: |r| <= i < |s| ==> ws(s[i])
    ensures r == [] || !ws(r[|r| - 1])
  {
    if s != [] && ws(s[|s| - 1]) then TrimEnd(s[..|s| - 1], ws) else s
  }

  /** JavaScript's `s.trim()`. */
  function JsTrim(s: string): (r: string)
  {
    TrimEnd(TrimStart(s, IsJsSpace), IsJsSpace)
  }

  /** Python's `s.strip()`. */
  function PyStrip(s: string): (r: string)
  {
    TrimEnd(TrimStart(s, IsPySpace), IsPySpace)
  }

  /** A string that neither starts nor ends with white space is left as it is. */
  lemma {:induction false} TrimmedAlready(s: string, ws: char -> bool)
    requires s != [] && !ws(s[0]) && !ws(s[|s| - 1])
    ensures TrimEnd(TrimStart(s, ws), ws) == s
  {
  }

  predicate Blank(s: string, ws: char -> bool) { forall i :: 0 <= i < |s| ==> ws(s[i]) }

  /** Trimming leaves nothing exactly when the string is all white space, and
      what it leaves is a piece of the string that neither starts nor ends
      with white space. */
  lemma {:induction false} TrimEmptyIffBlank(s: string, ws: char -> bool)
    ensures TrimEnd(TrimStart(s, ws), ws) == [] <==> Blank(s, ws)
  {
    var t := TrimStart(s, ws);
    var r := TrimEnd(t, ws);
    if r == [] {
      assert t == [];
    } else {
      assert !ws(t[0]);
      assert t[0] == s[|s| - |t|];
    }
  }

  // ---------------------------------------------------------------------------
  // Prefixes and substrings

  predicate StartsWith(s: string, prefix: string)
  {
    |prefix| <= |s| && s[..|prefix|] == prefix
  }

  /** Python's `sub in s`: `sub` occurs somewhere in `s`. */
  predicate Contains(s: string, sub: string)
  {
    exists i :: 0 <= i <= |s| - |sub| && OccursAt(s, sub, i)
  }

  /** `sub` occurs in `s` starting at position `i`. */
  predicate OccursAt(s: string, sub: string, i: int)
  {
    0 <= i && i + |sub| <= |s| && s[i..i + |sub|] == sub
  }

  // ---------------------------------------------------------------------------
  // split and join

  /** Python's `s.split(sep)` and JavaScript's `s.split(sep)` for a non-empty
      string separator: cut at every occurrence of `sep`, scanning from the
      left and never reusing characters of an occurrence already cut. */
  function Split(s: string, sep: string): (parts: seq<string>)
    requires sep != []
    ensures |parts| >= 1
    decreases |s|
  {
    if |s| < |sep| then [s]
    else if s[..|sep|] == sep then [""] + Split(s[|sep|..], sep)
    else
      var rest := Split(s[1..], sep);
      [[s[0]] + rest[0]] + rest[1..]
  }

  /** Python's `sep.join(parts)` and JavaScript's `parts.join(sep)`. */
  function Join(parts: seq<string>, sep: string): string
  {
    if |parts| == 0 then ""
    else if |parts| == 1 then parts[0]
    else parts[0] + sep + Join(parts[1..], sep)
  }

  /** Joining the pieces of a split gives back the original string. */
  lemma {:induction false} JoinSplit(s: string, sep: string)
    requires sep != []
    ensures Join(Split(s, sep), sep) == s
    decreases |s|
  {
    if |s| < |sep| {
    } else if s[..|sep|] == sep {
      var rest := Split(s[|sep|..], sep);
      JoinSplit(s[|sep|..], sep);
      assert Join([""] + rest, sep) == "" + sep + Join(rest, sep) by {
        assert ([""] + rest)[1..] == rest;
      }
      assert s == s[..|sep|] + s[|sep|..];
    } else {
      var rest := Split(s[1..], sep);
      JoinSplit(s[1..], sep);
      JoinConsChar(s[0], rest, sep);
    }
  }

  /** Putting a character in front of the first piece puts it in front of the join. */
  lemma {:induction false} JoinConsChar(c: char, parts: seq<string>, sep: string)
    requires |parts| >= 1
    ensures Join([[c] + parts[0]] + parts[1..], sep) == [c] + Join(parts, sep)
  {
    var q := [[c] + parts[0]] + parts[1..];
    if |parts| > 1 {
      assert q[1..] == parts[1..];
    }
  }

  /** A string holding a character of the separator that no part holds cannot
      contain the separator; the separator is then found only where it was
      put. `k` is the position of the first such character in `sep`. */
  predicate FirstAt(sep: string, k: nat, c: char)
  {
    k < |sep| && sep[k] == c && forall j :: 0 <= j < k ==> sep[j] != c
  }

  predicate Free(s: string, c: char) { forall i :: 0 <= i < |s| ==> s[i] != c }

  /** A string without `c` splits into itself. */
  lemma {:induction false} SplitFree(p: string, sep: string, k: nat, c: char)
    requires FirstAt(sep, k, c) && Free(p, c)
    ensures Split(p, sep) == [p]
    decreases |p|
  {
    if |p| >= |sep| {
      assert p[k] != c;
      assert p[..|sep|] != sep by { assert p[..|sep|][k] == p[k]; }
      SplitFree(p[1..], sep, k, c);
      assert [p[0]] + p[1..] == p;
    }
  }

  /** A string without `c` followed by the separator is cut exactly there. */
  lemma {:induction false} SplitAfterFree(p: string, sep: string, rest: string, k: nat, c: char)
    requires FirstAt(sep, k, c) && Free(p, c)
    ensures Split(p + sep + rest, sep) == [p] + Split(rest, sep)
    decreases |p|
  {
    var s := p + sep + rest;
    if p == [] {
      assert s == sep + rest;
      assert s[..|sep|] == sep;
      assert s[|sep|..] == rest;
    } else {
      assert s[..|sep|] != sep by {
        if k < |p| {
          assert s[k] == p[k];
        } else {
          assert s[k] == sep[k - |p|];
        }
        assert s[..|sep|][k] == s[k] != sep[k];
      }
      assert s[1..] == p[1..] + sep + rest;
      SplitAfterFree(p[1..], sep, rest, k, c);
      assert [p[0]] + p[1..] == p;
    }
  }

  /** Splitting a join gives back the parts when no part holds a character
      `c` of the separator (one occurrence of `sep` per boundary, none inside
      a part). */
  lemma {:induction false} SplitJoin(parts: seq<string>, sep: string, k: nat, c: char)
    requires |parts| >= 1 && FirstAt(sep, k, c)
    requires forall i :: 0 <= i < |parts| ==> Free(parts[i], c)
    ensures Split(Join(parts, sep), sep) == parts
    decreases |parts|
  {
    if |parts| == 1 {
      SplitFree(parts[0], sep, k, c);
    } else {
      SplitJoin(parts[1..], sep, k, c);
      SplitAfterFree(parts[0], sep, Join(parts[1..], sep), k, c);
    }
  }

  /** A string that splits into several pieces contains the separator. */
  lemma {:induction false} SplitManyContains(s: string, sep: string)
    requires sep != []
    requires |Split(s, sep)| >= 2
    ensures Contains(s, sep)
    decreases |s|
  {
    if |s| < |sep| {
    } else if s[..|sep|] == sep {
      assert OccursAt(s, sep, 0);
    } else {
      SplitManyContains(s[1..], sep);
      var i :| 0 <= i <= |s[1..]| - |sep| && OccursAt(s[1..], sep, i);
      assert s[i + 1..i + 1 + |sep|] == s[1..][i..i + |sep|];
      assert OccursAt(s, sep, i + 1);
    }
  }
}
