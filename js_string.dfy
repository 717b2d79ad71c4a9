/**
 * The JavaScript string and number built-ins that the stock-out screens rely on:
 * `String.prototype.trim`, `substring`, `padStart`, `slice(-n)`, the decimal
 * rendering of a non-negative integer, and the global `parseInt` with no radix.
 */
module JsString {
  import opened Wrappers

  function Min(a: int, b: int): int { if a <= b then a else b }
  function Max(a: int, b: int): int { if a <= b then b else a }

  /** The characters `trim` removes: ECMAScript WhiteSpace (TAB, VT, FF, ZWNBSP and the
      Unicode space separators) and LineTerminator (LF, CR, LS, PS). */
  const Whitespace: set<char> := {
    '\t', '\n', '\U{000B}', '\U{000C}', '\r', ' ', '\U{00A0}', '\U{1680}',
    '\U{2000}', '\U{2001}', '\U{2002}', '\U{2003}', '\U{2004}', '\U{2005}',
    '\U{2006}', '\U{2007}', '\U{2008}', '\U{2009}', '\U{200A}',
    '\U{2028}', '\U{2029}', '\U{202F}', '\U{205F}', '\U{3000}', '\U{FEFF}'
  }

  predicate IsWhitespace(c: char) {
    c in Whitespace
  }

  predicate AllWhitespace(s: string) {
    forall i :: 0 <= i < |s| ==> IsWhitespace(s[i])
  }

  /** `r` occurs in `s` starting at offset `i`. */
  predicate IsInfixAt(r: string, s: string, i: nat) {
    i + |r| <= |s| && s[i..i + |r|] == r
  }

  predicate IsInfix(r: string, s: string) {
    exists i: nat | i <= |s| :: IsInfixAt(r, s, i)
  }

  /** `trimStart`: drops the leading whitespace. */
  function TrimStart(s: string): (r: string)
    ensures |r| <= |s|
    ensures r == [] || !IsWhitespace(r[0])
  {
    if s == [] || !IsWhitespace(s[0]) then s else TrimStart(s[1..])
  }

  /** `trimEnd`: drops the trailing whitespace. */
  function TrimEnd(s: string): (r: string)
    ensures |r| <= |s|
    ensures r == [] || (r[0] == s[0] && !IsWhitespace(r[|r| - 1]))
  {
    if s == [] || !IsWhitespace(s[|s| - 1]) then s else TrimEnd(s[..|s| - 1])
  }

  /** `trim`: drops the whitespace at both ends. */
  function Trim(s: string): (r: string)
    ensures |r| <= |s|
    ensures r == [] || (!IsWhitespace(r[0]) && !IsWhitespace(r[|r| - 1]))
  {
    TrimEnd(TrimStart(s))
  }

  /** `trimStart` keeps a suffix and cuts off only whitespace. */
  lemma {:induction false} TrimStartIsSuffix(s: string)
    ensures TrimStart(s) == s[|s| - |TrimStart(s)|..]
    ensures AllWhitespace(s[..|s| - |TrimStart(s)|])
  {
    if s != [] && IsWhitespace(s[0]) {
      var r := TrimStart(s[1..]);
      TrimStartIsSuffix(s[1..]);
      assert s[1..][..|s| - 1 - |r|] == s[1..|s| - |r|];
    }
  }

  /** `trimEnd` keeps a prefix and cuts off only whitespace. */
  lemma {:induction false} TrimEndIsPrefix(s: string)
    ensures TrimEnd(s) == s[..|TrimEnd(s)|]
    ensures AllWhitespace(s[|TrimEnd(s)|..])
  {
    if s != [] && IsWhitespace(s[|s| - 1]) {
      var r := TrimEnd(s[..|s| - 1]);
      TrimEndIsPrefix(s[..|s| - 1]);
      assert s[..|s| - 1][|r|..] == s[|r|..|s| - 1];
    }
  }

  /** What `trim` keeps is the infix of `s` that starts where the leading whitespace
      stops, and everything it cuts off on either side is whitespace. */
  lemma TrimCutsOnlyWhitespace(s: string)
    ensures IsInfixAt(Trim(s), s, |s| - |TrimStart(s)|)
    ensures AllWhitespace(s[..|s| - |TrimStart(s)|])
    ensures AllWhitespace(s[|s| - |TrimStart(s)| + |Trim(s)|..])
  {
    var t := TrimStart(s);
    TrimStartIsSuffix(s);
    TrimEndIsPrefix(t);
    PrefixOfSuffix(s, t, TrimEnd(t), |s| - |t|);
  }

  /** A prefix `r` of the suffix `t` of `s` that starts at `k` sits at `k` in `s`, and
      what follows it in `t` is what follows it in `s`. */
  lemma PrefixOfSuffix(s: string, t: string, r: string, k: nat)
    requires k <= |s| && t == s[k..] && |r| <= |t| && r == t[..|r|]
    ensures IsInfixAt(r, s, k) && t[|r|..] == s[k + |r|..]
  {
  }

  /** `!s.trim()`: the string is empty once trimmed. */
  predicate IsBlank(s: string) {
    Trim(s) == []
  }

  /** A string is blank exactly when every one of its characters is whitespace. */
  lemma BlankIffAllWhitespace(s: string)
    ensures IsBlank(s) <==> AllWhitespace(s)
  {
    var k := |s| - |TrimStart(s)|;
    TrimCutsOnlyWhitespace(s);
    if IsBlank(s) {
      forall i | 0 <= i < |s| ensures IsWhitespace(s[i]) {
        if i < k { assert s[..k][i] == s[i]; } else { assert s[k..][i - k] == s[i]; }
      }
    }
  }

  /** `s.substring(start, end)` for non-negative arguments: both are clamped to `|s|`
      and swapped when `start > end`. */
  function Substring(s: string, start: nat, end: nat): (r: string)
    ensures |r| <= |s|
    ensures start <= end <= |s| ==> r == s[start..end]
    ensures end < start <= |s| ==> r == s[end..start]
  {
    var lo := Min(Min(start, end), |s|);
    var hi := Min(Max(start, end), |s|);
    s[lo..hi]
  }

  /** `s.substring(start)`: the suffix from `start`, empty when `start >= |s|`. */
  function SubstringFrom(s: string, start: nat): (r: string)
    ensures Substring(s, 0, start) + r == s
  {
    Substring(s, start, |s|)
  }

  /** `s.slice(-n)` for `n >= 1`: the last `n` characters, or all of `s` when shorter. */
  function SliceLast(s: string, n: nat): (r: string)
    requires n >= 1
    ensures |r| == Min(n, |s|)
  {
    if |s| <= n then s else s[|s| - n..]
  }

  /** The slice is the last `min(n, |s|)` characters: what precedes it completes `s`. */
  lemma SliceLastIsSuffix(s: string, n: nat)
    requires n >= 1
    ensures |SliceLast(s, n)| == Min(n, |s|)
    ensures s[..|s| - |SliceLast(s, n)|] + SliceLast(s, n) == s
  {
  }

  function Repeat(c: char, n: nat): (r: string)
    ensures |r| == n && forall i :: 0 <= i < n ==> r[i] == c
  {
    if n == 0 then [] else [c] + Repeat(c, n - 1)
  }

  /** `s.padStart(len, fill)` with a one-character fill string. */
  function PadStart(s: string, len: nat, fill: char): (r: string)
    ensures |r| == Max(len, |s|)
  {
    if |s| >= len then s else Repeat(fill, len - |s|) + s
  }

  /** Padding reaches length `len` (or leaves a longer `s` alone), keeps `s` as the
      suffix and puts only `fill` in front of it. */
  lemma PadStartLayout(s: string, len: nat, fill: char)
    ensures var r := PadStart(s, len, fill);
      && |r| == Max(len, |s|)
      && r[|r| - |s|..] == s
      && forall i :: 0 <= i < |r| - |s| ==> r[i] == fill
  {
  }

  predicate IsDecimalDigit(c: char) { '0' <= c <= '9' }

  predicate AllDecimalDigits(s: string) {
    forall i :: 0 <= i < |s| ==> IsDecimalDigit(s[i])
  }

  /** The value of one digit in base `radix` (10 or 16), or `None` when `c` is not one. */
  function DigitValue(c: char, radix: nat): (r: Option<nat>)
    ensures r.Some? ==> r.value < radix
    ensures radix == 10 ==> (r.Some? <==> IsDecimalDigit(c))
  {
    var v: Option<nat> :=
      if '0' <= c <= '9' then Some(c as nat - '0' as nat)
      else if 'a' <= c <= 'z' then Some(c as nat - 'a' as nat + 10)
      else if 'A' <= c <= 'Z' then Some(c as nat - 'A' as nat + 10)
      else None;
    if v.Some? && v.value < radix then v else None
  }

  predicate IsDigitIn(c: char, radix: nat) { DigitValue(c, radix).Some? }

  /** The numeric value of a string of base-`radix` digits, most significant first
      (a character that is not a digit would count as 0; callers only pass digits). */
  function DigitsValue(s: string, radix: nat): nat
  {
    if s == [] then 0
    else
      var high := DigitsValue(s[..|s| - 1], radix);
      var low := DigitValue(s[|s| - 1], radix).GetOr(0);
      ProductOfNaturals(high, radix);
      high * radix + low
  }

  lemma ProductOfNaturals(a: nat, b: nat)
    ensures a * b >= 0
  {
  }

  function DecimalValue(s: string): nat
  {
    DigitsValue(s, 10)
  }

  function Pow10(n: nat): (r: nat)
    ensures r >= 1
  {
    if n == 0 then 1 else 10 * Pow10(n - 1)
  }

  lemma {:induction false} Pow10Monotone(a: nat, b: nat)
    requires a <= b
    ensures Pow10(a) <= Pow10(b)
  {
    if a < b {
      Pow10Monotone(a, b - 1);
    }
  }

  /** `k` decimal digits stay below `10^k`. */
  lemma {:induction false} DigitsBound(s: string)
    requires AllDecimalDigits(s)
    ensures DecimalValue(s) < Pow10(|s|)
  {
    if s != [] {
      DigitsBound(s[..|s| - 1]);
    }
  }

  /** The longest prefix of `s` made of base-`radix` digits. */
  function DigitPrefix(s: string, radix: nat): (r: string)
    ensures |r| <= |s| && r == s[..|r|]
    ensures forall i :: 0 <= i < |r| ==> IsDigitIn(r[i], radix)
    ensures |r| < |s| ==> !IsDigitIn(s[|r|], radix)
  {
    if s == [] || !IsDigitIn(s[0], radix) then []
    else [s[0]] + DigitPrefix(s[1..], radix)
  }

  /** The global `parseInt(s)` with no radix argument: leading whitespace is skipped, one
      sign is read, a `0x`/`0X` prefix switches to base 16, and the longest run of digits
      that follows is the value; no digits at all gives `NaN`, modelled as `None`. */
  function ParseInt(s: string): (r: Option<int>)
    ensures TrimStart(s) == [] ==> r == None
    ensures r.Some? && r.value < 0 ==> TrimStart(s)[0] == '-'
  {
    var t := TrimStart(s);
    var negative := |t| > 0 && t[0] == '-';
    var unsigned := if |t| > 0 && (t[0] == '-' || t[0] == '+') then t[1..] else t;
    var hex := |unsigned| >= 2 && unsigned[0] == '0' && (unsigned[1] == 'x' || unsigned[1] == 'X');
    var radix := if hex then 16 else 10;
    var digits := DigitPrefix(if hex then unsigned[2..] else unsigned, radix);
    if digits == [] then None
    else
      var magnitude: int := DigitsValue(digits, radix);
      Some(if negative then -magnitude else magnitude)
  }

  /** A non-empty string of decimal digits is read by `parseInt` as its decimal value,
      provided it cannot be mistaken for a `0x` prefix. */
  lemma ParseIntOfDigits(s: string)
    requires s != [] && AllDecimalDigits(s)
    ensures ParseInt(s) == Some(DecimalValue(s) as int)
  {
    assert IsDecimalDigit(s[0]) && !IsWhitespace(s[0]);
    assert TrimStart(s) == s;
    assert |s| >= 2 ==> IsDecimalDigit(s[1]) && s[1] != 'x' && s[1] != 'X';
    var p := DigitPrefix(s, 10);
    assert p == s;
  }

  /** `parseInt` of the empty string is `NaN`. */
  lemma ParseIntEmpty()
    ensures ParseInt("") == None
  {
  }

  /** `String(n)` for a non-negative integer below 10^21: its shortest decimal
      rendering, which reads back as `n` and has no leading zero. From 10^21 on,
      JavaScript switches to exponent notation, which is not modelled; every number
      rendered here is a clock component or a random number below 10000. */
  function NatToString(n: nat): (r: string)
    ensures 1 <= |r| && AllDecimalDigits(r)
    ensures DecimalValue(r) == n
    ensures r[0] != '0' || n == 0
    ensures r[|r| - 1] == ('0' as int + n % 10) as char
  {
    var d := ('0' as int + n % 10) as char;
    assert DigitValue(d, 10) == Some(n % 10);
    if n < 10 then
      assert [d][..0] == [];
      assert DigitsValue([d], 10) == DigitsValue([], 10) * 10 + n % 10;
      [d]
    else
      var p := NatToString(n / 10);
      var r := p + [d];
      assert r[..|r| - 1] == p;
      r
  }

  /** Leading zeros do not change the value of a string of decimal digits. */
  lemma {:induction false} LeadingZerosValue(z: string, s: string)
    requires forall i :: 0 <= i < |z| ==> z[i] == '0'
    ensures DecimalValue(z + s) == DecimalValue(s)
  {
    if s == [] {
      ZerosValue(z);
      assert z + s == z;
    } else {
      var s' := s[..|s| - 1];
      LeadingZerosValue(z, s');
      assert (z + s)[..|z + s| - 1] == z + s';
    }
  }

  lemma {:induction false} ZerosValue(z: string)
    requires forall i :: 0 <= i < |z| ==> z[i] == '0'
    ensures AllDecimalDigits(z) && DecimalValue(z) == 0
  {
    if z != [] {
      ZerosValue(z[..|z| - 1]);
    }
  }

  /** `String(n).padStart(len, '0')` is made of digits and reads back as `n`. */
  lemma PaddedValue(n: nat, len: nat)
    ensures AllDecimalDigits(PadStart(NatToString(n), len, '0'))
    ensures DecimalValue(PadStart(NatToString(n), len, '0')) == n
  {
    var s := NatToString(n);
    if |s| < len {
      LeadingZerosValue(Repeat('0', len - |s|), s);
    }
  }

  /** A number below `10^k` is written with at most `k` digits. */
  lemma {:induction false} NatToStringLength(n: nat, k: nat)
    requires 1 <= k && n < Pow10(k)
    ensures |NatToString(n)| <= k
  {
    if n >= 10 {
      assert k >= 2;
      NatToStringLength(n / 10, k - 1);
    }
  }
}
