/**
 * The handful of JavaScript string and number primitives the dashboard scripts rely on:
 * `includes`, `startsWith`, `toLowerCase`, `trim`, `split`, `replace` (first occurrence),
 * `slice(-n)`, `Number.prototype.toString()` on naturals, `Math.floor` and `Math.round`.
 * Strings are sequences of characters; numbers that the scripts use as amounts are `real`.
 */
module JsText {

  datatype Option<T> = None | Some(value: T)

  /** `s.startsWith(p)` */
  predicate StartsWith(s: string, p: string) {
    |p| <= |s| && s[..|p|] == p
  }

  /** `s.includes(sub)`; the empty string is included in every string. */
  predicate Contains(s: string, sub: string)
    decreases |s|
  {
    StartsWith(s, sub) || (|sub| < |s| && Contains(s[1..], sub))
  }

  /** Some window of `s` equals `sub`: the meaning of `includes`. */
  ghost predicate OccursAt(s: string, sub: string, i: int) {
    0 <= i && i + |sub| <= |s| && s[i..i + |sub|] == sub
  }

  lemma {:induction false} ContainsIffOccurs(s: string, sub: string)
    ensures Contains(s, sub) <==> exists i :: OccursAt(s, sub, i)
    decreases |s|
  {
    if StartsWith(s, sub) {
      assert OccursAt(s, sub, 0);
    } else if |sub| < |s| {
      ContainsIffOccurs(s[1..], sub);
      forall i | OccursAt(s, sub, i) ensures OccursAt(s[1..], sub, i - 1) {
        assert s[0..|sub|] == s[..|sub|];
        assert s[1..][i - 1..i - 1 + |sub|] == s[i..i + |sub|];
      }
      forall i | OccursAt(s[1..], sub, i) ensures OccursAt(s, sub, i + 1) {
        assert s[1..][i..i + |sub|] == s[i + 1..i + 1 + |sub|];
      }
    } else {
      if |sub| == |s| {
        assert s[0..|sub|] == s[..|sub|];
      }
      assert !OccursAt(s, sub, 0);
    }
  }

  /** A string that occurs inside a window of `s` occurs in `s`. */
  lemma ContainsInPrefix(s: string, sub: string, k: nat)
    requires k <= |s| && Contains(s[..k], sub)
    ensures Contains(s, sub)
  {
    ContainsIffOccurs(s[..k], sub);
    var i :| OccursAt(s[..k], sub, i);
    assert s[..k][i..i + |sub|] == s[i..i + |sub|];
    assert OccursAt(s, sub, i);
    ContainsIffOccurs(s, sub);
  }

  /** `sub` does not occur when no position holding its first character starts a copy of it. */
  lemma NotContained(s: string, sub: string)
    requires |sub| > 0
    requires forall i :: 0 <= i < |s| && s[i] == sub[0] ==> i + |sub| > |s| || s[i..i + |sub|] != sub
    ensures !Contains(s, sub)
  {
    forall i | 0 <= i ensures !OccursAt(s, sub, i) {
      if i + |sub| <= |s| {
        assert s[i..i + |sub|][0] == s[i];
      }
    }
    ContainsIffOccurs(s, sub);
  }

  /** `sub` does not occur in `s` when one of its characters is nowhere in `s`. */
  lemma MissingChar(s: string, sub: string, k: nat)
    requires k < |sub| && sub[k] !in s
    ensures !Contains(s, sub)
  {
    forall i | 0 <= i ensures !OccursAt(s, sub, i) {
      if i + |sub| <= |s| {
        assert s[i..i + |sub|][k] == s[i + k] && s[i + k] in s;
      }
    }
    ContainsIffOccurs(s, sub);
  }

  /** Upper-case ASCII letters map to lower case; every other character is kept. */
  function LowerChar(c: char): (r: char)
    ensures !('A' <= r <= 'Z')
    ensures !('A' <= c <= 'Z') ==> r == c
  {
    if 'A' <= c <= 'Z' then (c as int + 32) as char else c
  }

  /**
   * `s.toLowerCase()` on the ASCII range: only `A`..`Z` are lowered. JavaScript also lowers
   * other scripts (and a few characters into two code units); the model leaves them as they are.
   */
  function ToLower(s: string): (r: string)
    ensures |r| == |s|
    ensures forall i :: 0 <= i < |s| ==> r[i] == LowerChar(s[i])
  {
    seq(|s|, i requires 0 <= i < |s| => LowerChar(s[i]))
  }

  lemma ToLowerIdempotent(s: string)
    ensures ToLower(ToLower(s)) == ToLower(s)
  {
  }

  /** The white-space characters `String.prototype.trim` removes. */
  predicate IsSpace(c: char) {
    c in {' ', '\t', '\n', '\r', '\U{000B}', '\U{000C}', '\U{00A0}', '\U{1680}',
          '\U{2000}', '\U{2001}', '\U{2002}', '\U{2003}', '\U{2004}', '\U{2005}',
          '\U{2006}', '\U{2007}', '\U{2008}', '\U{2009}', '\U{200A}', '\U{2028}',
          '\U{2029}', '\U{202F}', '\U{205F}', '\U{3000}', '\U{FEFF}'}
  }

  function TrimStart(s: string): (r: string)
    ensures |r| <= |s| && r == s[|s| - |r|..]
    ensures r == [] || !IsSpace(r[0])
    ensures forall i :: 0 <= i < |s| - |r| ==> IsSpace(s[i])
  {
    if s != [] && IsSpace(s[0]) then
      var r := TrimStart(s[1..]);
      assert s[1..][|s| - 1 - |r|..] == s[|s| - |r|..];
      assert forall i :: 1 <= i < |s| - |r| ==> s[i] == s[1..][i - 1];
      r
    else s
  }

  function TrimEnd(s: string): (r: string)
    ensures |r| <= |s| && r == s[..|r|]
    ensures r == [] || !IsSpace(r[|r| - 1])
    ensures forall i :: |r| <= i < |s| ==> IsSpace(s[i])
  {
    if s != [] && IsSpace(s[|s| - 1]) then
      var r := TrimEnd(s[..|s| - 1]);
      assert s[..|s| - 1][..|r|] == s[..|r|];
      assert forall i :: |r| <= i < |s| - 1 ==> s[i] == s[..|s| - 1][i];
      r
    else s
  }

  /**
   * `s.trim()`: the longest slice of `s` that neither starts nor ends with white space,
   * everything cut away being white space.
   */
  function Trim(s: string): (r: string)
    ensures exists i :: OccursAt(s, r, i)
    ensures r == [] || (!IsSpace(r[0]) && !IsSpace(r[|r| - 1]))
  {
    var a := TrimStart(s);
    var r := TrimEnd(a);
    assert s[|s| - |a|..|s| - |a| + |r|] == a[..|r|];
    assert OccursAt(s, r, |s| - |a|);
    r
  }

  /** A string with no white space is its own trim. */
  lemma TrimNoSpace(s: string)
    requires forall i :: 0 <= i < |s| ==> !IsSpace(s[i])
    ensures Trim(s) == s
  {
  }

  /** `s.split(sep)` for a one-character separator; `"".split(" ")` is `[""]`. */
  function Split(s: string, sep: char): (r: seq<string>)
    ensures |r| >= 1
    decreases |s|
  {
    if s == [] then [""]
    else
      var rest := Split(s[1..], sep);
      if s[0] == sep then [""] + rest else [[s[0]] + rest[0]] + rest[1..]
  }

  /** A string without the separator splits into itself. */
  lemma {:induction false} SplitNoSeparator(s: string, sep: char)
    requires sep !in s
    ensures Split(s, sep) == [s]
    decreases |s|
  {
    if s != [] {
      SplitNoSeparator(s[1..], sep);
      assert [s[0]] + s[1..] == s;
    }
  }

  /** A field without the separator followed by the separator is split off whole. */
  lemma {:induction false} SplitField(a: string, b: string, sep: char)
    requires sep !in a
    ensures Split(a + [sep] + b, sep) == [a] + Split(b, sep)
    decreases |a|
  {
    var s := a + [sep] + b;
    if a == [] {
      assert s[1..] == b;
    } else {
      assert s[1..] == a[1..] + [sep] + b;
      SplitField(a[1..], b, sep);
      assert [a[0]] + a[1..] == a;
    }
  }

  /** Index of the first occurrence of `pat` in `s` at or after `from` (`indexOf`), if any. */
  function IndexOf(s: string, pat: string, from: nat): (r: Option<nat>)
    requires from <= |s|
    ensures r.Some? ==> from <= r.value && r.value + |pat| <= |s| && s[r.value..r.value + |pat|] == pat
    ensures r.Some? ==> forall j :: from <= j < r.value ==> !StartsWith(s[j..], pat)
    ensures r.None? ==> forall j :: from <= j <= |s| ==> !StartsWith(s[j..], pat)
    decreases |s| - from
  {
    if StartsWith(s[from..], pat) then
      assert s[from..][..|pat|] == s[from..from + |pat|];
      Some(from)
    else if from == |s| then None
    else IndexOf(s, pat, from + 1)
  }

  /** `s.replace(pat, rep)` with a string pattern: only the first occurrence is replaced. */
  function ReplaceFirst(s: string, pat: string, rep: string): string {
    match IndexOf(s, pat, 0)
    case None => s
    case Some(i) => s[..i] + rep + s[i + |pat|..]
  }

  lemma ReplacePrefix(s: string, pat: string)
    requires StartsWith(s, pat)
    ensures ReplaceFirst(s, pat, "") == s[|pat|..]
  {
  }

  /** `s.slice(-n)`: the last `n` characters, or all of `s` when it is shorter. */
  function LastChars(s: string, n: nat): (r: string)
    ensures |r| == if |s| < n then |s| else n
    ensures r == s[|s| - |r|..]
  {
    if |s| <= n then s else s[|s| - n..]
  }

  predicate IsDigitChar(c: char) {
    '0' <= c <= '9'
  }

  function DigitChar(d: nat): (c: char)
    requires d < 10
    ensures IsDigitChar(c)
  {
    ('0' as int + d) as char
  }

  function DigitValue(c: char): nat
    requires IsDigitChar(c)
  {
    c as int - '0' as int
  }

  /** `n.toString()` for a natural number: decimal digits, most significant first. */
  function NatToDecimal(n: nat): (r: string)
    ensures |r| >= 1
    ensures forall i :: 0 <= i < |r| ==> IsDigitChar(r[i])
  {
    if n < 10 then [DigitChar(n)] else NatToDecimal(n / 10) + [DigitChar(n % 10)]
  }

  /** The value of a string of decimal digits. */
  function DecimalValue(s: string): nat
    requires forall i :: 0 <= i < |s| ==> IsDigitChar(s[i])
  {
    if s == [] then 0 else 10 * DecimalValue(s[..|s| - 1]) + DigitValue(s[|s| - 1])
  }

  /** Reading back the decimal rendering of `n` gives `n`. */
  lemma {:induction false} DecimalRoundTrip(n: nat)
    ensures DecimalValue(NatToDecimal(n)) == n
  {
    var s := NatToDecimal(n);
    if n >= 10 {
      DecimalRoundTrip(n / 10);
      assert s[..|s| - 1] == NatToDecimal(n / 10);
    }
  }

  function Pow10(k: nat): (p: nat)
    ensures p >= 1
  {
    if k == 0 then 1 else 10 * Pow10(k - 1)
  }

  /** `n` has exactly `k` decimal digits when `10^(k-1) <= n < 10^k`. */
  lemma {:induction false} DecimalLength(n: nat, k: nat)
    requires k >= 1 && (k == 1 || Pow10(k - 1) <= n) && n < Pow10(k)
    ensures |NatToDecimal(n)| == k
  {
    if k > 1 {
      assert n >= 10 by { PowMonotone(1, k - 1); }
      if k - 1 == 1 {
        assert n / 10 < 10;
      } else {
        assert Pow10(k - 2) <= n / 10 < Pow10(k - 1);
      }
      DecimalLength(n / 10, k - 1);
    } else {
      assert n < 10;
    }
  }

  lemma {:induction false} PowMonotone(i: nat, j: nat)
    requires i <= j
    ensures Pow10(i) <= Pow10(j)
    decreases j
  {
    if i < j {
      PowMonotone(i, j - 1);
    }
  }

  /** The longest prefix of `s` made of decimal digits. */
  function LeadingDigits(s: string): (r: string)
    ensures |r| <= |s| && r == s[..|r|]
    ensures forall i :: 0 <= i < |r| ==> IsDigitChar(r[i])
    ensures |r| == |s| || !IsDigitChar(s[|r|])
  {
    if s != [] && IsDigitChar(s[0]) then [s[0]] + LeadingDigits(s[1..]) else []
  }

  /** The value of an unsigned decimal prefix, or `None` (NaN) when there is none. */
  function UnsignedPrefix(s: string): Option<int> {
    var d := LeadingDigits(s);
    if d == [] then None else Some(DecimalValue(d))
  }

  /**
   * `parseInt(s)` in base 10: leading white space is skipped, an optional sign is read, then
   * the longest run of digits; no digits gives NaN. Called without a radix, JavaScript reads
   * a `0x` prefix as hexadecimal; the model does not, because the texts it is applied to
   * (number inputs and the numbers the scripts themselves render) never carry one.
   */
  function ParseInt(s: string): Option<int> {
    var t := TrimStart(s);
    if t != [] && t[0] == '-' then
      match UnsignedPrefix(t[1..])
      case None => None
      case Some(v) => Some(-v)
    else if t != [] && t[0] == '+' then UnsignedPrefix(t[1..])
    else UnsignedPrefix(t)
  }

  /** `parseInt` reads back the decimal rendering of a natural number. */
  lemma ParseIntRoundTrip(n: nat)
    ensures ParseInt(NatToDecimal(n)) == Some(n)
  {
    var s := NatToDecimal(n);
    assert !IsSpace(s[0]) && s[0] != '-' && s[0] != '+' by {
      assert IsDigitChar(s[0]);
    }
    assert TrimStart(s) == s;
    AllDigitsPrefix(s);
    DecimalRoundTrip(n);
  }

  lemma {:induction false} AllDigitsPrefix(s: string)
    requires forall i :: 0 <= i < |s| ==> IsDigitChar(s[i])
    ensures LeadingDigits(s) == s
  {
    if s != [] {
      AllDigitsPrefix(s[1..]);
    }
  }

  /** `Math.floor(x)` */
  function Floor(x: real): (r: int)
    ensures r as real <= x < r as real + 1.0
  {
    x.Floor
  }

  /** `Math.floor(draw * span) + min` for a draw of `Math.random()` lies in `[min, min + span - 1]`. */
  function RandomInt(draw: real, span: nat, min: int): (r: int)
    requires 0.0 <= draw < 1.0 && span >= 1
    ensures min <= r <= min + span - 1
  {
    assert 0.0 <= draw * span as real < span as real;
    Floor(draw * span as real) + min
  }

  /**
   * `Math.floor(Math.random() * (max - min + 1)) + min`, the helper that Phase 17 calls
   * `randomScore` and Phase 18 calls `random`: an integer from `min` to `max` inclusive.
   */
  function RandomBetween(draw: real, min: int, max: int): (r: int)
    requires 0.0 <= draw < 1.0 && min <= max
    ensures min <= r <= max
  {
    RandomInt(draw, max - min + 1, min)
  }

  /** `Math.round(x)`: halves round towards positive infinity. */
  function Round(x: real): (r: int)
    ensures x - 0.5 < r as real <= x + 0.5
  {
    Floor(x + 0.5)
  }

  lemma RoundMonotone(x: real, y: real)
    requires x <= y
    ensures Round(x) <= Round(y)
  {
  }

  /** `10^digits` as a real, for the `toFixed` precisions the scripts use. */
  function DecimalScale(digits: nat): (s: real)
    ensures s >= 1.0
  {
    if digits == 0 then 1.0 else if digits == 1 then 10.0 else 100.0
  }

  /**
   * `x.toFixed(digits)` read back as a number, for `x >= 0` and at most two digits: `x`
   * rounded half up to `digits` decimals.
   */
  function ToFixed(x: real, digits: nat): real
    requires digits <= 2
  {
    Round(x * DecimalScale(digits)) as real / DecimalScale(digits)
  }

  /** A value whose scaled form lies between two whole numbers keeps those bounds once rounded. */
  lemma ToFixedBounds(x: real, digits: nat, lo: int, hi: int)
    requires digits <= 2 && lo as real <= x * DecimalScale(digits) <= hi as real
    ensures lo as real / DecimalScale(digits) <= ToFixed(x, digits) <= hi as real / DecimalScale(digits)
  {
    ScaledRoundBounds(x * DecimalScale(digits), DecimalScale(digits), lo, hi);
  }

  lemma ScaledRoundBounds(y: real, s: real, lo: int, hi: int)
    requires s > 0.0 && lo as real <= y <= hi as real
    ensures lo as real / s <= Round(y) as real / s <= hi as real / s
  {
    RoundBetween(y, lo, hi);
    DivideMonotone(lo as real, Round(y) as real, s);
    DivideMonotone(Round(y) as real, hi as real, s);
  }

  lemma RoundBetween(y: real, lo: int, hi: int)
    requires lo as real <= y <= hi as real
    ensures lo <= Round(y) <= hi
  {
  }

  lemma DivideMonotone(a: real, b: real, s: real)
    requires a <= b && s > 0.0
    ensures a / s <= b / s
  {
    assert b / s - a / s == (b - a) / s;
  }
}
