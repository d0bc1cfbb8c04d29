/**
 * String helpers with JavaScript meaning: ASCII upper-casing, prefix/suffix and
 * substring tests, `Array.prototype.join`, `String.prototype.replace` with a
 * string pattern (first occurrence only), and decimal rendering of naturals.
 */
module Text {
  import opened Wrappers

  predicate IsLowerAscii(c: char) { 'a' <= c <= 'z' }

  predicate IsUpperAscii(c: char) { 'A' <= c <= 'Z' }

  predicate IsDigit(c: char) { '0' <= c <= '9' }

  /** Upper-cases one ASCII letter; every other character is left alone. */
  function UpperChar(c: char): (u: char)
    ensures IsLowerAscii(c) ==> IsUpperAscii(u) && u as int == c as int - 32
    ensures !IsLowerAscii(c) ==> u == c
  {
    if IsLowerAscii(c) then (c as int - 32) as char else c
  }

  /** `s.toUpperCase()` restricted to the ASCII letters. */
  function ToUpper(s: string): (u: string)
    ensures |u| == |s|
    ensures forall i :: 0 <= i < |s| ==> u[i] == UpperChar(s[i])
  {
    seq(|s|, i requires 0 <= i < |s| => UpperChar(s[i]))
  }

  predicate HasLowerAscii(s: string) {
    exists i :: 0 <= i < |s| && IsLowerAscii(s[i])
  }

  /** Upper-casing changes a string exactly when it holds a lower-case letter. */
  lemma ToUpperChanges(s: string)
    ensures ToUpper(s) != s <==> HasLowerAscii(s)
  {
    if HasLowerAscii(s) {
      var i :| 0 <= i < |s| && IsLowerAscii(s[i]);
      assert ToUpper(s)[i] != s[i];
    } else {
      assert forall i :: 0 <= i < |s| ==> ToUpper(s)[i] == s[i];
    }
  }

  /** Upper-casing twice is upper-casing once. */
  lemma ToUpperIdempotent(s: string)
    ensures ToUpper(ToUpper(s)) == ToUpper(s)
  {
  }

  predicate StartsWith(s: string, p: string) {
    |p| <= |s| && s[..|p|] == p
  }

  predicate EndsWith(s: string, q: string) {
    |q| <= |s| && s[|s| - |q|..] == q
  }

  /** `t` occurs in `s` starting at index `i`, checked character by character. */
  predicate MatchAt(s: string, t: string, i: nat, j: nat)
    requires i + |t| <= |s| && j <= |t|
    decreases |t| - j
  {
    j == |t| || (s[i + j] == t[j] && MatchAt(s, t, i, j + 1))
  }

  /** `t` occurs in `s` at some index `k >= i`. */
  predicate ContainsFrom(s: string, t: string, i: nat)
    decreases |s| - i
  {
    i + |t| <= |s| && (MatchAt(s, t, i, 0) || ContainsFrom(s, t, i + 1))
  }

  /** `s.includes(t)`. */
  predicate Contains(s: string, t: string) {
    ContainsFrom(s, t, 0)
  }

  predicate OccursAt(s: string, t: string, i: int) {
    0 <= i && i + |t| <= |s| && s[i..i + |t|] == t
  }

  lemma {:induction false} MatchAtSlice(s: string, t: string, i: nat, j: nat)
    requires i + |t| <= |s| && j <= |t|
    ensures MatchAt(s, t, i, j) <==> s[i + j..i + |t|] == t[j..]
    decreases |t| - j
  {
    if j < |t| {
      MatchAtSlice(s, t, i, j + 1);
      assert s[i + j..i + |t|] == [s[i + j]] + s[i + j + 1..i + |t|];
      assert t[j..] == [t[j]] + t[j + 1..];
    }
  }

  lemma {:induction false} ContainsFromOccurs(s: string, t: string, i: nat)
    ensures ContainsFrom(s, t, i) <==> exists k :: i <= k && OccursAt(s, t, k)
    decreases |s| - i
  {
    if i + |t| <= |s| {
      MatchAtSlice(s, t, i, 0);
      assert t[0..] == t;
      ContainsFromOccurs(s, t, i + 1);
      if ContainsFrom(s, t, i) {
        if MatchAt(s, t, i, 0) {
          assert OccursAt(s, t, i);
        }
      }
      if exists k :: i <= k && OccursAt(s, t, k) {
        var k :| i <= k && OccursAt(s, t, k);
        if k == i {
          assert MatchAt(s, t, i, 0);
        } else {
          assert i + 1 <= k;
        }
      }
    } else {
      forall k | i <= k ensures !OccursAt(s, t, k) {}
    }
  }

  /** The recursive substring test agrees with its definition by an index. */
  lemma ContainsOccurs(s: string, t: string)
    ensures Contains(s, t) <==> exists k :: OccursAt(s, t, k)
  {
    ContainsFromOccurs(s, t, 0);
  }

  /** An occurrence at a known index witnesses containment. */
  lemma ContainsAt(s: string, t: string, k: nat)
    requires OccursAt(s, t, k)
    ensures Contains(s, t)
  {
    ContainsOccurs(s, t);
  }

  /** A character of `t` that `s` lacks rules out `t` occurring in `s`. */
  lemma MissingCharNotContained(s: string, t: string, c: char)
    requires c in t && c !in s
    ensures !Contains(s, t)
  {
    ContainsOccurs(s, t);
  }

  /**
   * When the last character of `a` is not in `t`, no occurrence of `t` in
   * `a + b` straddles the seam, so it lies in `a` or in `b`.
   */
  lemma ContainsSplit(a: string, b: string, t: string)
    requires |a| > 0 && a[|a| - 1] !in t
    ensures Contains(a + b, t) ==> Contains(a, t) || Contains(b, t)
  {
    ContainsOccurs(a + b, t);
    ContainsOccurs(a, t);
    ContainsOccurs(b, t);
    if Contains(a + b, t) {
      var k :| OccursAt(a + b, t, k);
      SeamChar(a, b, t, k);
      if k + |t| <= |a| {
        assert (a + b)[k..k + |t|] == a[k..k + |t|];
        assert OccursAt(a, t, k);
      } else if k >= |a| {
        assert (a + b)[k..k + |t|] == b[k - |a|..k - |a| + |t|];
        assert OccursAt(b, t, k - |a|);
      }
    }
  }

  /** An occurrence of `t` that straddles the seam of `a + b` holds the last character of `a`. */
  lemma SeamChar(a: string, b: string, t: string, k: int)
    requires |a| > 0 && OccursAt(a + b, t, k)
    ensures k < |a| < k + |t| ==> a[|a| - 1] in t
  {
    if k < |a| < k + |t| {
      var j := |a| - 1 - k;
      assert t[j] == (a + b)[k..k + |t|][j] == a[|a| - 1];
    }
  }

  /** An occurrence in `s` is an occurrence in `p + s`, shifted by `|p|`. */
  lemma OccursShift(p: string, s: string, t: string, k: nat)
    requires OccursAt(s, t, k)
    ensures OccursAt(p + s, t, |p| + k)
  {
    assert (p + s)[|p| + k..|p| + k + |t|] == s[k..k + |t|];
  }

  /** Index of the first occurrence of `t` in `s` at or after `i`. */
  function IndexFrom(s: string, t: string, i: nat): (r: Option<nat>)
    ensures r.Some? ==> i <= r.value && OccursAt(s, t, r.value)
    ensures r.Some? ==> forall k :: i <= k < r.value ==> !OccursAt(s, t, k)
    ensures r.None? ==> forall k :: i <= k ==> !OccursAt(s, t, k)
    decreases |s| - i
  {
    if i + |t| > |s| then None
    else if s[i..i + |t|] == t then Some(i)
    else IndexFrom(s, t, i + 1)
  }

  /** `s.replace(pat, rep)` with a string pattern: only the first occurrence is replaced. */
  function ReplaceFirst(s: string, pat: string, rep: string): (r: string)
    ensures (forall k :: !OccursAt(s, pat, k)) ==> r == s
    ensures forall k :: OccursAt(s, pat, k) && (forall j :: 0 <= j < k ==> !OccursAt(s, pat, j)) ==>
      r == s[..k] + rep + s[k + |pat|..]
  {
    match IndexFrom(s, pat, 0)
    case None => s
    case Some(k) => s[..k] + rep + s[k + |pat|..]
  }

  /** `parts.join(sep)`. */
  function Join(parts: seq<string>, sep: string): string
    decreases |parts|
  {
    if |parts| == 0 then ""
    else if |parts| == 1 then parts[0]
    else Join(parts[..|parts| - 1], sep) + sep + parts[|parts| - 1]
  }

  /** Joining one more part appends the separator and that part. */
  lemma JoinSnoc(parts: seq<string>, p: string, sep: string)
    requires |parts| > 0
    ensures Join(parts + [p], sep) == Join(parts, sep) + sep + p
  {
    assert (parts + [p])[..|parts|] == parts;
  }

  function DigitChar(d: nat): (c: char)
    requires d < 10
    ensures IsDigit(c)
  {
    ('0' as int + d) as char
  }

  function DigitValue(c: char): (d: nat)
    requires IsDigit(c)
    ensures d < 10
  {
    c as int - '0' as int
  }

  predicate AllDigits(s: string) {
    forall i :: 0 <= i < |s| ==> IsDigit(s[i])
  }

  /** Decimal numeral of a natural number, without leading zeros. */
  function NatToString(n: nat): (s: string)
    ensures |s| > 0 && AllDigits(s)
    ensures n > 0 ==> s[0] != '0'
    decreases n
  {
    if n < 10 then [DigitChar(n)] else NatToString(n / 10) + [DigitChar(n % 10)]
  }

  /** Integer rendering, with a leading '-' for negatives. */
  function IntToString(n: int): string {
    if n < 0 then "-" + NatToString(-n) else NatToString(n)
  }

  /** Value of a string of decimal digits. */
  function ParseNat(s: string): nat
    requires AllDigits(s)
    decreases |s|
  {
    if |s| == 0 then 0 else 10 * ParseNat(s[..|s| - 1]) + DigitValue(s[|s| - 1])
  }

  /** Reading back a rendered natural gives the natural. */
  lemma {:induction false} ParseNatToString(n: nat)
    ensures ParseNat(NatToString(n)) == n
    decreases n
  {
    if n >= 10 {
      var s := NatToString(n);
      ParseNatToString(n / 10);
      assert s[..|s| - 1] == NatToString(n / 10);
    }
  }

  /** Left-pads with '0' to at least `width` characters (JavaScript `toFixed` padding). */
  function PadZeros(s: string, width: nat): (r: string)
    ensures |r| == if |s| < width then width else |s|
    ensures EndsWith(r, s)
    ensures AllDigits(s) ==> AllDigits(r)
    decreases width - |s|
  {
    if |s| < width then
      var r := PadZeros("0" + s, width);
      EndsWithTail(r, "0", s);
      r
    else s
  }

  /** A string that ends with `p + s` ends with `s`. */
  lemma EndsWithTail(r: string, p: string, s: string)
    requires EndsWith(r, p + s)
    ensures EndsWith(r, s)
  {
    assert r[|r| - |s|..] == r[|r| - |p + s|..][|p|..];
  }

  /** Leading zeros do not change the value of a digit string. */
  lemma {:induction false} ParsePadZeros(s: string, width: nat)
    requires AllDigits(s)
    ensures ParseNat(PadZeros(s, width)) == ParseNat(s)
    decreases width - |s|
  {
    if |s| < width {
      ParseLeadingZero(s);
      ParsePadZeros("0" + s, width);
    }
  }

  lemma {:induction false} ParseLeadingZero(s: string)
    requires AllDigits(s)
    ensures ParseNat("0" + s) == ParseNat(s)
    decreases |s|
  {
    if |s| > 0 {
      var t := "0" + s;
      assert t[..|t| - 1] == "0" + s[..|s| - 1];
      ParseLeadingZero(s[..|s| - 1]);
    }
  }
}
