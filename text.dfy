/**
 * The parts of Python's `str` behaviour that the pipeline depends on:
 * whitespace as `\s` and `str.strip()` see it, base-10 digit runs,
 * `str(int)`, `int(str)` and ASCII lower-casing.
 */
module Text {
  import opened Wrappers

  /** Python's `str.isspace`; `\s` in a `str` pattern matches the same characters. */
  predicate IsSpace(c: char) {
    ('\t' <= c <= '\r') || ('\U{1c}' <= c <= '\U{1f}') || c == ' '
    || c == '\U{85}' || c == '\U{a0}' || c == '\U{1680}'
    || ('\U{2000}' <= c <= '\U{200a}') || c == '\U{2028}' || c == '\U{2029}'
    || c == '\U{202f}' || c == '\U{205f}' || c == '\U{3000}'
  }

  predicate AllSpace(s: string) {
    forall i :: 0 <= i < |s| ==> IsSpace(s[i])
  }

  /** Neither end of `s` is whitespace. */
  predicate IsTrimmed(s: string) {
    s == [] || (!IsSpace(s[0]) && !IsSpace(s[|s| - 1]))
  }

  /** Where the whitespace run starting at `i` ends: what a greedy `\s*` at `i` consumes. */
  function SpacesEnd(s: string, i: nat): (k: nat)
    requires i <= |s|
    ensures i <= k <= |s|
    decreases |s| - i
  {
    if i == |s| || !IsSpace(s[i]) then i else SpacesEnd(s, i + 1)
  }

  /** The run is all whitespace, and it stops at the first character that is not. */
  lemma {:induction false} SpacesEndSpec(s: string, i: nat)
    requires i <= |s|
    ensures forall j :: i <= j < SpacesEnd(s, i) ==> IsSpace(s[j])
    ensures SpacesEnd(s, i) < |s| ==> !IsSpace(s[SpacesEnd(s, i)])
    decreases |s| - i
  {
    if i < |s| && IsSpace(s[i]) {
      SpacesEndSpec(s, i + 1);
    }
  }

  /** The run ends exactly where the first non-space character after `i` sits. */
  lemma {:induction false} SpacesEndExact(s: string, i: nat, k: nat)
    requires i <= k <= |s|
    requires forall j :: i <= j < k ==> IsSpace(s[j])
    requires k < |s| ==> !IsSpace(s[k])
    ensures SpacesEnd(s, i) == k
    decreases k - i
  {
    if i < k {
      SpacesEndExact(s, i + 1, k);
    }
  }

  /** Where the whitespace run that ends at `hi` starts, looking no further back than `lo`. */
  function SpacesBack(s: string, lo: nat, hi: nat): (k: nat)
    requires lo <= hi <= |s|
    ensures lo <= k <= hi
    decreases hi - lo
  {
    if hi == lo || !IsSpace(s[hi - 1]) then hi else SpacesBack(s, lo, hi - 1)
  }

  lemma {:induction false} SpacesBackSpec(s: string, lo: nat, hi: nat)
    requires lo <= hi <= |s|
    ensures forall j :: SpacesBack(s, lo, hi) <= j < hi ==> IsSpace(s[j])
    ensures SpacesBack(s, lo, hi) > lo ==> !IsSpace(s[SpacesBack(s, lo, hi) - 1])
    decreases hi - lo
  {
    if hi > lo && IsSpace(s[hi - 1]) {
      SpacesBackSpec(s, lo, hi - 1);
    }
  }

  /** Python's `str.strip()` with no argument. */
  function Trim(s: string): (r: string)
    ensures IsTrimmed(r) && |r| <= |s|
  {
    var a := SpacesEnd(s, 0);
    var b := SpacesBack(s, a, |s|);
    SpacesEndSpec(s, 0);
    SpacesBackSpec(s, a, |s|);
    s[a..b]
  }

  /** `strip()` removes whitespace from the two ends and nothing else. */
  lemma TrimRemovesOnlySpace(s: string)
    ensures exists a, b :: 0 <= a <= b <= |s| && Trim(s) == s[a..b] && AllSpace(s[..a]) && AllSpace(s[b..])
  {
    var a := SpacesEnd(s, 0);
    var b := SpacesBack(s, a, |s|);
    SpacesEndSpec(s, 0);
    SpacesBackSpec(s, a, |s|);
    assert AllSpace(s[..a]) by {
      forall j | 0 <= j < a ensures IsSpace(s[..a][j]) {
        assert s[..a][j] == s[j];
      }
    }
    assert AllSpace(s[b..]) by {
      forall j | 0 <= j < |s| - b ensures IsSpace(s[b..][j]) {
        assert s[b..][j] == s[b + j];
      }
    }
  }

  /** Stripping text that has no whitespace at its ends changes nothing. */
  lemma TrimTrimmed(s: string)
    requires IsTrimmed(s)
    ensures Trim(s) == s
  {
    if s != [] {
      SpacesEndExact(s, 0, 0);
    }
  }

  /** `strip()` applied twice is `strip()` applied once. */
  lemma TrimIdempotent(s: string)
    ensures Trim(Trim(s)) == Trim(s)
  {
    TrimTrimmed(Trim(s));
  }

  predicate IsDigit(c: char) {
    '0' <= c <= '9'
  }

  predicate AllDigits(s: string) {
    forall i :: 0 <= i < |s| ==> IsDigit(s[i])
  }

  /** Where the digit run starting at `i` ends: what a greedy `\d+` at `i` consumes. */
  function DigitsEnd(s: string, i: nat): (k: nat)
    requires i <= |s|
    ensures i <= k <= |s|
    decreases |s| - i
  {
    if i == |s| || !IsDigit(s[i]) then i else DigitsEnd(s, i + 1)
  }

  lemma {:induction false} DigitsEndSpec(s: string, i: nat)
    requires i <= |s|
    ensures forall j :: i <= j < DigitsEnd(s, i) ==> IsDigit(s[j])
    ensures DigitsEnd(s, i) < |s| ==> !IsDigit(s[DigitsEnd(s, i)])
    decreases |s| - i
  {
    if i < |s| && IsDigit(s[i]) {
      DigitsEndSpec(s, i + 1);
    }
  }

  lemma {:induction false} DigitsEndExact(s: string, i: nat, k: nat)
    requires i <= k <= |s|
    requires forall j :: i <= j < k ==> IsDigit(s[j])
    requires k < |s| ==> !IsDigit(s[k])
    ensures DigitsEnd(s, i) == k
    decreases k - i
  {
    if i < k {
      DigitsEndExact(s, i + 1, k);
    }
  }

  function DigitValue(c: char): nat
    requires IsDigit(c)
  {
    c as int - '0' as int
  }

  function DigitChar(d: nat): (c: char)
    requires d < 10
    ensures IsDigit(c) && DigitValue(c) == d
  {
    ('0' as int + d) as char
  }

  /** The base-10 value of a run of digits, as `int()` reads it (leading zeros allowed). */
  function DigitsValue(ds: string): nat
    requires AllDigits(ds)
  {
    if ds == [] then 0 else 10 * DigitsValue(ds[..|ds| - 1]) + DigitValue(ds[|ds| - 1])
  }

  /** Python's `str(n)` for a non-negative integer. */
  function NatToString(n: nat): (s: string)
    ensures s != [] && AllDigits(s)
    ensures s[0] == '0' ==> s == "0"
  {
    if n < 10 then [DigitChar(n)] else NatToString(n / 10) + [DigitChar(n % 10)]
  }

  /** Reading back the digits that `str(n)` writes gives `n`. */
  lemma {:induction false} NatToStringRoundTrip(n: nat)
    ensures DigitsValue(NatToString(n)) == n
  {
    if n >= 10 {
      var s := NatToString(n / 10);
      NatToStringRoundTrip(n / 10);
      assert (s + [DigitChar(n % 10)])[..|s|] == s;
    }
  }

  /** Distinct numbers have distinct decimal forms. */
  lemma NatToStringInjective(a: nat, b: nat)
    requires NatToString(a) == NatToString(b)
    ensures a == b
  {
    NatToStringRoundTrip(a);
    NatToStringRoundTrip(b);
  }

  /** Python's `str(i)` for any integer. */
  function IntToString(i: int): (s: string)
    ensures s != [] && IsTrimmed(s)
  {
    if i < 0 then "-" + NatToString(-i) else NatToString(i)
  }

  /**
   * Python's `int(s)` on text without `_`: surrounding whitespace is
   * ignored, one optional sign, then one or more digits; anything else
   * raises `ValueError`, modelled as `None`.
   */
  function ParseInt(s: string): Option<int> {
    var t := Trim(s);
    if t != [] && (t[0] == '+' || t[0] == '-') then
      var ds := t[1..];
      if ds != [] && AllDigits(ds) then
        var v: int := DigitsValue(ds);
        Some(if t[0] == '-' then -v else v)
      else None
    else if t != [] && AllDigits(t) then Some(DigitsValue(t))
    else None
  }

  /** `int(str(i)) == i`. */
  lemma ParseIntRoundTrip(i: int)
    ensures ParseInt(IntToString(i)) == Some(i)
  {
    var s := IntToString(i);
    TrimTrimmed(s);
    if i < 0 {
      assert s[1..] == NatToString(-i);
      NatToStringRoundTrip(-i);
    } else {
      NatToStringRoundTrip(i);
    }
  }

  /** `int()` of blank text raises. */
  lemma ParseIntRejectsEmpty(s: string)
    requires AllSpace(s)
    ensures ParseInt(s) == None
  {
    SpacesEndExact(s, 0, |s|);
  }

  /** Python's `str.lower()` restricted to ASCII letters. */
  function AsciiLower(s: string): (r: string)
    ensures |r| == |s|
    ensures forall i :: 0 <= i < |s| ==>
              r[i] == if 'A' <= s[i] <= 'Z' then (s[i] as int + 32) as char else s[i]
  {
    if s == [] then []
    else [if 'A' <= s[0] <= 'Z' then (s[0] as int + 32) as char else s[0]] + AsciiLower(s[1..])
  }
}
