/**
 * The string half of the impact computation in the statistics route:
 * `s.match(/\d+/)?.[0]` (the first run of ASCII digits in `s`) and
 * `parseFloat` applied to such a run (its decimal value).
 */
module DigitRuns {
  import opened Wrappers

  /** `\d` without the `u` flag: the ASCII digits only. */
  predicate IsDigit(c: char) {
    '0' <= c <= '9'
  }

  predicate AllDigits(s: string) {
    forall k :: 0 <= k < |s| ==> IsDigit(s[k])
  }

  predicate NoDigits(s: string) {
    forall k :: 0 <= k < |s| ==> !IsDigit(s[k])
  }

  /**
   * `t` is what /\d+/ matches in `s`, found at index `i`: a non-empty run of
   * digits, leftmost (no digit before `i`) and maximal (not followed by a digit).
   */
  predicate IsFirstRun(s: string, i: nat, t: string) {
    && |t| > 0
    && i + |t| <= |s|
    && s[i..i + |t|] == t
    && AllDigits(t)
    && (forall k :: 0 <= k < i ==> !IsDigit(s[k]))
    && (i + |t| == |s| || !IsDigit(s[i + |t|]))
  }

  /** Index of the first digit of `s`, or `|s|` when there is none. */
  function FirstDigitIndex(s: string): (i: nat)
    ensures i <= |s|
    ensures forall k :: 0 <= k < i ==> !IsDigit(s[k])
    ensures i < |s| ==> IsDigit(s[i])
  {
    if |s| == 0 || IsDigit(s[0]) then 0 else 1 + FirstDigitIndex(s[1..])
  }

  /** Length of the run of digits `s` starts with. */
  function LeadingDigits(s: string): (n: nat)
    ensures n <= |s|
    ensures forall k :: 0 <= k < n ==> IsDigit(s[k])
    ensures n == |s| || !IsDigit(s[n])
  {
    if |s| == 0 || !IsDigit(s[0]) then 0 else 1 + LeadingDigits(s[1..])
  }

  /** `s.match(/\d+/)?.[0]`: the matched text, or None when `match` gives null. */
  function MatchDigits(s: string): (m: Option<string>)
    ensures m.None? <==> NoDigits(s)
    ensures m.Some? ==> IsFirstRun(s, FirstDigitIndex(s), m.value)
  {
    var i := FirstDigitIndex(s);
    if i == |s| then None
    else
      var rest := s[i..];
      var n := LeadingDigits(rest);
      assert n > 0 by { assert rest[0] == s[i]; }
      assert i + n < |s| ==> rest[n] == s[i + n];
      var t := s[i..i + n];
      assert forall k :: 0 <= k < n ==> t[k] == rest[k];
      Some(t)
  }

  /** There is only one leftmost maximal run. */
  lemma FirstRunUnique(s: string, i: nat, t: string, j: nat, u: string)
    requires IsFirstRun(s, i, t) && IsFirstRun(s, j, u)
    ensures i == j && t == u
  {
    RunIsDigits(s, i, t);
    RunIsDigits(s, j, u);
    assert IsDigit(s[i]) && IsDigit(s[j]);
    assert i == j;
    assert i + |t| == |s| || !IsDigit(s[i + |t|]);
    assert i + |u| == |s| || !IsDigit(s[i + |u|]);
    assert |t| == |u|;
  }

  /** The characters a run covers in `s` are digits. */
  lemma RunIsDigits(s: string, i: nat, t: string)
    requires IsFirstRun(s, i, t)
    ensures forall k :: i <= k < i + |t| ==> IsDigit(s[k])
  {
    forall k | i <= k < i + |t| ensures IsDigit(s[k]) {
      assert s[k] == s[i..i + |t|][k - i];
    }
  }

  /** MatchDigits finds every leftmost maximal run: with its ensures, an if-and-only-if. */
  lemma MatchDigitsComplete(s: string, i: nat, t: string)
    requires IsFirstRun(s, i, t)
    ensures MatchDigits(s) == Some(t)
  {
    assert IsDigit(s[i]) by { assert s[i] == t[0]; }
    var m := MatchDigits(s);
    FirstRunUnique(s, FirstDigitIndex(s), m.value, i, t);
  }

  function Pow10(n: nat): (p: nat)
    ensures p >= 1
  {
    if n == 0 then 1 else 10 * Pow10(n - 1)
  }

  function DigitValue(c: char): (d: nat)
    requires IsDigit(c)
    ensures d < 10
  {
    (c as int) - ('0' as int)
  }

  function DigitChar(d: nat): (c: char)
    requires d < 10
    ensures IsDigit(c) && DigitValue(c) == d
  {
    (('0' as int) + d) as char
  }

  /** `parseFloat` of a string of digits: its decimal value, leading zeros ignored. */
  function DigitsValue(ds: string): (v: nat)
    requires AllDigits(ds)
    ensures v < Pow10(|ds|)
  {
    if |ds| == 0 then 0
    else
      var v := DigitsValue(ds[..|ds| - 1]);
      var d := DigitValue(ds[|ds| - 1]);
      assert 10 * v + d < 10 * Pow10(|ds| - 1) by {
        assert v + 1 <= Pow10(|ds| - 1);
      }
      10 * v + d
  }

  /** The canonical decimal spelling of `n`: no sign, no leading zero. */
  function Decimal(n: nat): (s: string)
    ensures |s| > 0 && AllDigits(s)
    ensures s[0] == '0' ==> s == "0"
  {
    if n < 10 then [DigitChar(n)] else Decimal(n / 10) + [DigitChar(n % 10)]
  }

  predicate Canonical(ds: string) {
    |ds| > 0 && AllDigits(ds) && (ds[0] == '0' ==> ds == "0")
  }

  /** Reading back the decimal spelling of `n` gives `n`. */
  lemma {:induction false} DigitsValueDecimal(n: nat)
    ensures DigitsValue(Decimal(n)) == n
  {
    if n >= 10 {
      var s := Decimal(n);
      assert s[..|s| - 1] == Decimal(n / 10);
      DigitsValueDecimal(n / 10);
    }
  }

  /** A digit string with no leading zero is the spelling of its own value. */
  lemma {:induction false} DecimalDigitsValue(ds: string)
    requires Canonical(ds)
    ensures Decimal(DigitsValue(ds)) == ds
  {
    if |ds| > 1 {
      var p := ds[..|ds| - 1];
      var d := DigitValue(ds[|ds| - 1]);
      assert Canonical(p) by { assert p[0] == ds[0]; }
      DigitsValuePositive(p);
      var n := DigitsValue(ds);
      assert n == 10 * DigitsValue(p) + d;
      assert n / 10 == DigitsValue(p) && n % 10 == d;
      DecimalDigitsValue(p);
      assert DigitChar(d) == ds[|ds| - 1];
      assert ds == p + [ds[|ds| - 1]];
    } else {
      assert DigitChar(DigitValue(ds[0])) == ds[0];
    }
  }

  /** A digit string that does not start with 0 has a positive value. */
  lemma {:induction false} DigitsValuePositive(ds: string)
    requires |ds| > 0 && AllDigits(ds) && ds[0] != '0'
    ensures DigitsValue(ds) > 0
  {
    if |ds| > 1 {
      var p := ds[..|ds| - 1];
      assert p[0] == ds[0];
      DigitsValuePositive(p);
    }
  }

  /** Reading `a + b` is reading `a` shifted left by `|b|` places, plus reading `b`. */
  lemma {:induction false} DigitsValueAppend(a: string, b: string)
    requires AllDigits(a) && AllDigits(b)
    ensures AllDigits(a + b)
    ensures DigitsValue(a + b) == DigitsValue(a) * Pow10(|b|) + DigitsValue(b)
  {
    if |b| > 0 {
      var b' := b[..|b| - 1];
      assert (a + b)[..|a + b| - 1] == a + b';
      DigitsValueAppend(a, b');
      var last := b[|b| - 1];
      assert (a + b)[|a + b| - 1] == last;
      assert DigitsValue(a + b) == 10 * DigitsValue(a + b') + DigitValue(last);
      assert b[..|b| - 1] == b';
      assert DigitsValue(b) == 10 * DigitsValue(b') + DigitValue(last);
      ShiftByOnePlace(DigitsValue(a), Pow10(|b'|), DigitsValue(b'), DigitValue(last));
    } else {
      assert a + b == a;
    }
  }

  lemma ShiftByOnePlace(v: nat, p: nat, w: nat, d: nat)
    ensures 10 * (v * p + w) + d == v * (10 * p) + (10 * w + d)
  {
  }

  /** Leading zeros do not change the value: parseFloat("007") is 7. */
  lemma {:induction false} LeadingZerosIgnored(zeros: string, ds: string)
    requires forall k :: 0 <= k < |zeros| ==> zeros[k] == '0'
    requires AllDigits(ds)
    ensures AllDigits(zeros + ds) && DigitsValue(zeros + ds) == DigitsValue(ds)
  {
    ZerosValue(zeros);
    DigitsValueAppend(zeros, ds);
  }

  lemma {:induction false} ZerosValue(zeros: string)
    requires forall k :: 0 <= k < |zeros| ==> zeros[k] == '0'
    ensures AllDigits(zeros) && DigitsValue(zeros) == 0
  {
    if |zeros| > 0 {
      ZerosValue(zeros[..|zeros| - 1]);
    }
  }
}
