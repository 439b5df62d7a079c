/**
 * The handful of Python string operations the core relies on: `p in s`,
 * prefix matching, `str.lower()`, `str.replace("-", "")`, slicing `s[:n]`
 * and `str(i)` / `f"{i}"` for integers.
 */
module Text {

  import opened Wrappers

  /** `s.startswith(p)`. */
  predicate IsPrefix(p: string, s: string) {
    |p| <= |s| && s[..|p|] == p
  }

  /** `p` occurs in `s` starting at index `i`. */
  ghost predicate OccursAt(s: string, p: string, i: int) {
    0 <= i && i + |p| <= |s| && s[i..i + |p|] == p
  }

  /** Python's substring test `p in s`, as a left-to-right scan. */
  function Contains(s: string, p: string): bool
    decreases |s|
  {
    if IsPrefix(p, s) then true
    else if s == [] then false
    else Contains(s[1..], p)
  }

  /** The scan finds `p` exactly when `p` occurs somewhere in `s`. */
  lemma {:induction false} ContainsIff(s: string, p: string)
    ensures Contains(s, p) <==> exists i :: OccursAt(s, p, i)
    decreases |s|
  {
    if IsPrefix(p, s) {
      assert OccursAt(s, p, 0);
    } else if s != [] {
      ContainsIff(s[1..], p);
      forall i
        ensures OccursAt(s, p, i) <==> (i == 0 && IsPrefix(p, s)) || (i > 0 && OccursAt(s[1..], p, i - 1))
      {
        if i > 0 && i + |p| <= |s| {
          assert s[1..][i - 1..i - 1 + |p|] == s[i..i + |p|];
        }
      }
      if Contains(s[1..], p) {
        var j :| OccursAt(s[1..], p, j);
        assert OccursAt(s, p, j + 1);
      }
    }
  }

  /** A string that is a prefix of `s` also occurs in `s`. */
  lemma PrefixIsContained(p: string, s: string)
    requires IsPrefix(p, s)
    ensures Contains(s, p)
  {
  }

  /** ASCII upper-case letters. */
  predicate IsUpper(c: char) {
    'A' <= c <= 'Z'
  }

  function LowerChar(c: char): char {
    if IsUpper(c) then (c as int - 'A' as int + 'a' as int) as char else c
  }

  /** `str.lower()` on ASCII; every other character is left as it is. */
  function Lower(s: string): string {
    seq(|s|, i requires 0 <= i < |s| => LowerChar(s[i]))
  }

  /** Lower-casing leaves a string without upper-case letters unchanged. */
  lemma LowerWithoutUpper(s: string)
    requires forall i :: 0 <= i < |s| ==> !IsUpper(s[i])
    ensures Lower(s) == s
  {
  }

  /** `s.replace(c, "")` for a single character `c`: every `c` is dropped. */
  function RemoveAll(s: string, c: char): (r: string)
    ensures |r| <= |s|
    ensures c !in r
  {
    if s == [] then []
    else (if s[0] == c then [] else [s[0]]) + RemoveAll(s[1..], c)
  }

  /** A character survives the removal exactly when it occurs and is not the one removed. */
  lemma {:induction false} RemoveAllMembers(s: string, c: char, x: char)
    ensures x in RemoveAll(s, c) <==> x in s && x != c
  {
    if s != [] {
      RemoveAllMembers(s[1..], c, x);
      assert x in s <==> x == s[0] || x in s[1..];
    }
  }

  /** Removing characters distributes over concatenation. */
  lemma {:induction false} RemoveAllAppend(s: string, t: string, c: char)
    ensures RemoveAll(s + t, c) == RemoveAll(s, c) + RemoveAll(t, c)
  {
    if s == [] {
      assert s + t == t;
    } else {
      assert (s + t)[1..] == s[1..] + t;
      RemoveAllAppend(s[1..], t, c);
    }
  }

  /** Removing a character that does not occur changes nothing. */
  lemma {:induction false} RemoveAllAbsent(s: string, c: char)
    requires c !in s
    ensures RemoveAll(s, c) == s
  {
    if s != [] {
      assert s == [s[0]] + s[1..];
      RemoveAllAbsent(s[1..], c);
    }
  }

  /** Python's slice `s[:n]` for `n >= 0`. */
  function Take(s: string, n: nat): (r: string)
    ensures |r| == (if |s| <= n then |s| else n) && IsPrefix(r, s)
    ensures |s| <= n ==> r == s
  {
    if |s| <= n then s else s[..n]
  }

  predicate IsDigit(c: char) {
    '0' <= c <= '9'
  }

  function DigitChar(d: nat): (c: char)
    requires d < 10
    ensures IsDigit(c)
  {
    ('0' as int + d) as char
  }

  function DigitValue(c: char): (d: nat)
    requires IsDigit(c)
    ensures d < 10 && DigitChar(d) == c
  {
    c as int - '0' as int
  }

  /** The decimal digits of a natural number, most significant first, with no leading zero. */
  function Digits(n: nat): (r: string)
    ensures |r| >= 1
    ensures forall i :: 0 <= i < |r| ==> IsDigit(r[i])
    ensures |r| > 1 ==> r[0] != '0'
    decreases n
  {
    if n < 10 then [DigitChar(n)] else Digits(n / 10) + [DigitChar(n % 10)]
  }

  /** `str(i)` for a Python integer: a minus sign before the digits of `|i|` when negative. */
  function Decimal(i: int): string {
    if i < 0 then "-" + Digits(-i) else Digits(i)
  }

  predicate AllDigits(s: string) {
    forall i :: 0 <= i < |s| ==> IsDigit(s[i])
  }

  /** The value of a string of decimal digits. */
  function DigitsValue(s: string): nat
    requires AllDigits(s)
  {
    if s == [] then 0 else 10 * DigitsValue(s[..|s| - 1]) + DigitValue(s[|s| - 1])
  }

  /** `int(s)` restricted to an optional minus sign followed by ASCII digits. */
  function ParseDecimal(s: string): Option<int> {
    if |s| > 1 && s[0] == '-' && AllDigits(s[1..]) then Some(-(DigitsValue(s[1..]) as int))
    else if |s| > 0 && AllDigits(s) then Some(DigitsValue(s))
    else None
  }

  /** Reading back the digits of `n` gives `n`. */
  lemma {:induction false} DigitsValueOfDigits(n: nat)
    ensures DigitsValue(Digits(n)) == n
    decreases n
  {
    var r := Digits(n);
    if n >= 10 {
      assert r[..|r| - 1] == Digits(n / 10);
      DigitsValueOfDigits(n / 10);
    }
  }

  /** `int(str(i)) == i`: the decimal rendering loses nothing. */
  lemma DecimalRoundTrip(i: int)
    ensures ParseDecimal(Decimal(i)) == Some(i)
  {
    if i < 0 {
      ParseNegative(Digits(-i));
      DigitsValueOfDigits(-i);
    } else {
      ParseNonNegative(Digits(i));
      DigitsValueOfDigits(i);
    }
  }

  lemma ParseNegative(d: string)
    requires |d| > 0 && AllDigits(d)
    ensures ParseDecimal("-" + d) == Some(-(DigitsValue(d) as int))
  {
    assert ("-" + d)[1..] == d;
  }

  lemma ParseNonNegative(d: string)
    requires |d| > 0 && AllDigits(d)
    ensures ParseDecimal(d) == Some(DigitsValue(d))
  {
    assert d[0] != '-';
  }

  function Pow10(k: nat): (r: nat)
    ensures r >= 1
  {
    if k == 0 then 1 else 10 * Pow10(k - 1)
  }

  lemma Pow10Of19()
    ensures Pow10(19) == 10_000_000_000_000_000_000
  {
    assert Pow10(3) == 1_000;
    assert Pow10(6) == 1_000_000;
    assert Pow10(9) == 1_000_000_000;
    assert Pow10(12) == 1_000_000_000_000;
    assert Pow10(15) == 1_000_000_000_000_000;
    assert Pow10(18) == 1_000_000_000_000_000_000;
  }

  /** A number below `10^k` has at most `k` digits. */
  lemma {:induction false} DigitsLength(n: nat, k: nat)
    requires 1 <= k && n < Pow10(k)
    ensures |Digits(n)| <= k
    decreases n
  {
    if n >= 10 {
      assert Pow10(1) == 10;
      assert n / 10 < Pow10(k - 1);
      DigitsLength(n / 10, k - 1);
    }
  }
}
