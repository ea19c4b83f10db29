/** Decimal rendering of integers, as JavaScript's `String(n)` and template literals
    (`cell-${index}-${rawId}`) produce it for integral numbers, and the string tests the
    filters use. */
module Strings {
  import opened Wrappers

  predicate IsDigit(c: char) {
    '0' <= c <= '9'
  }

  function Digit(d: nat): (c: char)
    requires d < 10
    ensures IsDigit(c)
  {
    (48 + d) as char
  }

  /** The decimal digits of `n`, without leading zeros. */
  function NatToString(n: nat): (r: string)
    ensures |r| > 0
    ensures forall i :: 0 <= i < |r| ==> IsDigit(r[i])
    ensures n >= 10 ==> |r| >= 2
  {
    if n < 10 then [Digit(n)] else NatToString(n / 10) + [Digit(n % 10)]
  }

  /** `String(i)` for an integral number. */
  function IntToString(i: int): (r: string)
    ensures |r| > 0
  {
    if i < 0 then "-" + NatToString(-i) else NatToString(i)
  }

  /** Different numbers have different decimal renderings. */
  lemma {:induction false} NatToStringInjective(n: nat, m: nat)
    requires NatToString(n) == NatToString(m)
    ensures n == m
    decreases n
  {
    if n >= 10 && m >= 10 {
      var a, b := NatToString(n), NatToString(m);
      assert a[..|a| - 1] == NatToString(n / 10);
      assert b[..|b| - 1] == NatToString(m / 10);
      NatToStringInjective(n / 10, m / 10);
      assert a[|a| - 1] == Digit(n % 10) && b[|b| - 1] == Digit(m % 10);
    }
  }

  /** A decimal rendering never contains the separator '-'. */
  lemma NoDashInDigits(n: nat)
    ensures '-' !in NatToString(n)
  {
    var r := NatToString(n);
    forall i | 0 <= i < |r|
      ensures r[i] != '-'
    {
      assert IsDigit(r[i]);
    }
  }

  /** Joining two dash-free words to anything with a '-' is unambiguous. */
  lemma DashSplit(a: string, x: string, b: string, y: string)
    requires '-' !in a && '-' !in b
    requires a + "-" + x == b + "-" + y
    ensures a == b && x == y
  {
    var s := a + "-" + x;
    assert s == b + "-" + y;
    assert s[|a|] == '-' && s[|b|] == '-';
    assert forall k :: 0 <= k < |a| ==> s[k] == a[k] && a[k] in a;
    assert forall k :: 0 <= k < |b| ==> s[k] == b[k] && b[k] in b;
    assert |a| == |b|;
    assert a == s[..|a|] == b;
    assert x == s[|a| + 1..] == y;
  }

  /** Identifiers of the form `<prefix><n>-<rawId>` tell both `n` and `rawId` apart. */
  lemma PrefixedIdInjective(prefix: string, n: nat, r1: string, m: nat, r2: string)
    requires prefix + NatToString(n) + "-" + r1 == prefix + NatToString(m) + "-" + r2
    ensures n == m && r1 == r2
  {
    var s1 := prefix + NatToString(n) + "-" + r1;
    var s2 := prefix + NatToString(m) + "-" + r2;
    assert s1[|prefix|..] == NatToString(n) + "-" + r1;
    assert s2[|prefix|..] == NatToString(m) + "-" + r2;
    NoDashInDigits(n);
    NoDashInDigits(m);
    DashSplit(NatToString(n), r1, NatToString(m), r2);
    NatToStringInjective(n, m);
  }

  /** `sub` occurs in `s` starting at position `i`. */
  predicate OccursAt(s: string, sub: string, i: int) {
    0 <= i <= |s| - |sub| && s[i..i + |sub|] == sub
  }

  /** `s.includes(sub)`: `sub` occurs in `s` at some position. */
  predicate Includes(s: string, sub: string) {
    exists i :: 0 <= i <= |s| && OccursAt(s, sub, i)
  }

  /** `!!param` for a string that may be unset: it is set and not empty. */
  predicate Selects(param: Option<string>) {
    param.Some? && param.value != ""
  }
}
