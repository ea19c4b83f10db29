/** The array operations the plugins use: `Array.prototype.filter`, `Array.prototype.slice`,
    `Math.ceil` of a quotient, and the exchange of two slots. */
module Seqs {

  /** `r` is obtained from `s` by deleting elements, keeping the rest in order. */
  ghost predicate IsSubsequence<T>(r: seq<T>, s: seq<T>)
    decreases |s|
  {
    if r == [] then true
    else if s == [] then false
    else (r[0] == s[0] && IsSubsequence(r[1..], s[1..])) || IsSubsequence(r, s[1..])
  }

  /** `s.filter(p)`. */
  function Filter<T>(s: seq<T>, p: T -> bool): (r: seq<T>)
    ensures |r| <= |s|
    ensures forall i :: 0 <= i < |r| ==> p(r[i]) && r[i] in s
  {
    if s == [] then [] else (if p(s[0]) then [s[0]] else []) + Filter(s[1..], p)
  }

  /** An element of `s` is kept by the filter exactly when it passes the predicate. */
  lemma {:induction false} FilterMembership<T>(s: seq<T>, p: T -> bool, x: T)
    ensures x in Filter(s, p) <==> x in s && p(x)
  {
    if s != [] {
      FilterMembership(s[1..], p, x);
      assert s == [s[0]] + s[1..];
    }
  }

  /** The filter keeps the passing elements in their original order. */
  lemma {:induction false} FilterIsSubsequence<T>(s: seq<T>, p: T -> bool)
    ensures IsSubsequence(Filter(s, p), s)
  {
    if s != [] {
      FilterIsSubsequence(s[1..], p);
      var rest := Filter(s[1..], p);
      if p(s[0]) {
        assert Filter(s, p) == [s[0]] + rest;
        assert ([s[0]] + rest)[1..] == rest;
      } else {
        assert Filter(s, p) == rest;
      }
    }
  }

  /** A filter whose elements all pass already is the identity. */
  lemma {:induction false} FilterAllPass<T>(s: seq<T>, p: T -> bool)
    requires forall i :: 0 <= i < |s| ==> p(s[i])
    ensures Filter(s, p) == s
  {
    if s != [] {
      FilterAllPass(s[1..], p);
    }
  }

  /** Every sequence is a subsequence of itself. */
  lemma {:induction false} SubsequenceOfItself<T>(s: seq<T>)
    ensures IsSubsequence(s, s)
  {
    if s != [] {
      SubsequenceOfItself(s[1..]);
    }
  }

  /** Filtering twice with the same predicate is filtering once. */
  lemma FilterIdempotent<T>(s: seq<T>, p: T -> bool)
    ensures Filter(Filter(s, p), p) == Filter(s, p)
  {
    FilterAllPass(Filter(s, p), p);
  }

  /** How `slice` turns an index argument into a position: negative counts from the end,
      and the result is clamped to `[0, len]`. */
  function SliceIndex(k: int, len: nat): (r: nat)
    ensures r <= len
    ensures 0 <= k <= len ==> r == k
  {
    if k < 0 then (if len + k < 0 then 0 else len + k) else if k > len then len else k
  }

  /** `s.slice(start, end)`. */
  function JsSlice<T>(s: seq<T>, start: int, end: int): (r: seq<T>)
    ensures |r| <= |s|
    ensures 0 <= start <= end ==> |r| <= end - start
    ensures 0 <= start <= end <= |s| ==> r == s[start..end]
    ensures 0 <= start <= |s| <= end ==> r == s[start..]
  {
    var a := SliceIndex(start, |s|);
    var b := SliceIndex(end, |s|);
    if a < b then s[a..b] else []
  }

  /** `Math.ceil(a / b)` for a positive divisor. */
  function CeilDiv(a: nat, b: nat): (r: nat)
    requires b > 0
    ensures a <= r * b
    ensures r == 0 || (r - 1) * b < a
  {
    var q := (a + b - 1) / b;
    assert q * b <= a + b - 1 < q * b + b;
    q
  }

  /** Page `page`, counted from 1, of `size` elements: `s.slice((page - 1) * size, page * size)`. */
  function Window<T>(s: seq<T>, page: int, size: nat): seq<T> {
    JsSlice(s, (page - 1) * size, page * size)
  }

  /** A page counted from 1 holds the at most `size` elements from its offset on, and it is
      empty exactly when it lies past the last of the `ceil(|s| / size)` pages. */
  lemma WindowContents<T>(s: seq<T>, page: int, size: nat)
    requires page >= 1 && size > 0
    ensures var w := Window(s, page, size);
            |w| <= size &&
            (forall k :: 0 <= k < |w| ==> (page - 1) * size + k < |s| && w[k] == s[(page - 1) * size + k]) &&
            (w != [] <==> page <= CeilDiv(|s|, size))
  {
    var start := (page - 1) * size;
    NextPageOffset(page, size);
    assert start >= 0 by {
      MulMonotone(0, page - 1, size);
    }
    assert Window(s, page, size) == JsSlice(s, start, start + size);
    SliceFrom(s, start, size);
    PageInRange(page, size, |s|);
  }

  lemma SliceFrom<T>(s: seq<T>, start: nat, size: nat)
    requires size > 0
    ensures var w := JsSlice(s, start, start + size);
            |w| <= size &&
            (forall k :: 0 <= k < |w| ==> start + k < |s| && w[k] == s[start + k]) &&
            (w != [] <==> start < |s|)
  {
  }

  /** Page `page` starts inside `n` elements exactly when it is one of the first `ceil(n / size)`. */
  lemma PageInRange(page: int, size: nat, n: nat)
    requires page >= 1 && size > 0
    ensures (page - 1) * size < n <==> page <= CeilDiv(n, size)
  {
    var r := CeilDiv(n, size);
    if page <= r {
      MulMonotone(page - 1, r - 1, size);
    } else {
      MulMonotone(r, page - 1, size);
    }
  }

  lemma NextPageOffset(page: int, size: nat)
    ensures page * size == (page - 1) * size + size
  {
  }

  lemma MulMonotone(a: int, b: int, c: nat)
    requires a <= b
    ensures a * c <= b * c
  {
  }

  /** `[...a]`: a new array with the same elements. */
  method Copy<T>(a: array<T>) returns (b: array<T>)
    ensures fresh(b) && b[..] == a[..]
  {
    b := new T[a.Length](i requires 0 <= i < a.Length reads a => a[i]);
    assert forall i :: 0 <= i < a.Length ==> b[i] == a[i];
  }

  /** `s` with the elements at `i` and `j` exchanged. */
  function Swapped<T>(s: seq<T>, i: nat, j: nat): (r: seq<T>)
    requires i < |s| && j < |s|
    ensures |r| == |s| && r[i] == s[j] && r[j] == s[i]
    ensures forall k :: 0 <= k < |s| && k != i && k != j ==> r[k] == s[k]
  {
    s[i := s[j]][j := s[i]]
  }

  /** Exchanging the same two slots twice restores the sequence. */
  lemma SwappedTwice<T>(s: seq<T>, i: nat, j: nat)
    requires i < |s| && j < |s|
    ensures Swapped(Swapped(s, i, j), i, j) == s
  {
    var t := Swapped(Swapped(s, i, j), i, j);
    assert forall k :: 0 <= k < |s| ==> t[k] == s[k];
  }

  /** Exchanging a slot with itself changes nothing. */
  lemma SwappedSelf<T>(s: seq<T>, i: nat)
    requires i < |s|
    ensures Swapped(s, i, i) == s
  {
  }

  /** One more element of the prefix: what is in `s[..i + 1]` is in `s[..i]` or is `s[i]`. */
  lemma PrefixGrows<T>(s: seq<T>, i: nat, x: T)
    requires i < |s|
    ensures x in s[..i + 1] <==> x in s[..i] || x == s[i]
  {
    assert s[..i + 1] == s[..i] + [s[i]];
  }
}
