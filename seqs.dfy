/** Sequence helpers: list comprehensions with a condition, slicing and sums. */
module Seqs {

  lemma AppendAssoc<T>(a: seq<T>, b: seq<T>, c: seq<T>)
    ensures (a + b) + c == a + (b + c)
  {
  }

  lemma PrefixTrans<T>(a: seq<T>, b: seq<T>, c: seq<T>)
    requires a <= b && b <= c
    ensures a <= c
  {
    assert forall k :: 0 <= k < |a| ==> a[k] == b[k] == c[k];
  }

  lemma AgreeOneMore<T>(s: seq<T>, t: seq<T>, i: nat)
    requires i < |s| && i < |t|
    requires forall k :: 0 <= k < i ==> s[k] == t[k]
    requires s[i] == t[i]
    ensures forall k :: 0 <= k < i + 1 ==> s[k] == t[k]
  {
  }

  /** `[x for x in s if p(x)]` */
  function Filter<T>(s: seq<T>, p: T -> bool): (r: seq<T>)
    ensures |r| <= |s|
    ensures forall k :: 0 <= k < |r| ==> r[k] in s && p(r[k])
  {
    if s == [] then [] else (if p(s[0]) then [s[0]] else []) + Filter(s[1..], p)
  }

  /** Every element of `s` that satisfies `p` is selected. */
  lemma {:induction false} FilterComplete<T>(s: seq<T>, p: T -> bool)
    ensures forall k :: 0 <= k < |s| && p(s[k]) ==> s[k] in Filter(s, p)
  {
    if s != [] {
      FilterComplete(s[1..], p);
      assert forall k :: 1 <= k < |s| ==> s[k] == s[1..][k - 1];
    }
  }

  /** The selected elements are exactly those of `s` that satisfy `p`. */
  lemma FilterMembers<T>(s: seq<T>, p: T -> bool)
    ensures forall x :: x in Filter(s, p) <==> x in s && p(x)
  {
    FilterComplete(s, p);
    forall x | x in Filter(s, p)
      ensures x in s && p(x)
    {
      var k :| 0 <= k < |Filter(s, p)| && Filter(s, p)[k] == x;
    }
  }

  /** A selection holds no element more often than `s` does. */
  lemma {:induction false} FilterMultiset<T>(s: seq<T>, p: T -> bool)
    ensures multiset(Filter(s, p)) <= multiset(s)
  {
    if s != [] {
      var tail := Filter(s[1..], p);
      FilterMultiset(s[1..], p);
      assert s == [s[0]] + s[1..];
      if p(s[0]) {
        assert Filter(s, p) == [s[0]] + tail;
        MultisetAddMono(multiset([s[0]]), multiset(tail), multiset([s[0]]), multiset(s[1..]));
      } else {
        assert Filter(s, p) == tail;
        MultisetAddMono(multiset([]), multiset(tail), multiset([s[0]]), multiset(s[1..]));
      }
    }
  }

  lemma MultisetAddMono<T>(a: multiset<T>, b: multiset<T>, c: multiset<T>, d: multiset<T>)
    requires a <= c && b <= d
    ensures a + b <= c + d
  {
  }

  lemma {:induction false} FilterAppend<T>(a: seq<T>, b: seq<T>, p: T -> bool)
    ensures Filter(a + b, p) == Filter(a, p) + Filter(b, p)
  {
    if a == [] {
      assert a + b == b;
    } else {
      var ab := a + b;
      assert ab != [] && ab[0] == a[0] && ab[1..] == a[1..] + b;
      FilterAppend(a[1..], b, p);
    }
  }

  /** Two conditions that agree on every element select the same elements. */
  lemma {:induction false} FilterSame<T>(s: seq<T>, p: T -> bool, q: T -> bool)
    requires forall x :: x in s ==> p(x) == q(x)
    ensures Filter(s, p) == Filter(s, q)
  {
    if s != [] {
      FilterSame(s[1..], p, q);
    }
  }

  /** A slice holds no element more often than the whole sequence. */
  lemma SliceMultiset<T>(s: seq<T>, i: int, j: int)
    requires 0 <= i <= j <= |s|
    ensures multiset(s[i..j]) <= multiset(s)
  {
    assert s == s[..i] + s[i..j] + s[j..];
    assert multiset(s) == multiset(s[..i]) + multiset(s[i..j]) + multiset(s[j..]);
  }

  /** `s[:n]` for `n >= 0`. */
  function Take<T>(s: seq<T>, n: int): (r: seq<T>)
    requires n >= 0
    ensures |r| == if n < |s| then n else |s|
    ensures r <= s
  {
    if n < |s| then s[..n] else s
  }

  /** `s[n:]` for `n >= 0` (SQL `OFFSET n`). */
  function Drop<T>(s: seq<T>, n: int): (r: seq<T>)
    requires n >= 0
    ensures |r| == if n < |s| then |s| - n else 0
    ensures forall k :: 0 <= k < |r| ==> r[k] == s[n + k]
  {
    if n < |s| then s[n..] else []
  }

  /** Reading `a` rows from `o` and then `b` rows from `o + a` reads the `a + b` rows from `o`. */
  lemma PagesConcatenate<T>(s: seq<T>, o: int, a: int, b: int)
    requires o >= 0 && a >= 0 && b >= 0
    ensures Take(Drop(s, o), a) + Take(Drop(s, o + a), b) == Take(Drop(s, o), a + b)
  {
    if o + a < |s| {
      assert Drop(s, o) == s[o..];
      assert Drop(s, o + a) == s[o + a..];
      assert Take(Drop(s, o), a) == s[o..o + a];
      if o + a + b < |s| {
        assert Take(Drop(s, o), a + b) == s[o..o + a + b];
        assert s[o..o + a + b] == s[o..o + a] + s[o + a..o + a + b];
      } else {
        assert Take(Drop(s, o), a + b) == s[o..];
        assert s[o..] == s[o..o + a] + s[o + a..];
      }
    }
  }

  function Sum(s: seq<int>): int {
    if s == [] then 0 else s[0] + Sum(s[1..])
  }

  function SumReal(s: seq<real>): real {
    if s == [] then 0.0 else s[0] + SumReal(s[1..])
  }

  function Min(a: int, b: int): int { if a <= b then a else b }
  function Max(a: int, b: int): int { if a >= b then a else b }

  /** `max(lo, min(x, hi))`, the clamp the source writes for limits and page counts. */
  function Clamp(x: int, lo: int, hi: int): (r: int)
    requires lo <= hi
    ensures lo <= r <= hi
    ensures lo <= x <= hi ==> r == x
    ensures x < lo ==> r == lo
    ensures x > hi ==> r == hi
  {
    Max(lo, Min(x, hi))
  }
}
