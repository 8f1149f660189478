/**
 * A stable sort by a total preorder, the model of Python's `list.sort(key=...)`
 * (and of SQL `ORDER BY` where the model fixes the table order for ties).
 * `le(a, b)` means that `a` may be placed before `b`.
 */
module Sorting {
  import Seqs

  /** `le` is total and transitive, as the order induced by a sort key is. */
  ghost predicate TotalPreorder<T(!new)>(le: (T, T) -> bool) {
    && (forall a, b :: le(a, b) || le(b, a))
    && (forall a, b, c :: le(a, b) && le(b, c) ==> le(a, c))
  }

  ghost predicate Sorted<T>(s: seq<T>, le: (T, T) -> bool) {
    forall i, j :: 0 <= i < j < |s| ==> le(s[i], s[j])
  }

  /** Places `x` after the longest prefix of `s` whose elements may precede it. */
  function Insert<T>(x: T, s: seq<T>, le: (T, T) -> bool): seq<T> {
    if s == [] then [x]
    else if le(s[0], x) then [s[0]] + Insert(x, s[1..], le)
    else [x] + s
  }

  /**
   * Stable insertion sort: each element is inserted after every element already
   * sorted that may precede it, so equivalent elements keep their input order.
   */
  function SortBy<T>(s: seq<T>, le: (T, T) -> bool): seq<T> {
    if s == [] then [] else Insert(s[|s| - 1], SortBy(s[..|s| - 1], le), le)
  }

  /** The elements of `s` equivalent to `x` under `le`, in their order in `s`. */
  function Ties<T>(s: seq<T>, x: T, le: (T, T) -> bool): seq<T> {
    if s == [] then []
    else (if le(s[0], x) && le(x, s[0]) then [s[0]] else []) + Ties(s[1..], x, le)
  }

  /** Every element of `s` may follow `y`. */
  ghost predicate AllAfter<T>(y: T, s: seq<T>, le: (T, T) -> bool) {
    forall k :: 0 <= k < |s| ==> le(y, s[k])
  }

  lemma {:induction false} InsertAllAfter<T(!new)>(y: T, x: T, s: seq<T>, le: (T, T) -> bool)
    requires AllAfter(y, s, le) && le(y, x)
    ensures AllAfter(y, Insert(x, s, le), le)
  {
    if s != [] && le(s[0], x) {
      InsertAllAfter(y, x, s[1..], le);
    }
  }

  lemma {:induction false} InsertSorted<T(!new)>(x: T, s: seq<T>, le: (T, T) -> bool)
    requires TotalPreorder(le) && Sorted(s, le)
    ensures Sorted(Insert(x, s, le), le)
  {
    if s == [] {
    } else if le(s[0], x) {
      InsertSorted(x, s[1..], le);
      InsertAllAfter(s[0], x, s[1..], le);
    } else {
      assert le(x, s[0]);
      assert AllAfter(s[0], s, le);
    }
  }

  lemma {:induction false} InsertMultiset<T>(x: T, s: seq<T>, le: (T, T) -> bool)
    ensures multiset(Insert(x, s, le)) == multiset(s) + multiset{x}
  {
    if s != [] && le(s[0], x) {
      InsertMultiset(x, s[1..], le);
      assert s == [s[0]] + s[1..];
    }
  }

  /** The sort orders its output, and only rearranges its input. */
  lemma {:induction false} SortByProperties<T(!new)>(s: seq<T>, le: (T, T) -> bool)
    requires TotalPreorder(le)
    ensures Sorted(SortBy(s, le), le)
    ensures multiset(SortBy(s, le)) == multiset(s)
    ensures |SortBy(s, le)| == |s|
  {
    if s != [] {
      var init := s[..|s| - 1];
      SortByProperties(init, le);
      InsertSorted(s[|s| - 1], SortBy(init, le), le);
      InsertMultiset(s[|s| - 1], SortBy(init, le), le);
      assert s == init + [s[|s| - 1]];
    }
    assert |multiset(SortBy(s, le))| == |SortBy(s, le)|;
  }

  lemma SortBySorted<T(!new)>(s: seq<T>, le: (T, T) -> bool)
    requires TotalPreorder(le)
    ensures Sorted(SortBy(s, le), le)
  {
    SortByProperties(s, le);
  }

  lemma {:induction false} TiesAppend<T>(a: seq<T>, b: seq<T>, x: T, le: (T, T) -> bool)
    ensures Ties(a + b, x, le) == Ties(a, x, le) + Ties(b, x, le)
  {
    if a != [] {
      TiesAppend(a[1..], b, x, le);
      assert (a + b)[0] == a[0];
      assert (a + b)[1..] == a[1..] + b;
      var h := if le(a[0], x) && le(x, a[0]) then [a[0]] else [];
      assert Ties(a + b, x, le) == h + (Ties(a[1..], x, le) + Ties(b, x, le));
      assert Ties(a, x, le) == h + Ties(a[1..], x, le);
    } else {
      assert a + b == b;
    }
  }

  lemma {:induction false} InsertTies<T(!new)>(y: T, s: seq<T>, x: T, le: (T, T) -> bool)
    requires TotalPreorder(le) && Sorted(s, le)
    ensures Ties(Insert(y, s, le), x, le) == Ties(s, x, le) + Ties([y], x, le)
  {
    if s == [] {
      assert Insert(y, s, le) == [y];
    } else if le(s[0], y) {
      SortedTail(s, le);
      InsertTies(y, s[1..], x, le);
      InsertTiesStep(y, s, x, le);
    } else {
      InsertTiesFront(y, s, x, le);
    }
  }

  lemma SortedTail<T>(s: seq<T>, le: (T, T) -> bool)
    requires Sorted(s, le) && s != []
    ensures Sorted(s[1..], le)
  {
    assert forall i :: 0 <= i < |s| - 1 ==> s[1..][i] == s[i + 1];
  }

  /** Insertion behind the head: the head's ties come first either way. */
  lemma InsertTiesStep<T>(y: T, s: seq<T>, x: T, le: (T, T) -> bool)
    requires s != [] && le(s[0], y)
    requires Ties(Insert(y, s[1..], le), x, le) == Ties(s[1..], x, le) + Ties([y], x, le)
    ensures Ties(Insert(y, s, le), x, le) == Ties(s, x, le) + Ties([y], x, le)
  {
    assert Insert(y, s, le) == [s[0]] + Insert(y, s[1..], le);
    TiesAppend([s[0]], Insert(y, s[1..], le), x, le);
    TiesAppend([s[0]], s[1..], x, le);
    assert s == [s[0]] + s[1..];
    Seqs.AppendAssoc(Ties([s[0]], x, le), Ties(s[1..], x, le), Ties([y], x, le));
  }

  /** Insertion in front: `y` ties with `x` only if nothing in `s` does. */
  lemma InsertTiesFront<T(!new)>(y: T, s: seq<T>, x: T, le: (T, T) -> bool)
    requires TotalPreorder(le) && Sorted(s, le)
    requires s != [] && !le(s[0], y)
    ensures Ties(Insert(y, s, le), x, le) == Ties(s, x, le) + Ties([y], x, le)
  {
    assert Insert(y, s, le) == [y] + s;
    TiesAppend([y], s, x, le);
    if le(y, x) && le(x, y) {
      NoTiesAbove(y, s, x, le);
    } else {
      assert Ties([y], x, le) == [] + Ties([], x, le);
    }
  }

  /** When `y` strictly precedes the head of sorted `s`, nothing in `s` ties with `y`. */
  lemma NoTiesAbove<T(!new)>(y: T, s: seq<T>, x: T, le: (T, T) -> bool)
    requires TotalPreorder(le) && Sorted(s, le)
    requires s != [] && !le(s[0], y)
    requires le(y, x) && le(x, y)
    ensures Ties(s, x, le) == []
  {
    assert forall k :: 0 <= k < |s| ==> le(s[0], s[k]) && !le(s[k], x);
    NoneTie(s, x, le);
  }

  lemma {:induction false} NoneTie<T>(s: seq<T>, x: T, le: (T, T) -> bool)
    requires forall k :: 0 <= k < |s| ==> !le(s[k], x)
    ensures Ties(s, x, le) == []
  {
    if s != [] {
      NoneTie(s[1..], x, le);
    }
  }

  /** Stability: the elements of any one equivalence class keep their relative order. */
  lemma {:induction false} SortByStable<T(!new)>(s: seq<T>, x: T, le: (T, T) -> bool)
    requires TotalPreorder(le)
    ensures Ties(SortBy(s, le), x, le) == Ties(s, x, le)
  {
    if s != [] {
      var init, last := s[..|s| - 1], s[|s| - 1];
      assert SortBy(s, le) == Insert(last, SortBy(init, le), le);
      SortByStable(init, x, le);
      SortBySorted(init, le);
      InsertTies(last, SortBy(init, le), x, le);
      TiesAppend(init, [last], x, le);
      assert s == init + [last];
    }
  }

  /**
   * `ORDER BY ... LIMIT n`: the first `n` of the sorted sequence are in order,
   * come from the input (with no more copies than it has), and no element
   * left out may not follow every element kept.
   */
  lemma TakeSortedProperties<T(!new)>(s: seq<T>, le: (T, T) -> bool, n: int)
    requires TotalPreorder(le) && n >= 0
    ensures var top := Seqs.Take(SortBy(s, le), n);
      && |top| == (if n < |s| then n else |s|)
      && multiset(top) <= multiset(s)
      && (forall k :: 0 <= k < |top| ==> top[k] in s)
      && Sorted(top, le)
      && (forall x, k :: x in s && x !in top && 0 <= k < |top| ==> le(top[k], x))
  {
    var sorted := SortBy(s, le);
    SortByProperties(s, le);
    var top := Seqs.Take(sorted, n);
    assert sorted == top + sorted[|top|..];
    assert multiset(sorted) == multiset(top) + multiset(sorted[|top|..]);
    forall k | 0 <= k < |top|
      ensures top[k] in s
    {
      assert top[k] == sorted[k];
      assert top[k] in multiset(sorted);
    }
    forall x, k | x in s && x !in top && 0 <= k < |top|
      ensures le(top[k], x)
    {
      assert x in multiset(sorted);
      var j :| 0 <= j < |sorted| && sorted[j] == x;
      assert j >= |top|;
      assert top[k] == sorted[k];
    }
  }

  /** The head of a sorted non-empty sequence is an input element that may precede every input element. */
  lemma FirstIsLeast<T(!new)>(s: seq<T>, le: (T, T) -> bool)
    requires TotalPreorder(le) && s != []
    ensures |SortBy(s, le)| == |s| && SortBy(s, le)[0] in s
    ensures forall x :: x in s ==> le(SortBy(s, le)[0], x)
  {
    var sorted := SortBy(s, le);
    SortByProperties(s, le);
    assert sorted[0] in multiset(sorted);
    forall x | x in s
      ensures le(sorted[0], x)
    {
      assert x in multiset(sorted);
      var j :| 0 <= j < |sorted| && sorted[j] == x;
      if j > 0 {
        assert le(sorted[0], sorted[j]);
      } else {
        assert le(sorted[0], sorted[0]);
      }
    }
  }

  /**
   * `ORDER BY ... OFFSET o LIMIT n`: the page holds the sorted rows from
   * position `o` on, in order, and only rearranges part of the input.
   */
  lemma PageOfSorted<T(!new)>(s: seq<T>, le: (T, T) -> bool, offset: int, limit: int)
    requires TotalPreorder(le) && offset >= 0 && limit >= 0
    ensures var page := Seqs.Take(Seqs.Drop(SortBy(s, le), offset), limit);
      && |page| == Seqs.Min(limit, Seqs.Max(0, |s| - offset))
      && (forall k :: 0 <= k < |page| ==> page[k] == SortBy(s, le)[offset + k])
      && multiset(page) <= multiset(s)
      && (forall k :: 0 <= k < |page| ==> page[k] in s)
      && Sorted(page, le)
  {
    var sorted := SortBy(s, le);
    SortByProperties(s, le);
    var page := Seqs.Take(Seqs.Drop(sorted, offset), limit);
    forall k | 0 <= k < |page|
      ensures page[k] == sorted[offset + k]
    {
      assert page[k] == Seqs.Drop(sorted, offset)[k];
    }
    PageMultiset(sorted, offset, page);
    forall k | 0 <= k < |page|
      ensures page[k] in s
    {
      assert sorted[offset + k] in multiset(sorted);
    }
  }

  lemma PageMultiset<T>(sorted: seq<T>, offset: int, page: seq<T>)
    requires page == [] || (offset >= 0 && offset + |page| <= |sorted|)
    requires forall k :: 0 <= k < |page| ==> page[k] == sorted[offset + k]
    ensures multiset(page) <= multiset(sorted)
  {
    if page != [] {
      assert page == sorted[offset..offset + |page|];
      Seqs.SliceMultiset(sorted, offset, offset + |page|);
    }
  }
}
