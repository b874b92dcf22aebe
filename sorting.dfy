/** Query building blocks shared by the backend model: `filter(...)` keeps
    the rows a predicate accepts, in table order, and `order_by(...)` sorts
    them. A database breaks ties between equal keys as it likes, so the
    contracts about ordering promise "sorted", "a permutation of the
    filtered rows" and, for a sliced query, "the first rows in that order",
    never one particular arrangement of equal keys. */
module Sorting {

  /** The rows of `s` that `keep` accepts, in their original order. */
  function Filter<T(!new)>(s: seq<T>, keep: T -> bool): (r: seq<T>)
    ensures |r| <= |s|
    ensures forall i :: 0 <= i < |r| ==> keep(r[i])
    ensures forall i :: 0 <= i < |r| ==> r[i] in s
    ensures forall i :: 0 <= i < |s| && keep(s[i]) ==> s[i] in r
    ensures multiset(r) <= multiset(s)
    ensures forall x :: multiset(r)[x] == if keep(x) then multiset(s)[x] else 0
  {
    if |s| == 0 then []
    else
      var rest := Filter(s[1..], keep);
      FilterStep(s, keep, rest);
      if keep(s[0]) then [s[0]] + rest else rest
  }

  /** One step of `Filter`: what holds of the filtered tail carries over
      to the whole once the head is kept or dropped. */
  lemma FilterStep<T(!new)>(s: seq<T>, keep: T -> bool, rest: seq<T>)
    requires |s| > 0 && |rest| <= |s| - 1
    requires forall i :: 0 <= i < |rest| ==> keep(rest[i]) && rest[i] in s[1..]
    requires forall i :: 0 <= i < |s[1..]| && keep(s[1..][i]) ==> s[1..][i] in rest
    requires forall x :: multiset(rest)[x] == if keep(x) then multiset(s[1..])[x] else 0
    ensures var r := if keep(s[0]) then [s[0]] + rest else rest;
      |r| <= |s| &&
      (forall i :: 0 <= i < |r| ==> keep(r[i]) && r[i] in s) &&
      (forall i :: 0 <= i < |s| && keep(s[i]) ==> s[i] in r) &&
      (forall x :: multiset(r)[x] == if keep(x) then multiset(s)[x] else 0)
  {
    var r := if keep(s[0]) then [s[0]] + rest else rest;
    assert s == [s[0]] + s[1..];
    assert multiset(s) == multiset{s[0]} + multiset(s[1..]);
    forall i | 1 <= i < |s| && keep(s[i]) ensures s[i] in r {
      assert s[i] == s[1..][i - 1];
    }
    if keep(s[0]) {
      assert multiset(r) == multiset{s[0]} + multiset(rest);
      forall i | 1 <= i < |r| ensures keep(r[i]) && r[i] in s {
        assert r[i] == rest[i - 1];
      }
    }
  }

  ghost predicate TotalPreorder<T(!new)>(le: (T, T) -> bool)
  {
    (forall a, b :: le(a, b) || le(b, a)) &&
    (forall a, b, c :: le(a, b) && le(b, c) ==> le(a, c))
  }

  predicate SortedBy<T>(s: seq<T>, le: (T, T) -> bool)
  {
    forall i, j :: 0 <= i < j < |s| ==> le(s[i], s[j])
  }

  function Insert<T>(x: T, s: seq<T>, le: (T, T) -> bool): (r: seq<T>)
    ensures multiset(r) == multiset(s) + multiset{x}
    ensures |r| == |s| + 1
  {
    if |s| == 0 then [x]
    else if le(x, s[0]) then [x] + s
    else
      assert s == [s[0]] + s[1..];
      [s[0]] + Insert(x, s[1..], le)
  }

  /** Insertion sort: the order `order_by` produces, up to ties. */
  function SortBy<T>(s: seq<T>, le: (T, T) -> bool): (r: seq<T>)
    ensures multiset(r) == multiset(s)
    ensures |r| == |s|
  {
    if |s| == 0 then []
    else
      assert s == [s[0]] + s[1..];
      Insert(s[0], SortBy(s[1..], le), le)
  }

  lemma {:induction false} InsertSorted<T(!new)>(x: T, s: seq<T>, le: (T, T) -> bool)
    requires TotalPreorder(le) && SortedBy(s, le)
    ensures SortedBy(Insert(x, s, le), le)
  {
    if |s| > 0 && !le(x, s[0]) {
      InsertSorted(x, s[1..], le);
      var r := Insert(x, s, le);
      var tail := Insert(x, s[1..], le);
      assert r == [s[0]] + tail;
      forall k | 0 <= k < |tail| ensures le(s[0], tail[k]) {
        assert tail[k] in multiset(tail);
        assert tail[k] in multiset(s[1..]) + multiset{x};
        if tail[k] != x {
          assert tail[k] in multiset(s[1..]);
          var m :| 0 <= m < |s[1..]| && s[1..][m] == tail[k];
          assert le(s[0], s[m + 1]);
        }
      }
    }
  }

  /** `order_by` returns the same rows, sorted. */
  lemma {:induction false} SortBySorted<T(!new)>(s: seq<T>, le: (T, T) -> bool)
    requires TotalPreorder(le)
    ensures SortedBy(SortBy(s, le), le)
  {
    if |s| > 0 {
      SortBySorted(s[1..], le);
      InsertSorted(s[0], SortBy(s[1..], le), le);
    }
  }

  /** `filter(...).order_by(...)`: every accepted row exactly as often as
      the table holds it, no other row, sorted. */
  function OrderedFilter<T(!new)>(s: seq<T>, keep: T -> bool, le: (T, T) -> bool): (r: seq<T>)
    requires TotalPreorder(le)
    ensures SortedBy(r, le)
    ensures forall x :: multiset(r)[x] == if keep(x) then multiset(s)[x] else 0
    ensures forall i :: 0 <= i < |r| ==> r[i] in s && keep(r[i])
    ensures forall i :: 0 <= i < |s| && keep(s[i]) ==> s[i] in r
  {
    var kept := Filter(s, keep);
    SortBySorted(kept, le);
    SortByMembers(kept, le);
    SortBy(kept, le)
  }

  /** `filter(...).order_by(...)[:n]`: at most `n` accepted rows, sorted,
      and the first ones: a row left out comes no earlier than any row
      returned; when fewer than `n` come back, none was left out. */
  function OrderedFilterFirst<T(!new)>(s: seq<T>, keep: T -> bool, le: (T, T) -> bool, n: nat): (r: seq<T>)
    requires TotalPreorder(le)
    ensures SortedBy(r, le)
    ensures |r| == if |Filter(s, keep)| < n then |Filter(s, keep)| else n
    ensures forall i :: 0 <= i < |r| ==> r[i] in s && keep(r[i])
    ensures forall x :: multiset(r)[x] <= if keep(x) then multiset(s)[x] else 0
    ensures forall x, i :: 0 <= i < |r| && keep(x) && multiset(r)[x] < multiset(s)[x] ==> le(r[i], x)
    ensures |r| < n ==> forall x :: multiset(r)[x] == if keep(x) then multiset(s)[x] else 0
  {
    var sorted := OrderedFilter(s, keep, le);
    var m := if |sorted| <= n then |sorted| else n;
    assert |sorted| == |Filter(s, keep)| by {
      assert multiset(sorted) == multiset(Filter(s, keep));
    }
    PrefixHoldsTheFirst(sorted, m, le);
    PrefixCounts(sorted, m);
    sorted[..m]
  }

  /** A prefix holds each element at most as often as the whole, and the
      whole prefix is the sequence itself. */
  lemma PrefixCounts<T>(s: seq<T>, m: int)
    requires 0 <= m <= |s|
    ensures forall x :: multiset(s[..m])[x] <= multiset(s)[x]
    ensures m == |s| ==> s[..m] == s
  {
    assert s == s[..m] + s[m..];
    assert multiset(s) == multiset(s[..m]) + multiset(s[m..]);
  }

  /** A slice `[:n]` of a sorted query holds its first rows: a row left out
      (or left out once more than it is kept) comes no earlier than any
      row kept. */
  lemma {:induction false} PrefixHoldsTheFirst<T>(s: seq<T>, n: int, le: (T, T) -> bool)
    requires SortedBy(s, le) && 0 <= n <= |s|
    ensures forall x, i :: 0 <= i < n && multiset(s[..n])[x] < multiset(s)[x] ==> le(s[i], x)
  {
    assert s == s[..n] + s[n..];
    forall x, i | 0 <= i < n && multiset(s[..n])[x] < multiset(s)[x] ensures le(s[i], x) {
      assert multiset(s) == multiset(s[..n]) + multiset(s[n..]);
      assert x in multiset(s[n..]);
      var k :| 0 <= k < |s[n..]| && s[n..][k] == x;
      assert s[n + k] == x;
    }
  }

  /** Sorting keeps exactly the elements it was given. */
  lemma SortByMembers<T>(s: seq<T>, le: (T, T) -> bool)
    ensures forall i :: 0 <= i < |SortBy(s, le)| ==> SortBy(s, le)[i] in s
    ensures forall i :: 0 <= i < |s| ==> s[i] in SortBy(s, le)
  {
    var r := SortBy(s, le);
    forall i | 0 <= i < |r| ensures r[i] in s {
      assert r[i] in multiset(r);
    }
    forall i | 0 <= i < |s| ensures s[i] in r {
      assert s[i] in multiset(s);
    }
  }
}
