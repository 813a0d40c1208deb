/**
 * Kotlin's `sortedBy`, `sortedByDescending` and `sortedWith` are stable sorts.
 * They are modelled by one insertion sort parameterised by `le`, where
 * `le(a, b)` means "a may come before b". An element is inserted in front of
 * the first element it may precede, so equal keys keep their input order.
 */
module Sorting {
  import Lists

  ghost predicate Total<T(!new)>(le: (T, T) -> bool) {
    forall a, b :: le(a, b) || le(b, a)
  }

  ghost predicate Transitive<T(!new)>(le: (T, T) -> bool) {
    forall a, b, c :: le(a, b) && le(b, c) ==> le(a, c)
  }

  /** The orders a comparator-based sort accepts. */
  ghost predicate TotalPreorder<T(!new)>(le: (T, T) -> bool) {
    Total(le) && Transitive(le)
  }

  ghost predicate SortedBy<T>(s: seq<T>, le: (T, T) -> bool) {
    forall i, j :: 0 <= i < j < |s| ==> le(s[i], s[j])
  }

  /** Inserts `x` in front of the first element it may precede. */
  function Insert<T>(x: T, s: seq<T>, le: (T, T) -> bool): (r: seq<T>)
    ensures |r| == |s| + 1
    ensures multiset(r) == multiset(s) + multiset{x}
  {
    if |s| == 0 then [x]
    else if le(x, s[0]) then [x] + s
    else
      assert s == [s[0]] + s[1..];
      [s[0]] + Insert(x, s[1..], le)
  }

  /** The stable sort: a permutation of its input. */
  function SortBy<T>(s: seq<T>, le: (T, T) -> bool): (r: seq<T>)
    ensures |r| == |s|
    ensures multiset(r) == multiset(s)
  {
    if |s| == 0 then []
    else
      assert s == [s[0]] + s[1..];
      Insert(s[0], SortBy(s[1..], le), le)
  }

  /** Inserting adds exactly one element to every count. */
  lemma {:induction false} CountInsert<T>(x: T, s: seq<T>, le: (T, T) -> bool, p: T -> bool)
    ensures Lists.Count(Insert(x, s, le), p) == Lists.Count(s, p) + (if p(x) then 1 else 0)
  {
    if |s| == 0 {
    } else if le(x, s[0]) {
      assert ([x] + s)[1..] == s;
    } else {
      CountInsert(x, s[1..], le, p);
      assert ([s[0]] + Insert(x, s[1..], le))[1..] == Insert(x, s[1..], le);
    }
  }

  /** Sorting preserves every count. */
  lemma {:induction false} CountSortBy<T>(s: seq<T>, le: (T, T) -> bool, p: T -> bool)
    ensures Lists.Count(SortBy(s, le), p) == Lists.Count(s, p)
  {
    if |s| > 0 {
      CountSortBy(s[1..], le, p);
      CountInsert(s[0], SortBy(s[1..], le), le, p);
    }
  }

  lemma {:induction false} InsertSorted<T(!new)>(x: T, s: seq<T>, le: (T, T) -> bool)
    requires TotalPreorder(le)
    requires SortedBy(s, le)
    ensures SortedBy(Insert(x, s, le), le)
  {
    if |s| == 0 {
    } else if le(x, s[0]) {
      var r := [x] + s;
      forall i, j | 0 <= i < j < |r| ensures le(r[i], r[j]) {
        if i == 0 && j > 1 {
          assert le(s[0], s[j - 1]);
        }
      }
    } else {
      assert le(s[0], x);
      var tail := Insert(x, s[1..], le);
      InsertSorted(x, s[1..], le);
      var r := [s[0]] + tail;
      forall j | 0 <= j < |tail| ensures le(s[0], tail[j]) {
        assert tail[j] in multiset(tail);
        assert tail[j] in multiset(s[1..]) + multiset{x};
        if tail[j] != x {
          assert tail[j] in s[1..];
          var k :| 0 <= k < |s[1..]| && s[1..][k] == tail[j];
          assert le(s[0], s[k + 1]);
        }
      }
      forall i, j | 0 <= i < j < |r| ensures le(r[i], r[j]) {
        if i == 0 {
          assert r[j] == tail[j - 1];
        } else {
          assert r[i] == tail[i - 1] && r[j] == tail[j - 1];
        }
      }
    }
  }

  /** The result of SortBy is ordered by `le`. */
  lemma {:induction false} SortBySorted<T(!new)>(s: seq<T>, le: (T, T) -> bool)
    requires TotalPreorder(le)
    ensures SortedBy(SortBy(s, le), le)
  {
    if |s| > 0 {
      SortBySorted(s[1..], le);
      InsertSorted(s[0], SortBy(s[1..], le), le);
    }
  }

  /** Membership is preserved by sorting. */
  lemma SortByMembers<T>(s: seq<T>, le: (T, T) -> bool)
    ensures forall x :: x in SortBy(s, le) <==> x in s
  {
    var r := SortBy(s, le);
    forall x ensures x in r <==> x in s {
      assert x in r <==> x in multiset(r);
      assert x in s <==> x in multiset(s);
    }
  }

  /** The elements `le` cannot tell apart from `x`. */
  function Ties<T>(le: (T, T) -> bool, x: T): T -> bool {
    y => le(x, y) && le(y, x)
  }

  /** An element that fails `keep` leaves the filtered list unchanged wherever it is inserted. */
  lemma {:induction false} FilterInsertOther<T>(x: T, s: seq<T>, le: (T, T) -> bool, keep: T -> bool)
    requires !keep(x)
    ensures Lists.Filter(Insert(x, s, le), keep) == Lists.Filter(s, keep)
  {
    if |s| == 0 {
      Lists.FilterCons(x, [], keep);
    } else if le(x, s[0]) {
      Lists.FilterCons(x, s, keep);
    } else {
      var tail := Insert(x, s[1..], le);
      assert Insert(x, s, le) == [s[0]] + tail;
      FilterInsertOther(x, s[1..], le, keep);
      Lists.FilterCons(s[0], tail, keep);
    }
  }

  /**
   * An element that passes `keep` and may precede every element that passes
   * lands in front of all of them.
   */
  lemma {:induction false} FilterInsertFirst<T>(x: T, s: seq<T>, le: (T, T) -> bool, keep: T -> bool)
    requires keep(x)
    requires forall y :: keep(y) ==> le(x, y)
    ensures Lists.Filter(Insert(x, s, le), keep) == [x] + Lists.Filter(s, keep)
  {
    if |s| == 0 {
      Lists.FilterCons(x, [], keep);
    } else if le(x, s[0]) {
      Lists.FilterCons(x, s, keep);
    } else {
      assert !keep(s[0]);
      var tail := Insert(x, s[1..], le);
      assert Insert(x, s, le) == [s[0]] + tail;
      FilterInsertFirst(x, s[1..], le, keep);
      Lists.FilterCons(s[0], tail, keep);
    }
  }

  /**
   * Stability: the elements tied with any `x` appear in the sorted output in
   * the order they had in the input.
   */
  lemma {:induction false} SortByStable<T(!new)>(s: seq<T>, le: (T, T) -> bool, x: T)
    requires TotalPreorder(le)
    ensures Lists.Filter(SortBy(s, le), Ties(le, x)) == Lists.Filter(s, Ties(le, x))
  {
    if |s| > 0 {
      var tie := Ties(le, x);
      SortByStable(s[1..], le, x);
      Lists.FilterCons(s[0], s[1..], tie);
      assert [s[0]] + s[1..] == s;
      if tie(s[0]) {
        forall y | tie(y) ensures le(s[0], y) {
          assert le(s[0], x) && le(x, y);
        }
        FilterInsertFirst(s[0], SortBy(s[1..], le), le, tie);
      } else {
        FilterInsertOther(s[0], SortBy(s[1..], le), le, tie);
      }
    }
  }

  /** Stability for every tie class at once. */
  lemma SortByStableAll<T(!new)>(s: seq<T>, le: (T, T) -> bool)
    requires TotalPreorder(le)
    ensures forall x :: Lists.Filter(SortBy(s, le), Ties(le, x)) == Lists.Filter(s, Ties(le, x))
  {
    forall x ensures Lists.Filter(SortBy(s, le), Ties(le, x)) == Lists.Filter(s, Ties(le, x)) {
      SortByStable(s, le, x);
    }
  }
}
