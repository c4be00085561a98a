/**
 * The part of a listing query that the database performs after filtering:
 * order by one field in one direction, then skip and limit.
 */
module Ordering {
  import opened Wrappers
  import opened Types

  /** The value of the sort field in one document; documents without the field sort first. */
  datatype KeyValue = Missing | Num(n: int)

  predicate KeyLe(a: KeyValue, b: KeyValue) {
    a.Missing? || (b.Num? && a.n <= b.n)
  }

  /** `a` may stand before `b` in a listing ordered in direction `dir`. */
  predicate InOrder(a: KeyValue, b: KeyValue, dir: SortDirection) {
    if dir == Asc then KeyLe(a, b) else KeyLe(b, a)
  }

  predicate Sorted<T>(s: seq<T>, key: T -> KeyValue, dir: SortDirection) {
    forall i, j :: 0 <= i < j < |s| ==> InOrder(key(s[i]), key(s[j]), dir)
  }

  /** Places `x` before the first element it may precede. */
  function Insert<T>(x: T, s: seq<T>, key: T -> KeyValue, dir: SortDirection): (r: seq<T>)
    ensures |r| == |s| + 1
  {
    if s == [] then [x]
    else if InOrder(key(x), key(s[0]), dir) then [x] + s
    else [s[0]] + Insert(x, s[1..], key, dir)
  }

  /** Inserting adds exactly the one element. */
  lemma {:induction false} InsertAdds<T>(x: T, s: seq<T>, key: T -> KeyValue, dir: SortDirection)
    ensures multiset(Insert(x, s, key, dir)) == multiset(s) + multiset{x}
  {
    if s != [] && !InOrder(key(x), key(s[0]), dir) {
      InsertAdds(x, s[1..], key, dir);
      assert s == [s[0]] + s[1..];
    }
  }

  /**
   * Orders `s` by `key` in direction `dir`. Documents with equal keys keep
   * their natural order.
   */
  function SortBy<T>(s: seq<T>, key: T -> KeyValue, dir: SortDirection): (r: seq<T>)
    ensures |r| == |s|
  {
    if s == [] then []
    else Insert(s[0], SortBy(s[1..], key, dir), key, dir)
  }

  /** Sorting is a permutation. */
  lemma {:induction false} SortByPermutes<T>(s: seq<T>, key: T -> KeyValue, dir: SortDirection)
    ensures multiset(SortBy(s, key, dir)) == multiset(s)
  {
    if s != [] {
      SortByPermutes(s[1..], key, dir);
      InsertAdds(s[0], SortBy(s[1..], key, dir), key, dir);
      assert s == [s[0]] + s[1..];
    }
  }

  /** Every element of `r` may follow `a`. */
  predicate PrecedesAll<T>(a: T, r: seq<T>, key: T -> KeyValue, dir: SortDirection) {
    forall k :: 0 <= k < |r| ==> InOrder(key(a), key(r[k]), dir)
  }

  lemma SortedTail<T>(s: seq<T>, key: T -> KeyValue, dir: SortDirection)
    requires s != [] && Sorted(s, key, dir)
    ensures Sorted(s[1..], key, dir) && PrecedesAll(s[0], s[1..], key, dir)
  {
    var tail := s[1..];
    forall i, j | 0 <= i < j < |tail| ensures InOrder(key(tail[i]), key(tail[j]), dir) {
      assert tail[i] == s[i + 1] && tail[j] == s[j + 1];
    }
    forall k | 0 <= k < |tail| ensures InOrder(key(s[0]), key(tail[k]), dir) {
      assert s[k + 1] == tail[k];
    }
  }

  lemma SortedCons<T>(a: T, r: seq<T>, key: T -> KeyValue, dir: SortDirection)
    requires Sorted(r, key, dir) && PrecedesAll(a, r, key, dir)
    ensures Sorted([a] + r, key, dir)
  {
    var out := [a] + r;
    forall i, j | 0 <= i < j < |out| ensures InOrder(key(out[i]), key(out[j]), dir) {
      if i == 0 {
        assert out[j] == r[j - 1];
      } else {
        assert out[i] == r[i - 1] && out[j] == r[j - 1];
      }
    }
  }

  lemma {:induction false} InsertKeepsPrecedes<T>(a: T, x: T, s: seq<T>, key: T -> KeyValue, dir: SortDirection)
    requires PrecedesAll(a, s, key, dir) && InOrder(key(a), key(x), dir)
    ensures PrecedesAll(a, Insert(x, s, key, dir), key, dir)
  {
    if s != [] && !InOrder(key(x), key(s[0]), dir) {
      var tail := s[1..];
      assert PrecedesAll(a, tail, key, dir) by {
        forall k | 0 <= k < |tail| ensures InOrder(key(a), key(tail[k]), dir) {
          assert tail[k] == s[k + 1];
        }
      }
      InsertKeepsPrecedes(a, x, tail, key, dir);
      var r := [s[0]] + Insert(x, tail, key, dir);
      forall k | 0 <= k < |r| ensures InOrder(key(a), key(r[k]), dir) {
        if k > 0 {
          assert r[k] == Insert(x, tail, key, dir)[k - 1];
        }
      }
    }
  }

  lemma {:induction false} InsertSorted<T>(x: T, s: seq<T>, key: T -> KeyValue, dir: SortDirection)
    requires Sorted(s, key, dir)
    ensures Sorted(Insert(x, s, key, dir), key, dir)
  {
    if s == [] {
    } else if InOrder(key(x), key(s[0]), dir) {
      SortedTail(s, key, dir);
      assert s == [s[0]] + s[1..];
      forall k | 0 <= k < |s| ensures InOrder(key(x), key(s[k]), dir) {
        if k > 0 {
          assert s[k] == s[1..][k - 1];
          assert InOrder(key(s[0]), key(s[k]), dir);
        }
      }
      SortedCons(x, s, key, dir);
    } else {
      SortedTail(s, key, dir);
      InsertSorted(x, s[1..], key, dir);
      InsertKeepsPrecedes(s[0], x, s[1..], key, dir);
      SortedCons(s[0], Insert(x, s[1..], key, dir), key, dir);
    }
  }

  lemma {:induction false} SortBySorted<T>(s: seq<T>, key: T -> KeyValue, dir: SortDirection)
    ensures Sorted(SortBy(s, key, dir), key, dir)
  {
    if s != [] {
      SortBySorted(s[1..], key, dir);
      InsertSorted(s[0], SortBy(s[1..], key, dir), key, dir);
    }
  }

  /** When every document has the same key (or lacks the field), the natural order is kept. */
  lemma {:induction false} SortByConstantKey<T>(s: seq<T>, key: T -> KeyValue, dir: SortDirection)
    requires forall i, j :: 0 <= i < |s| && 0 <= j < |s| ==> key(s[i]) == key(s[j])
    ensures SortBy(s, key, dir) == s
  {
    if s != [] {
      var tail := s[1..];
      forall i, j | 0 <= i < |tail| && 0 <= j < |tail| ensures key(tail[i]) == key(tail[j]) {
        assert tail[i] == s[i + 1] && tail[j] == s[j + 1];
      }
      SortByConstantKey(tail, key, dir);
      assert s == [s[0]] + tail;
      if tail != [] {
        assert key(s[0]) == key(tail[0]) by { assert tail[0] == s[1]; }
      }
    }
  }

  function Abs(n: int): nat {
    if n < 0 then -n else n
  }

  /** How many of `n` documents remain after skipping `skip` and keeping at most `|limit|` (0: all). */
  function PageSize(n: nat, skip: nat, limit: int): nat {
    if skip >= n then 0
    else if limit == 0 || Abs(limit) >= n - skip then n - skip
    else Abs(limit)
  }

  /**
   * Skips `skip` documents and keeps at most `|limit|` of the rest; a limit
   * of 0 keeps them all, and a negative skip is a query error.
   */
  function Window<T>(s: seq<T>, skip: int, limit: int): (r: Option<seq<T>>)
    ensures r.None? <==> skip < 0
    ensures r.Some? ==> forall k :: 0 <= k < |r.value| ==> skip + k < |s| && r.value[k] == s[skip + k]
    ensures r.Some? && limit != 0 ==> |r.value| <= Abs(limit)
    ensures r.Some? && skip >= |s| ==> r.value == []
    ensures r.Some? && skip < |s| && (limit == 0 || Abs(limit) >= |s| - skip) ==> |r.value| == |s| - skip
    ensures r.Some? && skip < |s| && limit != 0 && Abs(limit) < |s| - skip ==> |r.value| == Abs(limit)
    ensures r.Some? ==> |r.value| == PageSize(|s|, skip, limit)
  {
    if skip < 0 then None
    else
      var start := if skip < |s| then skip else |s|;
      var available := |s| - start;
      var n := if limit == 0 || Abs(limit) > available then available else Abs(limit);
      Some(s[start..start + n])
  }

  /** A window taken from the start with room for everything is the whole listing. */
  lemma WindowWhole<T>(s: seq<T>, limit: int)
    requires limit == 0 || Abs(limit) >= |s|
    ensures Window(s, 0, limit) == Some(s)
  {
    var r := Window(s, 0, limit).value;
    assert |r| == |s|;
    assert forall k :: 0 <= k < |r| ==> r[k] == s[k];
    assert r == s;
  }

  /** A window of a sorted listing is sorted. */
  lemma WindowSorted<T>(s: seq<T>, skip: int, limit: int, key: T -> KeyValue, dir: SortDirection)
    requires Sorted(s, key, dir)
    requires skip >= 0
    ensures Sorted(Window(s, skip, limit).value, key, dir)
  {
    var r := Window(s, skip, limit).value;
    forall i, j | 0 <= i < j < |r| ensures InOrder(key(r[i]), key(r[j]), dir) {
      assert r[i] == s[skip + i] && r[j] == s[skip + j];
    }
  }

  /**
   * A page of a sorted listing is ordered, holds only elements of the input,
   * and is all of the input when it starts at the beginning and has room.
   */
  lemma SortedPage<T>(s: seq<T>, key: T -> KeyValue, dir: SortDirection, skip: int, limit: int)
    requires skip >= 0
    ensures var items := Window(SortBy(s, key, dir), skip, limit).value;
            && Sorted(items, key, dir)
            && (forall x :: x in items ==> x in s)
            && (skip == 0 && (limit == 0 || Abs(limit) >= |s|) ==> multiset(items) == multiset(s))
  {
    var sorted := SortBy(s, key, dir);
    var items := Window(sorted, skip, limit).value;
    SortBySorted(s, key, dir);
    SortByPermutes(s, key, dir);
    WindowSorted(sorted, skip, limit, key, dir);
    forall x | x in items ensures x in s {
      var k :| 0 <= k < |items| && items[k] == x;
      assert sorted[skip + k] == x;
      assert x in multiset(sorted);
    }
    if skip == 0 && (limit == 0 || Abs(limit) >= |s|) {
      WindowWhole(sorted, limit);
    }
  }
}
