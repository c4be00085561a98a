/**
 * The two query shapes the database offers the service: `findOne(filter)`,
 * which yields the first matching document in natural (insertion) order,
 * and `find(filter)`, which yields every matching document in that order.
 */
module Collections {
  import opened Wrappers

  /** Position of the first element satisfying `p`, if any. */
  function FirstIndex<T>(s: seq<T>, p: T -> bool): (r: Option<nat>)
    ensures r.Some? ==> r.value < |s| && p(s[r.value])
    ensures r.Some? ==> forall j :: 0 <= j < r.value ==> !p(s[j])
    ensures r.None? ==> forall j :: 0 <= j < |s| ==> !p(s[j])
  {
    if s == [] then None
    else if p(s[0]) then Some(0)
    else
      match FirstIndex(s[1..], p)
      case None => None
      case Some(k) => Some(k + 1)
  }

  /** `findOne`: the first element satisfying `p`, if any. */
  function FindOne<T>(s: seq<T>, p: T -> bool): (r: Option<T>)
    ensures r.Some? ==> r.value in s && p(r.value)
    ensures r.None? <==> forall x :: x in s ==> !p(x)
  {
    match FirstIndex(s, p)
    case None => None
    case Some(i) => Some(s[i])
  }

  /** `find`: every element satisfying `p`, in their original order. */
  function Filter<T(!new)>(s: seq<T>, p: T -> bool): (r: seq<T>)
    ensures |r| <= |s|
    ensures forall x :: x in r <==> x in s && p(x)
  {
    if s == [] then []
    else
      var rest := Filter(s[1..], p);
      if p(s[0]) then [s[0]] + rest else rest
  }

  /** `r` is `s` read at the strictly increasing positions `ix`: a subsequence in stored order. */
  ghost predicate SubsequenceAt<T>(r: seq<T>, s: seq<T>, ix: seq<nat>) {
    && |ix| == |r|
    && (forall k :: 0 <= k < |ix| ==> ix[k] < |s| && r[k] == s[ix[k]])
    && (forall k, l :: 0 <= k < l < |ix| ==> ix[k] < ix[l])
  }

  /** The positions, from `from` on, of the elements of `s` satisfying `p`, in increasing order. */
  function MatchPositions<T>(s: seq<T>, p: T -> bool, from: nat): (ix: seq<nat>)
    requires from <= |s|
    ensures forall k :: 0 <= k < |ix| ==> from <= ix[k] < |s| && p(s[ix[k]])
    ensures forall k, l :: 0 <= k < l < |ix| ==> ix[k] < ix[l]
    decreases |s| - from
  {
    if from == |s| then []
    else
      var rest := MatchPositions(s, p, from + 1);
      if p(s[from]) then [from] + rest else rest
  }

  /** One step of `Filter` on a suffix: the first element is kept exactly when it passes. */
  lemma FilterStep<T(!new)>(s: seq<T>, p: T -> bool, from: nat)
    requires from < |s|
    ensures Filter(s[from..], p) == (if p(s[from]) then [s[from]] else []) + Filter(s[from + 1..], p)
  {
    assert s[from..][1..] == s[from + 1..];
  }

  /** Reading `s` at `i` and then at `ix` lists `s[i]` and then what `ix` lists. */
  lemma PrependAt<T>(r: seq<T>, ix: seq<nat>, s: seq<T>, i: nat)
    requires |r| == |ix| && i < |s|
    requires forall k :: 0 <= k < |ix| ==> ix[k] < |s| && r[k] == s[ix[k]]
    ensures forall k :: 0 <= k < |ix| + 1 ==> ([s[i]] + r)[k] == s[([i] + ix)[k]]
  {
    forall k | 1 <= k < |ix| + 1 ensures ([s[i]] + r)[k] == s[([i] + ix)[k]] {
      assert ([s[i]] + r)[k] == r[k - 1] && ([i] + ix)[k] == ix[k - 1];
    }
  }

  lemma {:induction false} FilterFrom<T(!new)>(s: seq<T>, p: T -> bool, from: nat)
    requires from <= |s|
    ensures |Filter(s[from..], p)| == |MatchPositions(s, p, from)|
    ensures forall k :: 0 <= k < |Filter(s[from..], p)| ==>
              Filter(s[from..], p)[k] == s[MatchPositions(s, p, from)[k]]
    decreases |s| - from
  {
    if from < |s| {
      FilterFrom(s, p, from + 1);
      FilterStep(s, p, from);
      if p(s[from]) {
        PrependAt(Filter(s[from + 1..], p), MatchPositions(s, p, from + 1), s, from);
      } else {
        assert [] + Filter(s[from + 1..], p) == Filter(s[from + 1..], p);
      }
    }
  }

  /**
   * `find` keeps stored order: the result is the input read at the
   * positions of its matching elements, in increasing order.
   */
  lemma FilterKeepsOrder<T(!new)>(s: seq<T>, p: T -> bool)
    ensures SubsequenceAt(Filter(s, p), s, MatchPositions(s, p, 0))
  {
    FilterFrom(s, p, 0);
    assert s[0..] == s;
  }

  /** Filtering keeps every passing element as often as it occurs, and drops the rest. */
  lemma {:induction false} FilterCount<T(!new)>(s: seq<T>, p: T -> bool)
    ensures forall x :: multiset(Filter(s, p))[x] == if p(x) then multiset(s)[x] else 0
  {
    if s != [] {
      FilterCount(s[1..], p);
      assert s == [s[0]] + s[1..];
    }
  }

  /** Appending an element adds it to the end of the filtered listing exactly when it passes. */
  lemma {:induction false} FilterAppend<T(!new)>(s: seq<T>, x: T, p: T -> bool)
    ensures Filter(s + [x], p) == Filter(s, p) + (if p(x) then [x] else [])
  {
    if s == [] {
      assert [] + [x] == [x];
    } else {
      FilterAppend(s[1..], x, p);
      assert (s + [x])[1..] == s[1..] + [x];
    }
  }
}
