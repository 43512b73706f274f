/** Integer runs and ordered page sets: the `range`, `set` and `sorted` building blocks
    that the pagination bar is assembled from. */
module Runs {

  function Max(x: int, y: int): int { if x < y then y else x }

  function Min(x: int, y: int): int { if x < y then x else y }

  /** Python's `range(lo, hi)`: the integers from `lo` up to, but excluding, `hi`. */
  function Range(lo: int, hi: int): (r: seq<int>)
    ensures |r| == if hi <= lo then 0 else hi - lo
    ensures forall i :: 0 <= i < |r| ==> r[i] == lo + i
    ensures forall p :: p in r <==> lo <= p < hi
    decreases hi - lo
  {
    if hi <= lo then [] else [lo] + Range(lo + 1, hi)
  }

  /** A run of consecutive integers, each one greater than the one before it. */
  predicate IsRun(s: seq<int>)
  {
    forall i :: 0 < i < |s| ==> s[i] == s[0] + i
  }

  /** Strictly ascending: sorted and free of duplicates. */
  predicate StrictlyAscending(s: seq<int>)
  {
    forall i, j :: 0 <= i < j < |s| ==> s[i] < s[j]
  }

  /** Adds `x` to a strictly ascending sequence, keeping it strictly ascending
      (nothing is added when `x` is already there). */
  function Insert(s: seq<int>, x: int): (r: seq<int>)
    requires StrictlyAscending(s)
    ensures StrictlyAscending(r)
    ensures forall y :: y in r <==> y in s || y == x
    ensures |s| > 0 && s[0] < x ==> |r| > 0 && r[0] == s[0]
  {
    if s == [] then [x]
    else if x < s[0] then [x] + s
    else if x == s[0] then s
    else
      var rest := Insert(s[1..], x);
      assert forall y :: y in rest ==> s[0] < y;
      [s[0]] + rest
  }

  /** Python's `sorted(set(xs))`: the distinct values of `xs` in ascending order. */
  function SortedUnique(xs: seq<int>): (r: seq<int>)
    ensures StrictlyAscending(r)
    ensures forall y :: y in r <==> y in xs
    decreases |xs|
  {
    if xs == [] then []
    else
      var n := |xs| - 1;
      assert xs == xs[..n] + [xs[n]];
      Insert(SortedUnique(xs[..n]), xs[n])
  }

  /** A strictly ascending sequence is determined by the values it holds, so
      `SortedUnique` gives the same answer as any other way of sorting a set. */
  lemma {:induction false} AscendingUnique(s: seq<int>, t: seq<int>)
    requires StrictlyAscending(s) && StrictlyAscending(t)
    requires forall y :: y in s <==> y in t
    ensures s == t
    decreases |s|
  {
    if s == [] {
      assert forall i :: 0 <= i < |t| ==> t[i] in s;
    } else {
      assert s[0] in s;
      assert t != [];
      assert t[0] in t;
      assert s[0] == t[0] by {
        var j :| 0 <= j < |t| && t[j] == s[0];
        var k :| 0 <= k < |s| && s[k] == t[0];
        assert t[0] <= t[j];
        assert s[0] <= s[k];
      }
      forall y ensures y in s[1..] <==> y in t[1..] {
        AscendingTail(s, y);
        AscendingTail(t, y);
      }
      AscendingUnique(s[1..], t[1..]);
      assert s == [s[0]] + s[1..];
      assert t == [t[0]] + t[1..];
    }
  }

  /** The tail of a strictly ascending sequence holds everything but its head. */
  lemma AscendingTail(s: seq<int>, y: int)
    requires StrictlyAscending(s) && |s| > 0
    ensures y in s[1..] <==> y in s && y != s[0]
  {
    if y in s && y != s[0] {
      var k :| 0 <= k < |s| && s[k] == y;
      assert s[1..][k - 1] == y;
    }
  }

  /** A strictly ascending sequence starts at its least value and ends at its greatest. */
  lemma AscendingEnds(s: seq<int>, lo: int, hi: int)
    requires StrictlyAscending(s)
    requires lo in s && hi in s && forall p :: p in s ==> lo <= p <= hi
    ensures |s| > 0 && s[0] == lo && s[|s| - 1] == hi
  {
    var j :| 0 <= j < |s| && s[j] == lo;
    var k :| 0 <= k < |s| && s[k] == hi;
    assert s[0] in s && s[|s| - 1] in s;
    assert s[0] <= s[j] && s[k] <= s[|s| - 1];
  }

  /** A `Range` is a strictly ascending run. */
  lemma RangeIsRun(lo: int, hi: int)
    ensures StrictlyAscending(Range(lo, hi)) && IsRun(Range(lo, hi))
  {
  }
}
