/** The median of a list of numbers and how far a minority of its values can move it. */
module Median {
  function Insert(x: real, s: seq<real>): seq<real> {
    if s == [] || x <= s[0] then [x] + s else [s[0]] + Insert(x, s[1..])
  }

  function Sorted(s: seq<real>): (r: seq<real>)
    ensures |r| == |s|
  {
    if s == [] then [] else
      var r := Sorted(s[1..]);
      InsertLength(s[0], r);
      Insert(s[0], r)
  }

  lemma InsertLength(x: real, s: seq<real>)
    ensures |Insert(x, s)| == |s| + 1
  {
  }

  /** statistics.median: the middle value, or the mean of the two middle values. */
  function MedianOf(s: seq<real>): real
    requires s != []
  {
    var r, n := Sorted(s), |s|;
    if n % 2 == 1 then r[n / 2] else (r[n / 2 - 1] + r[n / 2]) / 2.0
  }

  predicate Ascending(s: seq<real>) {
    forall i, j | 0 <= i <= j < |s| :: s[i] <= s[j]
  }

  /** How many values lie in the range. */
  function Inside(s: seq<real>, lo: real, hi: real): (c: nat)
    ensures c <= |s|
  {
    if s == [] then 0 else Inside(s[1..], lo, hi) + if lo <= s[0] <= hi then 1 else 0
  }

  lemma {:induction false} InsertKeeps(x: real, s: seq<real>)
    ensures |Insert(x, s)| == |s| + 1 && multiset(Insert(x, s)) == multiset(s) + multiset{x}
  {
    if s != [] && x > s[0] {
      InsertKeeps(x, s[1..]);
      assert s == [s[0]] + s[1..];
    }
  }

  lemma {:induction false} InsertSorts(x: real, s: seq<real>)
    requires Ascending(s)
    ensures Ascending(Insert(x, s))
  {
    if s != [] && x > s[0] {
      var r := Insert(x, s[1..]);
      InsertSorts(x, s[1..]);
      InsertKeeps(x, s[1..]);
      forall k | 0 <= k < |r| ensures s[0] <= r[k] {
        assert r[k] in multiset(s[1..]) + multiset{x};
        assert r[k] == x || r[k] in s[1..];
      }
    }
  }

  lemma {:induction false} SortedSorts(s: seq<real>)
    ensures Ascending(Sorted(s)) && multiset(Sorted(s)) == multiset(s)
  {
    if s != [] {
      SortedSorts(s[1..]);
      InsertSorts(s[0], Sorted(s[1..]));
      InsertKeeps(s[0], Sorted(s[1..]));
      assert s == [s[0]] + s[1..];
    }
  }

  /** As many values stand before the median as after it; of an even number it is halfway between the two in the
      middle. */
  lemma MedianIsMiddle(s: seq<real>) returns (low: seq<real>, a: real, b: real, high: seq<real>)
    requires s != []
    ensures |s| % 2 == 1 ==> a == b
    ensures var mid := if |s| % 2 == 1 then [a] else [a, b];
      |low| == |high| && multiset(s) == multiset(low + mid + high) && Ascending(low + mid + high)
    ensures MedianOf(s) == (a + b) / 2.0
  {
    hide Sorted, Ascending;
    SortedSorts(s);
    var r, n := Sorted(s), |s|;
    var k := (n - 1) / 2;
    low, a, b, high := r[..k], r[k], r[n - 1 - k], r[n - k..];
    if n % 2 == 1 {
      assert k == n - 1 - k;
      assert r == low + [a] + high;
    } else {
      assert k + 1 == n - 1 - k;
      assert r == low + [a, b] + high;
    }
  }

  lemma {:induction false} InsertInside(x: real, s: seq<real>, lo: real, hi: real)
    ensures Inside(Insert(x, s), lo, hi) == Inside(s, lo, hi) + if lo <= x <= hi then 1 else 0
  {
    if s == [] || x <= s[0] {
      assert ([x] + s)[1..] == s;
    } else {
      InsertInside(x, s[1..], lo, hi);
      assert ([s[0]] + Insert(x, s[1..]))[1..] == Insert(x, s[1..]);
    }
  }

  lemma {:induction false} SortedInside(s: seq<real>, lo: real, hi: real)
    ensures Inside(Sorted(s), lo, hi) == Inside(s, lo, hi)
  {
    if s != [] {
      SortedInside(s[1..], lo, hi);
      InsertInside(s[0], Sorted(s[1..]), lo, hi);
    }
  }

  /** Values above the range from position k on leave at most k inside it. */
  lemma {:induction false} AboveLeaves(s: seq<real>, k: nat, lo: real, hi: real)
    requires k <= |s| && forall i | k <= i < |s| :: s[i] > hi
    ensures Inside(s, lo, hi) <= k
  {
    if s != [] {
      AboveLeaves(s[1..], if k > 0 then k - 1 else 0, lo, hi);
    }
  }

  /** Values below the range up to position k leave at most the rest inside it. */
  lemma {:induction false} BelowLeaves(s: seq<real>, k: nat, lo: real, hi: real)
    requires k <= |s| && forall i | 0 <= i < k :: s[i] < lo
    ensures Inside(s, lo, hi) <= |s| - k
  {
    if k > 0 {
      BelowLeaves(s[1..], k - 1, lo, hi);
    }
  }

  /** If more than half of the values lie in a range, so does the median. */
  lemma MajorityHoldsMedian(s: seq<real>, lo: real, hi: real)
    requires 2 * Inside(s, lo, hi) > |s|
    ensures lo <= MedianOf(s) <= hi
  {
    var r, n := Sorted(s), |s|;
    SortedSorts(s);
    SortedInside(s, lo, hi);
    var low := (n - 1) / 2;
    if r[n / 2] > hi {
      AboveLeaves(r, n / 2, lo, hi);
      assert false;
    }
    if r[low] < lo {
      BelowLeaves(r, low + 1, lo, hi);
      assert false;
    }
    assert lo <= r[low] <= r[n / 2] <= hi;
  }

  /** Otherwise the other values can push the median out of the range. */
  lemma MinorityLosesMedian(good: nat, n: nat, lo: real, hi: real)
    requires 0 < n && 2 * good <= n && lo <= hi
    ensures exists s: seq<real> :: |s| == n && Inside(s, lo, hi) == good && MedianOf(s) > hi
  {
    var s := seq(n, i => if i < good then hi else hi + 1.0);
    StepsInside(s, good, lo, hi);
    assert Ascending(s);
    AscendingIsSorted(s);
    assert MedianOf(s) > hi;
  }

  lemma {:induction false} StepsInside(s: seq<real>, good: nat, lo: real, hi: real)
    requires good <= |s| && lo <= hi && forall i | 0 <= i < |s| :: s[i] == if i < good then hi else hi + 1.0
    ensures Inside(s, lo, hi) == good
  {
    if s != [] {
      StepsInside(s[1..], if good > 0 then good - 1 else 0, lo, hi);
    }
  }

  lemma {:induction false} AscendingIsSorted(s: seq<real>)
    requires Ascending(s)
    ensures Sorted(s) == s
  {
    if s != [] {
      AscendingIsSorted(s[1..]);
      assert s == [s[0]] + s[1..];
      assert |s| > 1 ==> s[0] <= s[1];
    }
  }

  /** For n values of which `good` lie in the range, the median is sure to lie in it exactly when they are more
      than half. */
  lemma MajorityIff(good: nat, n: nat, lo: real, hi: real)
    requires 0 < n && good <= n && lo <= hi
    ensures 2 * good > n <==>
      forall s: seq<real> :: |s| == n && Inside(s, lo, hi) == good ==> lo <= MedianOf(s) <= hi
  {
    if 2 * good > n {
      forall s: seq<real> | |s| == n && Inside(s, lo, hi) == good
        ensures lo <= MedianOf(s) <= hi
      {
        MajorityHoldsMedian(s, lo, hi);
      }
    } else {
      MinorityLosesMedian(good, n, lo, hi);
    }
  }
}
