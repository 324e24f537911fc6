/** Ranking of exact weights: how many entries lie strictly above or at
    least at a value, and the k-th largest entry, which the engine takes as
    its cutoff (divisor sorts the weights and indexes the sorted list).
    The k-th largest value m of s is characterised by counting:
    fewer than k entries are above m and at least k are at least m. */
module Ranking {
  import opened Common

  /** Number of entries strictly greater than x. */
  function CountAbove(s: seq<real>, x: real): nat
  {
    if s == [] then 0 else (if s[0] > x then 1 else 0) + CountAbove(s[1..], x)
  }

  /** Number of entries greater than or equal to x. */
  function CountAtLeast(s: seq<real>, x: real): nat
  {
    if s == [] then 0 else (if s[0] >= x then 1 else 0) + CountAtLeast(s[1..], x)
  }

  /** Number of entries equal to x. */
  function CountEq(s: seq<real>, x: real): nat
  {
    if s == [] then 0 else (if s[0] == x then 1 else 0) + CountEq(s[1..], x)
  }

  /** The value m is a k-th largest entry of s. */
  ghost predicate IsKthLargest(s: seq<real>, k: nat, m: real)
  {
    CountAbove(s, m) < k <= CountAtLeast(s, m)
  }

  /** Votes as exact rationals. */
  function AsReals(votes: seq<nat>): (r: seq<real>)
    ensures |r| == |votes|
    ensures forall i :: 0 <= i < |votes| ==> r[i] == votes[i] as real
  {
    seq(|votes|, i requires 0 <= i < |votes| => votes[i] as real)
  }

  /** The flags "entry i is at least c". */
  function AtLeastMask(s: seq<real>, c: real): (b: seq<bool>)
    ensures |b| == |s|
  {
    seq(|s|, i requires 0 <= i < |s| => s[i] >= c)
  }

  function Max(s: seq<real>): (m: real)
    requires s != []
    ensures m in s
    ensures forall i :: 0 <= i < |s| ==> s[i] <= m
  {
    if |s| == 1 then s[0]
    else
      var m := Max(s[1..]);
      assert forall i :: 1 <= i < |s| ==> s[i] == s[1..][i - 1];
      if s[0] > m then s[0] else m
  }

  /** The entries strictly below x, in order. */
  function Below(s: seq<real>, x: real): (t: seq<real>)
    ensures |t| + CountAtLeast(s, x) == |s|
    ensures forall y :: y in t ==> y < x && y in s
  {
    if s == [] then []
    else
      var t := Below(s[1..], x);
      assert forall y :: y in s[1..] ==> y in s;
      (if s[0] < x then [s[0]] else []) + t
  }

  /** Counting distributes over concatenation. */
  lemma {:induction false} CountConcat(a: seq<real>, b: seq<real>, x: real)
    ensures CountAbove(a + b, x) == CountAbove(a, x) + CountAbove(b, x)
    ensures CountAtLeast(a + b, x) == CountAtLeast(a, x) + CountAtLeast(b, x)
    ensures CountEq(a + b, x) == CountEq(a, x) + CountEq(b, x)
  {
    if a == [] {
      assert a + b == b;
    } else {
      CountConcat(a[1..], b, x);
      assert (a + b)[1..] == a[1..] + b;
    }
  }

  /** At least = above + equal. */
  lemma {:induction false} AtLeastSplit(s: seq<real>, x: real)
    ensures CountAtLeast(s, x) == CountAbove(s, x) + CountEq(s, x)
  {
    if s != [] { AtLeastSplit(s[1..], x); }
  }

  lemma {:induction false} CountsBounded(s: seq<real>, x: real)
    ensures CountAbove(s, x) <= CountAtLeast(s, x) <= |s|
  {
    if s != [] { CountsBounded(s[1..], x); }
  }

  /** Every entry of s is at least x exactly when every entry counts. */
  lemma {:induction false} AllAbove(s: seq<real>, x: real)
    requires forall i :: 0 <= i < |s| ==> s[i] > x
    ensures CountAbove(s, x) == |s| && CountAtLeast(s, x) == |s|
  {
    if s != [] { AllAbove(s[1..], x); }
  }

  lemma {:induction false} NoneAtLeast(s: seq<real>, x: real)
    requires forall i :: 0 <= i < |s| ==> s[i] < x
    ensures CountAbove(s, x) == 0 && CountAtLeast(s, x) == 0 && x !in s
  {
    if s != [] { NoneAtLeast(s[1..], x); }
  }

  /** A value that occurs in s is counted as "at least" itself. */
  lemma {:induction false} OccursCounted(s: seq<real>, x: real)
    requires x in s
    ensures CountAtLeast(s, x) >= 1 && CountEq(s, x) >= 1
  {
    if s[0] != x {
      assert x in s[1..] by { var i :| 0 <= i < |s| && s[i] == x; assert s[1..][i - 1] == x; }
      OccursCounted(s[1..], x);
    }
  }

  /** Raising the bar never counts more entries. */
  lemma {:induction false} CountAntitone(s: seq<real>, x: real, y: real)
    requires x <= y
    ensures CountAbove(s, y) <= CountAbove(s, x)
    ensures CountAtLeast(s, y) <= CountAtLeast(s, x)
    ensures x < y ==> CountAtLeast(s, y) <= CountAbove(s, x)
  {
    if s != [] { CountAntitone(s[1..], x, y); }
  }

  /** Removing the entries at least x removes them from every count below x. */
  lemma {:induction false} BelowCounts(s: seq<real>, x: real, y: real)
    requires y < x
    ensures CountAbove(s, y) == CountAbove(Below(s, x), y) + CountAtLeast(s, x)
    ensures CountAtLeast(s, y) == CountAtLeast(Below(s, x), y) + CountAtLeast(s, x)
  {
    if s != [] {
      BelowCounts(s[1..], x, y);
      var t := Below(s[1..], x);
      if s[0] < x {
        assert ([s[0]] + t)[0] == s[0] && ([s[0]] + t)[1..] == t;
      } else {
        assert Below(s, x) == t;
      }
    }
  }

  /** The k-th largest entry of s: the maximum when it occurs at least k
      times, otherwise the (k - c)-th largest of the entries below it. */
  function KthLargest(s: seq<real>, k: nat): (m: real)
    requires 1 <= k <= |s|
    ensures m in s
    ensures CountAbove(s, m) < k <= CountAtLeast(s, m)
    decreases |s|
  {
    var top := Max(s);
    var c := CountAtLeast(s, top);
    OccursCounted(s, top);
    if k <= c then
      CountAntitoneAbove(s, top);
      top
    else
      var m := KthLargest(Below(s, top), k - c);
      BelowCounts(s, top, m);
      m
  }

  /** No entry lies above the maximum. */
  lemma {:induction false} CountAntitoneAbove(s: seq<real>, top: real)
    requires forall i :: 0 <= i < |s| ==> s[i] <= top
    ensures CountAbove(s, top) == 0
  {
    if s != [] { CountAntitoneAbove(s[1..], top); }
  }

  /** The counting characterisation determines the k-th largest value. */
  lemma KthLargestUnique(s: seq<real>, k: nat, m: real)
    requires 1 <= k <= |s|
    requires IsKthLargest(s, k, m)
    ensures m == KthLargest(s, k)
  {
    var r := KthLargest(s, k);
    if m < r {
      CountAntitone(s, m, r);
    } else if r < m {
      CountAntitone(s, r, m);
    }
  }

  /** The flags "at least c" are as many as the entries at least c. */
  lemma {:induction false} CountAtLeastMask(s: seq<real>, c: real, b: seq<bool>)
    requires |b| == |s|
    requires forall i :: 0 <= i < |s| ==> b[i] == (s[i] >= c)
    ensures CountTrue(b) == CountAtLeast(s, c)
  {
    if s != [] {
      CountAtLeastMask(s[1..], c, b[1..]);
    }
  }

  /** Entries of a list without repetitions occur at most once. */
  lemma {:induction false} DistinctCountEq(s: seq<real>, x: real)
    requires forall i, j :: 0 <= i < j < |s| ==> s[i] != s[j]
    ensures CountEq(s, x) == if x in s then 1 else 0
  {
    if s != [] {
      DistinctCountEq(s[1..], x);
      if s[0] == x {
        assert x !in s[1..];
      } else {
        assert x in s <==> x in s[1..] by {
          assert s == [s[0]] + s[1..];
        }
      }
    }
  }
}
