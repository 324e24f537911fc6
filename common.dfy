/** Shared vocabulary of the apportionment engine: the outcome of a
    computation, sums of vote and seat vectors, exact quotas with their floor
    and ceiling, and the "first k in list order" rule that every tie-break of
    the engine follows. */
module Common {

  /** What a computation returns: an allocation (one entry per party, in the
      order of the vote vector), or one of the errors the engine raises. */
  datatype Outcome =
    | Allocated(seats: seq<nat>)
    | TieRejected     // TiesException: a tie occurred and ties are not allowed
    | Unsupported     // NotImplementedError: tiesallowed=False for the quota method
    | UnknownMethod   // NotImplementedError: the method name is not known

  datatype Option<T> = None | Some(value: T)

  function Min(a: nat, b: nat): nat { if a <= b then a else b }

  /** Sum of a vote or seat vector, first entry first. */
  function Sum(s: seq<nat>): nat
  {
    if s == [] then 0 else s[0] + Sum(s[1..])
  }

  /** Largest integer not above x. */
  function Floor(x: real): (r: int)
    ensures r as real <= x < r as real + 1.0
  {
    x.Floor
  }

  /** Smallest integer not below x. */
  function Ceil(x: real): (r: int)
    ensures r as real - 1.0 < x <= r as real
  {
    if x == x.Floor as real then x.Floor else x.Floor + 1
  }

  /** Exact proportional share v * seats / total of party i (the Hare quota
      of the party, and the quota the validator and the quota method use). */
  function Entitlement(votes: seq<nat>, seats: nat, i: nat): (q: real)
    requires Sum(votes) > 0 && i < |votes|
    ensures q >= 0.0
  {
    (votes[i] * seats) as real / Sum(votes) as real
  }

  /** Number of true flags. */
  function CountTrue(b: seq<bool>): nat
  {
    if b == [] then 0 else (if b[0] then 1 else 0) + CountTrue(b[1..])
  }

  /** The tie-break rule shared by every engine: walking the parties in list
      order with k seats to hand out, every flagged party takes one while any
      are left. */
  function FirstInOrder(holds: seq<bool>, k: nat): (picks: seq<bool>)
    ensures |picks| == |holds|
  {
    if holds == [] then []
    else if holds[0] && k > 0 then [true] + FirstInOrder(holds[1..], k - 1)
    else [false] + FirstInOrder(holds[1..], k)
  }

  /** base with one more seat for every picked party. */
  function AddOnes(base: seq<nat>, picks: seq<bool>): (r: seq<nat>)
    requires |picks| == |base|
    ensures |r| == |base|
  {
    seq(|base|, i requires 0 <= i < |base| => base[i] + if picks[i] then 1 else 0)
  }

  /** A vector of zeros. */
  function Zeros(n: nat): (z: seq<nat>)
    ensures |z| == n && forall i :: 0 <= i < n ==> z[i] == 0
  {
    seq(n, i => 0)
  }

  lemma {:induction false} SumAppend(s: seq<nat>, x: nat)
    ensures Sum(s + [x]) == Sum(s) + x
  {
    if s != [] {
      assert (s + [x])[1..] == s[1..] + [x];
      SumAppend(s[1..], x);
    }
  }

  lemma {:induction false} CountTrueAppend(b: seq<bool>, x: bool)
    ensures CountTrue(b + [x]) == CountTrue(b) + if x then 1 else 0
  {
    if b != [] {
      assert (b + [x])[1..] == b[1..] + [x];
      CountTrueAppend(b[1..], x);
    }
  }

  /** Sum is additive entry by entry. */
  lemma {:induction false} SumAdd(a: seq<nat>, b: seq<nat>, c: seq<nat>)
    requires |a| == |b| == |c|
    requires forall i :: 0 <= i < |c| ==> c[i] == a[i] + b[i]
    ensures Sum(c) == Sum(a) + Sum(b)
  {
    if c != [] {
      SumAdd(a[1..], b[1..], c[1..]);
    }
  }

  /** A vector of zeros and ones sums to the number of its ones. */
  lemma {:induction false} SumOfFlags(s: seq<nat>, b: seq<bool>)
    requires |s| == |b|
    requires forall i :: 0 <= i < |s| ==> s[i] == if b[i] then 1 else 0
    ensures Sum(s) == CountTrue(b)
  {
    if s != [] {
      SumOfFlags(s[1..], b[1..]);
    }
  }

  lemma {:induction false} CountTrueBound(b: seq<bool>)
    ensures CountTrue(b) <= |b|
  {
    if b != [] { CountTrueBound(b[1..]); }
  }

  /** Counting flags over a longer prefix never gives fewer. */
  lemma {:induction false} CountTruePrefix(b: seq<bool>, i: nat, j: nat)
    requires i <= j <= |b|
    ensures CountTrue(b[..i]) <= CountTrue(b[..j])
  {
    if i < j {
      CountTruePrefix(b, i, j - 1);
      assert b[..j] == b[..j - 1] + [b[j - 1]];
      CountTrueAppend(b[..j - 1], b[j - 1]);
    }
  }

  /** Party i is picked exactly when it is flagged and fewer than k flagged
      parties precede it. */
  lemma {:induction false} FirstInOrderAt(holds: seq<bool>, k: nat, i: nat)
    requires i < |holds|
    ensures FirstInOrder(holds, k)[i] == (holds[i] && CountTrue(holds[..i]) < k)
  {
    if i > 0 {
      var k' := if holds[0] && k > 0 then k - 1 else k;
      FirstInOrderAt(holds[1..], k', i - 1);
      assert holds[..i][1..] == holds[1..][..i - 1];
    }
  }

  /** FirstInOrder picks exactly min(k, number flagged) parties. */
  lemma {:induction false} FirstInOrderCount(holds: seq<bool>, k: nat)
    ensures CountTrue(FirstInOrder(holds, k)) == Min(k, CountTrue(holds))
  {
    if holds != [] {
      var k' := if holds[0] && k > 0 then k - 1 else k;
      FirstInOrderCount(holds[1..], k');
    }
  }

  /** After the first i parties, FirstInOrder has picked min(k, flagged so far). */
  lemma FirstInOrderPrefix(holds: seq<bool>, k: nat, i: nat)
    requires i <= |holds|
    ensures CountTrue(FirstInOrder(holds, k)[..i]) == Min(k, CountTrue(holds[..i]))
  {
    var picks := FirstInOrder(holds, k);
    forall j | 0 <= j < i
      ensures picks[..i][j] == FirstInOrder(holds[..i], k)[j]
    {
      FirstInOrderAt(holds, k, j);
      FirstInOrderAt(holds[..i], k, j);
      assert holds[..i][..j] == holds[..j];
    }
    assert picks[..i] == FirstInOrder(holds[..i], k);
    FirstInOrderCount(holds[..i], k);
  }

  /** What one step of a pass in list order knows about party i. */
  lemma PassStep(holds: seq<bool>, k: nat, i: nat)
    requires i < |holds|
    ensures FirstInOrder(holds, k)[i] == (holds[i] && CountTrue(holds[..i]) < k)
    ensures CountTrue(holds[..i + 1]) == CountTrue(holds[..i]) + if holds[i] then 1 else 0
  {
    FirstInOrderAt(holds, k, i);
    assert holds[..i + 1] == holds[..i] + [holds[i]];
    CountTrueAppend(holds[..i], holds[i]);
  }

  /** Ties are broken in list order: a flagged party that is passed over is
      never followed by a picked one. */
  lemma FirstInOrderEarlierWins(holds: seq<bool>, k: nat, i: nat, j: nat)
    requires i < j < |holds|
    requires holds[i] && FirstInOrder(holds, k)[j]
    ensures FirstInOrder(holds, k)[i]
  {
    FirstInOrderAt(holds, k, i);
    FirstInOrderAt(holds, k, j);
    CountTruePrefix(holds, i + 1, j);
    assert holds[..i + 1] == holds[..i] + [holds[i]];
    CountTrueAppend(holds[..i], holds[i]);
  }

  /** Adding the picks adds their count to the sum. */
  lemma SumAddOnes(base: seq<nat>, picks: seq<bool>)
    requires |picks| == |base|
    ensures Sum(AddOnes(base, picks)) == Sum(base) + CountTrue(picks)
  {
    var ones := seq(|base|, i requires 0 <= i < |base| => if picks[i] then 1 else 0);
    SumOfFlags(ones, picks);
    SumAdd(base, ones, AddOnes(base, picks));
  }

  lemma {:induction false} SumOfZeros(s: seq<nat>)
    requires forall i :: 0 <= i < |s| ==> s[i] == 0
    ensures Sum(s) == 0
  {
    if s != [] { SumOfZeros(s[1..]); }
  }

  /** Vectors with entries at most one sum to at most their length. */
  lemma {:induction false} SumOfSmall(s: seq<nat>)
    requires forall i :: 0 <= i < |s| ==> s[i] <= 1
    ensures Sum(s) <= |s|
  {
    if s != [] { SumOfSmall(s[1..]); }
  }

  /** Some party of a vector with a positive sum has a positive entry. */
  lemma {:induction false} PositiveEntry(s: seq<nat>) returns (p: nat)
    requires Sum(s) > 0
    ensures p < |s| && s[p] > 0
  {
    if s[0] > 0 {
      p := 0;
    } else {
      p := PositiveEntry(s[1..]);
      p := p + 1;
    }
  }

  /** The sum of pointwise smaller vector is smaller. */
  lemma {:induction false} SumMonotone(a: seq<nat>, b: seq<nat>)
    requires |a| == |b|
    requires forall i :: 0 <= i < |a| ==> a[i] <= b[i]
    ensures Sum(a) <= Sum(b)
  {
    if a != [] { SumMonotone(a[1..], b[1..]); }
  }

  /** Sum after one entry changes. */
  lemma {:induction false} SumUpdate(s: seq<nat>, i: nat, x: nat)
    requires i < |s|
    ensures Sum(s[i := x]) + s[i] == Sum(s) + x
  {
    if i > 0 {
      SumUpdate(s[1..], i - 1, x);
      assert s[i := x][1..] == s[1..][i - 1 := x];
    } else {
      assert s[i := x][1..] == s[1..];
    }
  }

  /** Scaling by a non-negative factor keeps the order. */
  lemma ScaleMonotone(a: real, b: real, t: real)
    requires a <= b && t >= 0.0
    ensures a * t <= b * t
  {
    assert b * t - a * t == (b - a) * t;
  }

  /** Scaling a non-negative value by a negative factor gives at most zero. */
  lemma ScaleNegative(a: real, t: real)
    requires a >= 0.0 && t < 0.0
    ensures a * t <= 0.0
  {
  }

  /** Sum of exact rationals. */
  function SumR(s: seq<real>): real
  {
    if s == [] then 0.0 else s[0] + SumR(s[1..])
  }

  /** Shares v_i * seats / total add up to Sum(votes) * seats / total. */
  lemma {:induction false} SumOfShares(vs: seq<nat>, qs: seq<real>, seats: nat, total: real)
    requires total > 0.0 && |qs| == |vs|
    requires forall i :: 0 <= i < |vs| ==> qs[i] == (vs[i] * seats) as real / total
    ensures SumR(qs) == (Sum(vs) * seats) as real / total
  {
    if vs != [] {
      SumOfShares(vs[1..], qs[1..], seats, total);
      var a, b := vs[0] * seats, Sum(vs[1..]) * seats;
      assert Sum(vs) * seats == a + b;
      DivAdd(a as real, b as real, total);
    }
  }

  /** Every party's exact shares of `seats` add up to `seats`. */
  lemma EntitlementsAddUp(votes: seq<nat>, seats: nat, qs: seq<real>)
    requires Sum(votes) > 0 && |qs| == |votes|
    requires forall i :: 0 <= i < |votes| ==> qs[i] == Entitlement(votes, seats, i)
    ensures SumR(qs) == seats as real
  {
    SumOfShares(votes, qs, seats, Sum(votes) as real);
    WholeShare(Sum(votes), seats);
  }

  /** n * seats / n == seats */
  lemma WholeShare(n: nat, seats: nat)
    requires n > 0
    ensures ((n * seats) as real) / (n as real) == seats as real
  {
    CastMul(seats, n);
    MulDiv(seats as real, n as real);
  }

  /** Dividing by the same positive number keeps the order. */
  lemma DivideMonotone(x: real, y: real, d: real)
    requires x <= y && d > 0.0
    ensures x / d <= y / d
  {
    assert y / d - x / d == (y - x) / d;
  }

  lemma CastMul(a: nat, b: nat)
    ensures (a * b) as real == (a as real) * (b as real)
  {
  }

  lemma DivAdd(a: real, b: real, t: real)
    requires t > 0.0
    ensures a / t + b / t == (a + b) / t
  {
    var x, y := a / t, b / t;
    assert x * t == a && y * t == b;
    assert (x + y) * t == a + b;
  }

  lemma MulDiv(x: real, t: real)
    requires t > 0.0
    ensures (x * t) / t == x
  {
  }
}
