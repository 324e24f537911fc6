/** The largest remainder method with the Hare quota (Hamilton): every party
    first receives the floor of its exact share, and the seats left over go to
    the parties whose remainder is at least the k-th largest remainder (k the
    number of seats left), in list order while seats remain. */
module LargestRemainder {
  import opened Common
  import opened Ranking
  import QuotaCheck

  /** v * seats / total for every entry v of vs, first entry first. */
  function SharesOf(vs: seq<nat>, total: nat, seats: nat): (q: seq<real>)
    requires total > 0
    ensures |q| == |vs|
  {
    if vs == [] then [] else [(vs[0] * seats) as real / total as real] + SharesOf(vs[1..], total, seats)
  }

  /** The exact share v_i * seats / total of every party (the Hare quotas). */
  function Shares(votes: seq<nat>, seats: nat): (q: seq<real>)
    requires Sum(votes) > 0
    ensures |q| == |votes|
  {
    SharesOf(votes, Sum(votes), seats)
  }

  lemma {:induction false} SharesOfAt(vs: seq<nat>, total: nat, seats: nat, i: nat)
    requires total > 0 && i < |vs|
    ensures SharesOf(vs, total, seats)[i] == (vs[i] * seats) as real / total as real
  {
    if i > 0 { SharesOfAt(vs[1..], total, seats, i - 1); }
  }

  /** Entry i of the shares is party i's entitlement. */
  lemma SharesAt(votes: seq<nat>, seats: nat, i: nat)
    requires Sum(votes) > 0 && i < |votes|
    ensures Shares(votes, seats)[i] == Entitlement(votes, seats, i)
  {
    SharesOfAt(votes, Sum(votes), seats, i);
  }

  /** Shares are non-negative and add up to the house size. */
  ghost predicate ValidShares(q: seq<real>, seats: nat)
  {
    (forall i :: 0 <= i < |q| ==> q[i] >= 0.0) && SumR(q) == seats as real
  }

  lemma SharesValid(votes: seq<nat>, seats: nat)
    requires Sum(votes) > 0
    ensures ValidShares(Shares(votes, seats), seats)
  {
    forall i | 0 <= i < |votes|
      ensures Shares(votes, seats)[i] == Entitlement(votes, seats, i)
    {
      SharesAt(votes, seats, i);
    }
    EntitlementsAddUp(votes, seats, Shares(votes, seats));
  }

  /** The whole part of every share. */
  function Floors(q: seq<real>): (fl: seq<nat>)
    requires forall i :: 0 <= i < |q| ==> q[i] >= 0.0
    ensures |fl| == |q|
    ensures forall i :: 0 <= i < |q| ==> fl[i] == Floor(q[i])
  {
    seq(|q|, i requires 0 <= i < |q| => Floor(q[i]) as nat)
  }

  /** The fractional part of every share. */
  function Remainders(q: seq<real>): (rem: seq<real>)
    requires forall i :: 0 <= i < |q| ==> q[i] >= 0.0
    ensures |rem| == |q|
    ensures forall i :: 0 <= i < |q| ==> 0.0 <= rem[i] < 1.0 && rem[i] == q[i] - Floor(q[i]) as real
  {
    seq(|q|, i requires 0 <= i < |q| => q[i] - Floor(q[i]) as real)
  }

  /** A pointwise split of reals sums to the split of the sums. */
  lemma {:induction false} SumRSplit(q: seq<real>, fl: seq<nat>, rem: seq<real>)
    requires |q| == |fl| == |rem|
    requires forall i :: 0 <= i < |q| ==> q[i] == fl[i] as real + rem[i]
    ensures SumR(q) == Sum(fl) as real + SumR(rem)
  {
    if q != [] { SumRSplit(q[1..], fl[1..], rem[1..]); }
  }

  /** Remainders in [0, 1) sum to at least zero and at most the number of
      positive ones. */
  lemma {:induction false} RemainderSumBound(rem: seq<real>)
    requires forall i :: 0 <= i < |rem| ==> 0.0 <= rem[i] < 1.0
    ensures 0.0 <= SumR(rem) <= CountAbove(rem, 0.0) as real
  {
    if rem != [] { RemainderSumBound(rem[1..]); }
  }

  /** The floors never exceed the house, and the seats left over are no more
      than the parties with a positive remainder. */
  lemma LeftoverBound(q: seq<real>, seats: nat)
    requires ValidShares(q, seats)
    ensures Sum(Floors(q)) <= seats
    ensures seats - Sum(Floors(q)) <= CountAbove(Remainders(q), 0.0)
  {
    SumRSplit(q, Floors(q), Remainders(q));
    RemainderSumBound(Remainders(q));
  }

  /** The number of seats the floors leave over. */
  function Leftover(q: seq<real>, seats: nat): (k: nat)
    requires ValidShares(q, seats)
    ensures Sum(Floors(q)) + k == seats
    ensures k <= CountAbove(Remainders(q), 0.0)
  {
    LeftoverBound(q, seats);
    seats - Sum(Floors(q))
  }

  /** The k-th largest remainder, k the leftover seats; it is positive, so a
      party with a zero remainder never takes a leftover seat. */
  function Cutoff(q: seq<real>, seats: nat): (c: real)
    requires ValidShares(q, seats) && Leftover(q, seats) > 0
    ensures c > 0.0
    ensures IsKthLargest(Remainders(q), Leftover(q, seats), c)
  {
    var rem, k := Remainders(q), Leftover(q, seats);
    CountsBounded(rem, 0.0);
    var c := KthLargest(rem, k);
    assert c > 0.0 by {
      if c <= 0.0 { CountAntitone(rem, c, 0.0); }
    }
    c
  }

  /** The parties whose remainder reaches the cutoff. */
  function Contenders(q: seq<real>, seats: nat): (holds: seq<bool>)
    requires ValidShares(q, seats) && Leftover(q, seats) > 0
    ensures |holds| == |q|
    ensures forall i :: 0 <= i < |q| ==> holds[i] == (Remainders(q)[i] >= Cutoff(q, seats))
    ensures CountTrue(holds) == CountAtLeast(Remainders(q), Cutoff(q, seats))
  {
    var rem := Remainders(q);
    var holds := AtLeastMask(rem, Cutoff(q, seats));
    CountAtLeastMask(rem, Cutoff(q, seats), holds);
    holds
  }

  /** Largest remainder on given shares. */
  function HamiltonOn(q: seq<real>, seats: nat, tiesAllowed: bool): Outcome
    requires ValidShares(q, seats)
  {
    var fl := Floors(q);
    var k := Leftover(q, seats);
    if k == 0 then Allocated(fl)
    else
      var holds := Contenders(q, seats);
      if !tiesAllowed && CountTrue(holds) > k then TieRejected
      else Allocated(AddOnes(fl, FirstInOrder(holds, k)))
  }

  /** The allocation the largest remainder method computes. */
  function HamiltonAllocation(votes: seq<nat>, seats: nat, tiesAllowed: bool): Outcome
    requires Sum(votes) > 0
  {
    SharesValid(votes, seats);
    HamiltonOn(Shares(votes, seats), seats, tiesAllowed)
  }

  /** largest_remainder: the exact quotas, their floors as the first
      allocation, and when seats are left over, one pass handing them out by
      remainder. */
  method ComputeLargestRemainder(votes: seq<nat>, seats: nat, tiesAllowed: bool) returns (out: Outcome)
    requires Sum(votes) > 0 && seats >= 1
    ensures out == HamiltonAllocation(votes, seats, tiesAllowed)
  {
    var quotas := Shares(votes, seats);
    SharesValid(votes, seats);
    out := AssignOnShares(quotas, seats, tiesAllowed);
  }

  /** largest_remainder once the quotas are known: the floors as the first
      allocation, then the pass over the remainders when seats are left. */
  method AssignOnShares(quotas: seq<real>, seats: nat, tiesAllowed: bool) returns (out: Outcome)
    requires ValidShares(quotas, seats)
    ensures out == HamiltonOn(quotas, seats, tiesAllowed)
  {
    var n := |quotas|;
    var fl := Floors(quotas);
    var representatives := new nat[n](i requires 0 <= i < n => fl[i]);
    assert representatives[..] == fl;
    var ties := false;
    if Sum(fl) < seats {
      var remainders := Remainders(quotas);
      var cutoff := Cutoff(quotas, seats);
      assert Contenders(quotas, seats) == AtLeastMask(remainders, cutoff);
      ties := HandOutLeftover(representatives, remainders, cutoff, seats);
    }
    if ties && !tiesAllowed {
      return TieRejected;
    }
    out := Allocated(representatives[..]);
  }

  /** The tie pass of largest_remainder: walking the parties in list order,
      a party whose remainder reaches the cutoff takes a seat while the
      allocation is below the house size, and once it is full, a party
      reaching the cutoff that is passed over flags a tie. */
  method HandOutLeftover(representatives: array<nat>, remainders: seq<real>, cutoff: real, seats: nat)
      returns (ties: bool)
    requires |remainders| == representatives.Length
    requires Sum(representatives[..]) < seats
    modifies representatives
    ensures var holds, k := AtLeastMask(remainders, cutoff), seats - old(Sum(representatives[..]));
            representatives[..] == AddOnes(old(representatives[..]), FirstInOrder(holds, k)) &&
            ties == (CountTrue(holds) > k)
  {
    var n := representatives.Length;
    ghost var base := representatives[..];
    var handedOut := Sum(representatives[..]);
    ghost var holds := AtLeastMask(remainders, cutoff);
    ghost var k := seats - handedOut;
    ghost var picks := FirstInOrder(holds, k);
    ties := false;
    for i := 0 to n
      invariant forall j :: 0 <= j < n ==>
                  representatives[j] == base[j] + if j < i && picks[j] then 1 else 0
      invariant handedOut == Sum(base) + Min(k, CountTrue(holds[..i]))
      invariant ties == (CountTrue(holds[..i]) > k)
    {
      PassStep(holds, k, i);
      var repsSum := handedOut;
      if repsSum == seats && remainders[i] >= cutoff {
        ties := true;
      } else if repsSum < seats && remainders[i] > cutoff {
        representatives[i] := representatives[i] + 1;
        handedOut := handedOut + 1;
      } else if repsSum < seats && remainders[i] == cutoff {
        representatives[i] := representatives[i] + 1;
        handedOut := handedOut + 1;
      }
    }
    assert holds[..n] == holds;
    assert representatives[..] == AddOnes(base, picks);
  }

  /** Every allocation has one entry per party and hands out exactly the
      house size. */
  lemma HamiltonSumsToSeats(q: seq<real>, seats: nat, tiesAllowed: bool)
    requires ValidShares(q, seats)
    requires HamiltonOn(q, seats, tiesAllowed).Allocated?
    ensures |HamiltonOn(q, seats, tiesAllowed).seats| == |q|
    ensures Sum(HamiltonOn(q, seats, tiesAllowed).seats) == seats
  {
    var k := Leftover(q, seats);
    if k > 0 {
      var holds := Contenders(q, seats);
      SumAddOnes(Floors(q), FirstInOrder(holds, k));
      FirstInOrderCount(holds, k);
    }
  }

  /** Each party gets the floor of its share or one more, and one more only
      when seats were left over and its remainder reaches the cutoff. */
  lemma HamiltonFloorOrNext(q: seq<real>, seats: nat, tiesAllowed: bool, i: nat)
    requires ValidShares(q, seats) && i < |q|
    requires HamiltonOn(q, seats, tiesAllowed).Allocated?
    ensures var r := HamiltonOn(q, seats, tiesAllowed).seats;
            |r| == |q| &&
            (r[i] == Floor(q[i]) ||
             (r[i] == Floor(q[i]) + 1 && Leftover(q, seats) > 0 &&
              Remainders(q)[i] >= Cutoff(q, seats)))
  {
    if Leftover(q, seats) > 0 {
      FirstInOrderAt(Contenders(q, seats), Leftover(q, seats), i);
    }
  }

  /** A tie is reported exactly when ties are not allowed and more parties
      reach the cutoff than there are seats left over; with ties allowed the
      method always allocates. */
  lemma HamiltonTieIff(q: seq<real>, seats: nat, tiesAllowed: bool)
    requires ValidShares(q, seats)
    ensures HamiltonOn(q, seats, tiesAllowed) == TieRejected <==>
            (!tiesAllowed && Leftover(q, seats) > 0 &&
             CountAtLeast(Remainders(q), Cutoff(q, seats)) > Leftover(q, seats))
    ensures tiesAllowed ==> HamiltonOn(q, seats, tiesAllowed).Allocated?
  {
  }

  /** Ties are broken in list order: when a contender is passed over, no later
      contender takes a leftover seat. */
  lemma HamiltonEarlierWins(q: seq<real>, seats: nat, tiesAllowed: bool, i: nat, j: nat)
    requires ValidShares(q, seats) && i < j < |q|
    requires HamiltonOn(q, seats, tiesAllowed).Allocated? && Leftover(q, seats) > 0
    requires Remainders(q)[i] >= Cutoff(q, seats)
    requires HamiltonOn(q, seats, tiesAllowed).seats[j] > Floors(q)[j]
    ensures HamiltonOn(q, seats, tiesAllowed).seats[i] > Floors(q)[i]
  {
    FirstInOrderEarlierWins(Contenders(q, seats), Leftover(q, seats), i, j);
  }

  /** A party with no votes gets no seat. */
  lemma HamiltonZeroVotes(votes: seq<nat>, seats: nat, tiesAllowed: bool, i: nat)
    requires Sum(votes) > 0 && i < |votes| && votes[i] == 0
    requires HamiltonAllocation(votes, seats, tiesAllowed).Allocated?
    ensures HamiltonAllocation(votes, seats, tiesAllowed).seats[i] == 0
  {
    SharesValid(votes, seats);
    ZeroVoteShare(votes, seats, i);
    HamiltonZeroShare(Shares(votes, seats), seats, tiesAllowed, i);
  }

  /** A party without votes has a zero share. */
  lemma ZeroVoteShare(votes: seq<nat>, seats: nat, i: nat)
    requires Sum(votes) > 0 && i < |votes| && votes[i] == 0
    ensures Shares(votes, seats)[i] == 0.0
  {
    SharesOfAt(votes, Sum(votes), seats, i);
    assert votes[i] * seats == 0;
  }

  /** A party with a zero share gets no seat: its remainder 0 is below the
      positive cutoff. */
  lemma HamiltonZeroShare(q: seq<real>, seats: nat, tiesAllowed: bool, i: nat)
    requires ValidShares(q, seats) && i < |q| && q[i] == 0.0
    requires HamiltonOn(q, seats, tiesAllowed).Allocated?
    ensures HamiltonOn(q, seats, tiesAllowed).seats[i] == 0
  {
    assert Floor(q[i]) == 0;
    HamiltonFloorOrNext(q, seats, tiesAllowed, i);
  }

  /** The largest remainder method stays within quota: every party gets the
      floor or the ceiling of its share of the house. */
  lemma HamiltonWithinQuota(votes: seq<nat>, seats: nat, tiesAllowed: bool)
    requires Sum(votes) > 0
    requires HamiltonAllocation(votes, seats, tiesAllowed).Allocated?
    ensures QuotaCheck.WithinQuota(votes, HamiltonAllocation(votes, seats, tiesAllowed).seats)
  {
    var q := Shares(votes, seats);
    SharesValid(votes, seats);
    var r := HamiltonAllocation(votes, seats, tiesAllowed).seats;
    HamiltonSumsToSeats(q, seats, tiesAllowed);
    forall i | 0 <= i < |votes|
      ensures QuotaCheck.LowerQuota(votes, seats, i) <= r[i] <= QuotaCheck.UpperQuota(votes, seats, i)
    {
      SharesAt(votes, seats, i);
      HamiltonFloorOrNext(q, seats, tiesAllowed, i);
      if r[i] == Floor(q[i]) + 1 {
        assert q[i] > Floor(q[i]) as real;
      }
    }
  }

  /** The contenders are the parties whose remainder reaches the cutoff. */
  lemma ContendersAt(q: seq<real>, seats: nat, c: real)
    requires ValidShares(q, seats) && Leftover(q, seats) > 0 && Cutoff(q, seats) == c
    ensures Contenders(q, seats) == AtLeastMask(Remainders(q), c)
  {
  }

  /** HamiltonOn, once its floors, leftover and contenders are known. */
  lemma HamiltonOnLeftover(q: seq<real>, seats: nat, t: bool, fl: seq<nat>, k: nat, holds: seq<bool>)
    requires ValidShares(q, seats) && Floors(q) == fl && Leftover(q, seats) == k && k > 0
    requires Contenders(q, seats) == holds
    ensures HamiltonOn(q, seats, t) ==
            if !t && CountTrue(holds) > k then TieRejected else Allocated(AddOnes(fl, FirstInOrder(holds, k)))
  {
  }

  lemma ListOrderShares()
    ensures Shares([5, 5, 9, 21], 4) == [0.5, 0.5, 0.9, 2.1]
  {
    assert Sum([5, 5, 9, 21]) == 40;
    assert SharesOf([5, 5, 9, 21], 40, 4) == [0.5, 0.5, 0.9, 2.1];
  }

  lemma ListOrderSteps()
    ensures Floors([0.5, 0.5, 0.9, 2.1]) == [0, 0, 0, 2] && Sum([0, 0, 0, 2]) == 2
    ensures Remainders([0.5, 0.5, 0.9, 2.1]) == [0.5, 0.5, 0.9, 0.1]
    ensures IsKthLargest([0.5, 0.5, 0.9, 0.1], 2, 0.5)
    ensures AtLeastMask([0.5, 0.5, 0.9, 0.1], 0.5) == [true, true, true, false]
    ensures CountTrue([true, true, true, false]) == 3
    ensures AddOnes([0, 0, 0, 2], FirstInOrder([true, true, true, false], 2)) == [1, 1, 0, 2]
  {
  }

  /** The unit tests' tie example (votes 5, 5, 9, 21 for 4 seats): remainders
      1/2, 1/2, 9/10 and 1/10 with two seats left over; the cutoff is 1/2,
      three parties reach it and the first two in list order take the seats,
      so the party with the largest remainder is passed over. */
  lemma HamiltonListOrderExample(votes: seq<nat>, tiesAllowed: bool)
    requires votes == [5, 5, 9, 21]
    ensures HamiltonAllocation(votes, 4, tiesAllowed) ==
            if tiesAllowed then Allocated([1, 1, 0, 2]) else TieRejected
  {
    var q := Shares(votes, 4);
    ListOrderShares();
    ListOrderSteps();
    SharesValid(votes, 4);
    KthLargestUnique([0.5, 0.5, 0.9, 0.1], 2, 0.5);
    ContendersAt(q, 4, 0.5);
    HamiltonOnLeftover(q, 4, tiesAllowed, [0, 0, 0, 2], 2, [true, true, true, false]);
  }

  lemma ExactSteps()
    ensures Shares([14, 28, 7, 35], 12) == [2.0, 4.0, 1.0, 5.0]
    ensures Floors([2.0, 4.0, 1.0, 5.0]) == [2, 4, 1, 5] && Sum([2, 4, 1, 5]) == 12
  {
    assert Sum([14, 28, 7, 35]) == 84;
    assert SharesOf([14, 28, 7, 35], 84, 12) == [2.0, 4.0, 1.0, 5.0];
  }

  /** Votes 14, 28, 7, 35 for 12 seats divide exactly: no seat is left over. */
  lemma HamiltonExactExample(votes: seq<nat>)
    requires votes == [14, 28, 7, 35]
    ensures HamiltonAllocation(votes, 12, false) == Allocated([2, 4, 1, 5])
  {
    ExactSteps();
    SharesValid(votes, 12);
  }

  lemma TieSteps()
    ensures Shares([11, 11, 11], 4) == [4.0 / 3.0, 4.0 / 3.0, 4.0 / 3.0]
    ensures Floors([4.0 / 3.0, 4.0 / 3.0, 4.0 / 3.0]) == [1, 1, 1] && Sum([1, 1, 1]) == 3
    ensures Remainders([4.0 / 3.0, 4.0 / 3.0, 4.0 / 3.0]) == [1.0 / 3.0, 1.0 / 3.0, 1.0 / 3.0]
    ensures IsKthLargest([1.0 / 3.0, 1.0 / 3.0, 1.0 / 3.0], 1, 1.0 / 3.0)
    ensures AtLeastMask([1.0 / 3.0, 1.0 / 3.0, 1.0 / 3.0], 1.0 / 3.0) == [true, true, true]
    ensures CountTrue([true, true, true]) == 3
    ensures AddOnes([1, 1, 1], FirstInOrder([true, true, true], 1)) == [2, 1, 1]
  {
    assert Sum([11, 11, 11]) == 33;
    assert SharesOf([11, 11, 11], 33, 4) == [4.0 / 3.0, 4.0 / 3.0, 4.0 / 3.0];
  }

  /** Three equal parties and one seat left over: a tie, broken in favour of
      the first party when ties are allowed. */
  lemma HamiltonTieExample(votes: seq<nat>, tiesAllowed: bool)
    requires votes == [11, 11, 11]
    ensures HamiltonAllocation(votes, 4, tiesAllowed) ==
            if tiesAllowed then Allocated([2, 1, 1]) else TieRejected
  {
    var q := Shares(votes, 4);
    TieSteps();
    SharesValid(votes, 4);
    KthLargestUnique([1.0 / 3.0, 1.0 / 3.0, 1.0 / 3.0], 1, 1.0 / 3.0);
    ContendersAt(q, 4, 1.0 / 3.0);
    HamiltonOnLeftover(q, 4, tiesAllowed, [1, 1, 1], 1, [true, true, true]);
  }
}
