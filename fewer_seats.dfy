/** The rule the seeded divisor methods (Huntington-Hill, Adams, Dean) use
    when there are fewer seats than parties: the cutoff is the seats-th
    largest vote count, and walking the parties in list order, every party
    at or above the cutoff takes one seat while seats remain. A party at or
    above the cutoff that finds the seats gone is a tie. */
module FewerSeats {
  import opened Common
  import opened Ranking

  /** The cutoff: the vote count at position -seats of the ascending sort.
      With no seats that index is 0, the smallest count. */
  function MinCount(votes: seq<nat>, seats: nat): (m: real)
    requires seats < |votes|
    ensures m in AsReals(votes)
    ensures IsKthLargest(AsReals(votes), if seats == 0 then |votes| else seats, m)
  {
    KthLargest(AsReals(votes), if seats == 0 then |votes| else seats)
  }

  /** The parties at or above the cutoff. */
  function Strongest(votes: seq<nat>, seats: nat): (holds: seq<bool>)
    requires seats < |votes|
    ensures |holds| == |votes|
    ensures forall i :: 0 <= i < |votes| ==> holds[i] == (votes[i] as real >= MinCount(votes, seats))
    ensures CountTrue(holds) >= seats
  {
    var holds := AtLeastMask(AsReals(votes), MinCount(votes, seats));
    CountAtLeastMask(AsReals(votes), MinCount(votes, seats), holds);
    holds
  }

  /** The allocation __divzero_fewerseatsthanparties returns. */
  function FewerSeatsAllocation(votes: seq<nat>, seats: nat, tiesAllowed: bool): Outcome
    requires seats < |votes|
  {
    var holds := Strongest(votes, seats);
    if !tiesAllowed && CountTrue(holds) > seats then TieRejected
    else Allocated(AddOnes(Zeros(|votes|), FirstInOrder(holds, seats)))
  }

  /** __divzero_fewerseatsthanparties: an array of zeros, the cutoff, one
      pass over the parties, and the tie check. */
  method FewerSeatsThanParties(votes: seq<nat>, seats: nat, tiesAllowed: bool) returns (out: Outcome)
    requires seats < |votes|
    ensures out == FewerSeatsAllocation(votes, seats, tiesAllowed)
  {
    var representatives := new nat[|votes|](i => 0);
    var mincount := MinCount(votes, seats);
    var ties := PassOverStrongest(representatives, votes, mincount, seats, Strongest(votes, seats));
    if ties && !tiesAllowed {
      return TieRejected;
    }
    out := Allocated(representatives[..]);
  }

  /** The pass in list order: a party reaching the cutoff takes one seat
      while seats remain; one reached when the seats are gone is a tie.
      `holds` flags the parties that reach the cutoff. */
  method PassOverStrongest(representatives: array<nat>, votes: seq<nat>, mincount: real, seats: nat,
                           ghost holds: seq<bool>) returns (ties: bool)
    requires |holds| == |votes| && forall i :: 0 <= i < |votes| ==> holds[i] == (votes[i] as real >= mincount)
    requires representatives.Length == |votes| && representatives[..] == Zeros(|votes|)
    modifies representatives
    ensures ties == (CountTrue(holds) > seats)
    ensures representatives[..] == AddOnes(Zeros(|votes|), FirstInOrder(holds, seats))
  {
    var n := |votes|;
    ghost var picks := FirstInOrder(holds, seats);
    var handedOut := 0;
    ties := false;
    for i := 0 to n
      invariant forall j :: 0 <= j < n ==> representatives[j] == if j < i && picks[j] then 1 else 0
      invariant handedOut == Min(seats, CountTrue(holds[..i]))
      invariant ties == (CountTrue(holds[..i]) > seats)
    {
      PassStep(holds, seats, i);
      if handedOut < seats && votes[i] as real >= mincount {
        representatives[i] := 1;
        handedOut := handedOut + 1;
      } else if handedOut == seats && votes[i] as real >= mincount {
        ties := true;
      }
    }
    assert holds[..n] == holds;
    assert representatives[..] == AddOnes(Zeros(n), picks);
  }

  /** Every party gets at most one seat, exactly `seats` are handed out, and
      a party gets one exactly when it reaches the cutoff and fewer than
      `seats` parties before it do. */
  lemma FewerSeatsShape(votes: seq<nat>, seats: nat, tiesAllowed: bool, i: nat)
    requires seats < |votes| && i < |votes|
    requires FewerSeatsAllocation(votes, seats, tiesAllowed).Allocated?
    ensures var r := FewerSeatsAllocation(votes, seats, tiesAllowed).seats;
            |r| == |votes| && Sum(r) == seats && r[i] <= 1 &&
            (r[i] == 1 <==> votes[i] as real >= MinCount(votes, seats) &&
                            CountTrue(Strongest(votes, seats)[..i]) < seats)
  {
    var holds := Strongest(votes, seats);
    var picks := FirstInOrder(holds, seats);
    FirstInOrderAt(holds, seats, i);
    SumAddOnes(Zeros(|votes|), picks);
    SumOfZeros(Zeros(|votes|));
    FirstInOrderCount(holds, seats);
  }

  /** A tie is reported exactly when ties are not allowed and more parties
      reach the cutoff than there are seats. */
  lemma FewerSeatsTieIff(votes: seq<nat>, seats: nat, tiesAllowed: bool)
    requires seats < |votes|
    ensures FewerSeatsAllocation(votes, seats, tiesAllowed) == TieRejected <==>
            (!tiesAllowed && CountAtLeast(AsReals(votes), MinCount(votes, seats)) > seats)
    ensures tiesAllowed ==> FewerSeatsAllocation(votes, seats, tiesAllowed).Allocated?
  {
    CountAtLeastMask(AsReals(votes), MinCount(votes, seats), Strongest(votes, seats));
  }

  /** A party below the cutoff never gets a seat. */
  lemma FewerSeatsBelowCutoff(votes: seq<nat>, seats: nat, tiesAllowed: bool, i: nat)
    requires seats < |votes| && i < |votes|
    requires FewerSeatsAllocation(votes, seats, tiesAllowed).Allocated?
    requires (votes[i] as real) < MinCount(votes, seats)
    ensures FewerSeatsAllocation(votes, seats, tiesAllowed).seats[i] == 0
  {
    FirstInOrderAt(Strongest(votes, seats), seats, i);
  }

  lemma FewerSeatsUnique(votes: seq<nat>, seats: nat, m: real)
    requires 1 <= seats < |votes| && IsKthLargest(AsReals(votes), seats, m)
    ensures MinCount(votes, seats) == m
  {
    KthLargestUnique(AsReals(votes), seats, m);
  }

  lemma StrongestSteps()
    ensures AsReals([10, 9, 8, 8, 11, 12]) == [10.0, 9.0, 8.0, 8.0, 11.0, 12.0]
    ensures IsKthLargest([10.0, 9.0, 8.0, 8.0, 11.0, 12.0], 3, 10.0)
    ensures AtLeastMask([10.0, 9.0, 8.0, 8.0, 11.0, 12.0], 10.0) == [true, false, false, false, true, true]
    ensures CountTrue([true, false, false, false, true, true]) == 3
    ensures AddOnes(Zeros(6), FirstInOrder([true, false, false, false, true, true], 3)) == [1, 0, 0, 0, 1, 1]
  {
  }

  /** The unit tests' fixture: votes 10, 9, 8, 8, 11, 12 for 3 seats go to the
      three strongest parties, with or without ties allowed. */
  lemma FewerSeatsExample(votes: seq<nat>, tiesAllowed: bool)
    requires votes == [10, 9, 8, 8, 11, 12]
    ensures FewerSeatsAllocation(votes, 3, tiesAllowed) == Allocated([1, 0, 0, 0, 1, 1])
  {
    StrongestSteps();
    FewerSeatsUnique(votes, 3, 10.0);
  }

  lemma ListOrderSteps()
    ensures AsReals([8, 8, 12]) == [8.0, 8.0, 12.0]
    ensures IsKthLargest([8.0, 8.0, 12.0], 2, 8.0)
    ensures AtLeastMask([8.0, 8.0, 12.0], 8.0) == [true, true, true]
    ensures CountTrue([true, true, true]) == 3
    ensures AddOnes(Zeros(3), FirstInOrder([true, true, true], 2)) == [1, 1, 0]
    ensures AsReals([5, 0, 0]) == [5.0, 0.0, 0.0]
    ensures IsKthLargest([5.0, 0.0, 0.0], 2, 0.0)
    ensures AtLeastMask([5.0, 0.0, 0.0], 0.0) == [true, true, true]
  {
  }

  /** Ties at the cutoff are settled by list order before strength: with
      votes 8, 8, 12 and two seats the cutoff is 8 and the two first parties
      take the seats, passing over the strongest; with votes 5, 0, 0 the
      cutoff is 0 and a party without votes takes the second seat. */
  lemma FewerSeatsListOrderExample(a: seq<nat>, b: seq<nat>)
    requires a == [8, 8, 12] && b == [5, 0, 0]
    ensures FewerSeatsAllocation(a, 2, true) == Allocated([1, 1, 0])
    ensures FewerSeatsAllocation(a, 2, false) == TieRejected
    ensures FewerSeatsAllocation(b, 2, true) == Allocated([1, 1, 0])
    ensures FewerSeatsAllocation(b, 2, false) == TieRejected
  {
    ListOrderSteps();
    FewerSeatsUnique(a, 2, 8.0);
    FewerSeatsUnique(b, 2, 0.0);
  }
}
