/** The quota validator: whether an allocation gives every party at least the
    floor and at most the ceiling of its exact proportional share, where the
    number of seats is the allocation's own total. */
module QuotaCheck {
  import opened Common

  /** floor(v_i * seats / total) */
  function LowerQuota(votes: seq<nat>, seats: nat, i: nat): int
    requires Sum(votes) > 0 && i < |votes|
  {
    Floor(Entitlement(votes, seats, i))
  }

  /** ceil(v_i * seats / total) */
  function UpperQuota(votes: seq<nat>, seats: nat, i: nat): int
    requires Sum(votes) > 0 && i < |votes|
  {
    Ceil(Entitlement(votes, seats, i))
  }

  /** Every party lies within its lower and upper quota. Entries of reps
      beyond the vote vector count toward the seat total only; an empty
      vote vector has no party to violate a quota. */
  predicate WithinQuota(votes: seq<nat>, reps: seq<nat>)
    requires (|votes| == 0 || Sum(votes) > 0) && |votes| <= |reps|
  {
    forall i :: 0 <= i < |votes| ==>
      LowerQuota(votes, Sum(reps), i) <= reps[i] <= UpperQuota(votes, Sum(reps), i)
  }

  /** within_quota: walks the parties and clears the flag on any violation of
      the upper or the lower quota. */
  method CheckWithinQuota(votes: seq<nat>, reps: seq<nat>) returns (within: bool)
    requires (|votes| == 0 || Sum(votes) > 0) && |votes| <= |reps|
    ensures within <==> forall i :: 0 <= i < |votes| ==>
              Floor(Entitlement(votes, Sum(reps), i)) <= reps[i] <= Ceil(Entitlement(votes, Sum(reps), i))
    ensures within == WithinQuota(votes, reps)
  {
    var seats := Sum(reps);
    within := true;
    for i := 0 to |votes|
      invariant within <==> forall j :: 0 <= j < i ==>
                  LowerQuota(votes, seats, j) <= reps[j] <= UpperQuota(votes, seats, j)
    {
      var upperquota := UpperQuota(votes, seats, i);
      if reps[i] > upperquota {
        within := false;
      }
      var lowerquota := LowerQuota(votes, seats, i);
      if reps[i] < lowerquota {
        within := false;
      }
    }
  }

  /** An integer lies within [floor q, ceil q] exactly when it is less than
      one away from q. */
  lemma QuotaBoundsIffNear(q: real, r: int)
    ensures (Floor(q) <= r <= Ceil(q)) <==> (q - 1.0 < r as real < q + 1.0)
  {
    var f, c := Floor(q), Ceil(q);
    if r < f {
      assert r as real + 1.0 <= f as real;
    }
    if r > c {
      assert r as real - 1.0 >= c as real;
    }
  }

  /** Reference definition: an allocation is within quota exactly when every
      party's seat count is less than one seat away from its exact share. */
  lemma WithinQuotaIffNear(votes: seq<nat>, reps: seq<nat>)
    requires (|votes| == 0 || Sum(votes) > 0) && |votes| <= |reps|
    ensures WithinQuota(votes, reps) <==> forall i :: 0 <= i < |votes| ==>
              Entitlement(votes, Sum(reps), i) - 1.0 < reps[i] as real < Entitlement(votes, Sum(reps), i) + 1.0
  {
    forall i | 0 <= i < |votes| {
      QuotaBoundsIffNear(Entitlement(votes, Sum(reps), i), reps[i]);
    }
  }

  /** The validator's fixtures from the Balinski–Young example (100 seats). */
  lemma WithinQuotaExamples()
    ensures WithinQuota([5117, 4400, 162, 161, 160], [51, 44, 2, 2, 1])
    ensures !WithinQuota([5117, 4400, 162, 161, 160], [52, 45, 1, 1, 1])
    ensures !WithinQuota([5117, 4400, 162, 161, 160], [52, 43, 2, 1, 2])
  {
    FixtureQuotas();
    assert Sum([51, 44, 2, 2, 1]) == 100;
    assert Sum([52, 45, 1, 1, 1]) == 100;
    assert Sum([52, 43, 2, 1, 2]) == 100;
  }

  /** The quotas of the fixture's parties for 100 seats: 51.17, 44, 1.62,
      1.61 and 1.6. */
  lemma FixtureQuotas()
    ensures LowerQuota([5117, 4400, 162, 161, 160], 100, 0) == 51
    ensures UpperQuota([5117, 4400, 162, 161, 160], 100, 0) == 52
    ensures LowerQuota([5117, 4400, 162, 161, 160], 100, 1) == 44
    ensures UpperQuota([5117, 4400, 162, 161, 160], 100, 1) == 44
    ensures LowerQuota([5117, 4400, 162, 161, 160], 100, 2) == 1
    ensures UpperQuota([5117, 4400, 162, 161, 160], 100, 2) == 2
    ensures LowerQuota([5117, 4400, 162, 161, 160], 100, 3) == 1
    ensures UpperQuota([5117, 4400, 162, 161, 160], 100, 3) == 2
    ensures LowerQuota([5117, 4400, 162, 161, 160], 100, 4) == 1
    ensures UpperQuota([5117, 4400, 162, 161, 160], 100, 4) == 2
  {
    var votes := [5117, 4400, 162, 161, 160];
    assert Sum(votes) == 10000;
    assert Entitlement(votes, 100, 0) == 51.17;
    assert Entitlement(votes, 100, 1) == 44.0;
    assert Entitlement(votes, 100, 2) == 1.62;
    assert Entitlement(votes, 100, 3) == 1.61;
    assert Entitlement(votes, 100, 4) == 1.6;
    assert Floor(51.17) == 51 && Ceil(51.17) == 52;
    assert Floor(44.0) == 44 && Ceil(44.0) == 44;
    assert Floor(1.62) == 1 && Ceil(1.62) == 2;
    assert Floor(1.61) == 1 && Ceil(1.61) == 2;
    assert Floor(1.6) == 1 && Ceil(1.6) == 2;
  }
}
