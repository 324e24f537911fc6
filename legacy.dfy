/** The older single-file interface, method(): the same threshold filter
    and the same three families of methods, without the tie switch (ties
    are always broken in list order) and without modified Sainte-Lague. Its
    apply_threshold and within_quota are the same code as the package's,
    and its largest remainder, divisor, fewer-seats and quota loops compute
    the allocations of the package's methods with ties allowed, so the
    model reuses those definitions. */
module Legacy {
  import opened Common
  import opened Threshold
  import opened Divisors
  import opened Apportionment
  import QuotaCheck
  import FewerSeats
  import LargestRemainder
  import DivisorEngine
  import QuotaMethod

  /** The rule a name selects in method(): the package's names less
      "modified_saintelague". */
  function LegacyRuleNamed(name: string): (r: Option<Rule>)
  {
    if name == "modified_saintelague" then None else RuleNamed(name)
  }

  /** The inputs method() is modelled on: those of compute, and votes left
      after the filter whenever the quota loop runs a round (it divides by
      the vote total). */
  predicate LegacyCallable(name: string, votes: seq<nat>, seats: nat, threshold: Option<real>)
  {
    Callable(name, votes, seats, threshold) &&
    (name == "quota" && seats >= 1 ==> Sum(Filtered(votes, threshold)) > 0)
  }

  /** What method() returns for a method name. */
  function LegacyOutcome(name: string, votes: seq<nat>, seats: nat, threshold: Option<real>): Outcome
    requires LegacyCallable(name, votes, seats, threshold)
  {
    match LegacyRuleNamed(name)
    case None => UnknownMethod
    case Some(rule) => Apportion(rule, Filtered(votes, threshold), seats, true)
  }

  /** method(): filter first, then the name comparisons, with ties always
      broken in list order. */
  method LegacyMethod(name: string, votes: seq<nat>, seats: nat, threshold: Option<real>)
    returns (out: Outcome)
    requires LegacyCallable(name, votes, seats, threshold)
    ensures out == LegacyOutcome(name, votes, seats, threshold)
  {
    var filteredVotes := ApplyThreshold(votes, threshold);
    if name == "quota" {
      out := QuotaMethod.ComputeQuota(filteredVotes, seats, true);
    } else if name == "lrm" || name == "hamilton" || name == "largest_remainder" {
      out := LargestRemainder.ComputeLargestRemainder(filteredVotes, seats, true);
    } else if name != "modified_saintelague" && DivisorMethodNamed(name).Some? {
      out := DivisorEngine.ComputeDivisor(DivisorMethodNamed(name).value, filteredVotes, seats, true);
    } else {
      out := UnknownMethod;
    }
  }

  /** The names method() knows are exactly the names compute knows, less
      "modified_saintelague", and they select the same rules. */
  lemma LegacyNames(name: string)
    ensures LegacyRuleNamed(name).Some? ==> LegacyRuleNamed(name) == RuleNamed(name)
    ensures LegacyRuleNamed(name).None? <==>
            RuleNamed(name).None? || name == "modified_saintelague"
    ensures LegacyRuleNamed("modified_saintelague").None? &&
            RuleNamed("modified_saintelague") == Some(DivisorRule(ModifiedSainteLague))
  {
    RuleNamesComplete();
  }

  /** method() never reports a tie and never refuses a known method: it
      returns an allocation for every name it knows and an unknown method
      otherwise. */
  lemma LegacyAlwaysAllocates(name: string, votes: seq<nat>, seats: nat, threshold: Option<real>)
    requires LegacyCallable(name, votes, seats, threshold)
    ensures LegacyOutcome(name, votes, seats, threshold).Allocated? <==> LegacyRuleNamed(name).Some?
    ensures LegacyOutcome(name, votes, seats, threshold) == UnknownMethod <==> LegacyRuleNamed(name).None?
  {
    LegacyAgreesWithCompute(name, votes, seats, threshold);
    ComputeOutcomeKinds(name, votes, seats, threshold, true);
  }

  /** For every name method() knows, it returns what compute returns with
      ties allowed. */
  lemma LegacyAgreesWithCompute(name: string, votes: seq<nat>, seats: nat, threshold: Option<real>)
    requires LegacyCallable(name, votes, seats, threshold)
    ensures LegacyRuleNamed(name).Some? ==>
            LegacyOutcome(name, votes, seats, threshold) == ComputeOutcome(name, votes, seats, threshold, true)
  {
    LegacyNames(name);
  }

  /** With votes left after the filter, method() hands out exactly the
      seats asked for, one entry per party. */
  lemma LegacyFillsHouse(name: string, votes: seq<nat>, seats: nat, threshold: Option<real>)
    requires LegacyCallable(name, votes, seats, threshold) && Sum(Filtered(votes, threshold)) > 0
    requires LegacyRuleNamed(name).Some?
    ensures LegacyOutcome(name, votes, seats, threshold).Allocated?
    ensures var r := LegacyOutcome(name, votes, seats, threshold).seats;
            |r| == |votes| && Sum(r) == seats
  {
    LegacyAlwaysAllocates(name, votes, seats, threshold);
    LegacyAgreesWithCompute(name, votes, seats, threshold);
    ComputeFillsHouse(name, votes, seats, threshold, true);
  }

  /** The older largest remainder: with votes cast and a seat to fill it
      always allocates (it has no tie switch), hands out exactly the seats
      and stays within quota. */
  lemma LegacyLargestRemainder(votes: seq<nat>, seats: nat)
    requires Sum(votes) > 0 && seats >= 1
    ensures LargestRemainder.HamiltonAllocation(votes, seats, true).Allocated?
    ensures var r := LargestRemainder.HamiltonAllocation(votes, seats, true).seats;
            |r| == |votes| && Sum(r) == seats && QuotaCheck.WithinQuota(votes, r)
  {
    LargestRemainder.SharesValid(votes, seats);
    LargestRemainder.HamiltonTieIff(LargestRemainder.Shares(votes, seats), seats, true);
    LargestRemainder.HamiltonSumsToSeats(LargestRemainder.Shares(votes, seats), seats, true);
    LargestRemainder.HamiltonWithinQuota(votes, seats, true);
  }

  /** The older divisor methods (all but modified Sainte-Lague): with votes
      cast they always allocate and hand out exactly the seats, and outside
      the fewer-seats rule a party without votes gets no seat. */
  lemma LegacyDivisor(dm: DivisorMethod, votes: seq<nat>, seats: nat)
    requires dm != ModifiedSainteLague && |votes| >= 1 && Sum(votes) > 0
    ensures DivisorEngine.DivisorAllocation(dm, votes, seats, true).Allocated?
    ensures var r := DivisorEngine.DivisorAllocation(dm, votes, seats, true).seats;
            |r| == |votes| && Sum(r) == seats &&
            (!(Seeded(dm) && seats < |votes|) ==> forall i :: 0 <= i < |votes| && votes[i] == 0 ==> r[i] == 0)
  {
    DivisorNeverUnsupported(dm, votes, seats, true);
    DivisorEngine.DivisorSumsToSeats(dm, votes, seats, true);
    if !(Seeded(dm) && seats < |votes|) {
      forall i | 0 <= i < |votes| && votes[i] == 0
        ensures DivisorEngine.DivisorAllocation(dm, votes, seats, true).seats[i] == 0
      {
        DivisorEngine.DivisorZeroVotes(dm, votes, seats, true, i);
      }
    }
  }

  /** The older fewer-seats rule: it always allocates, at most one seat per
      party and exactly the seats asked for. */
  lemma LegacyFewerSeats(votes: seq<nat>, seats: nat)
    requires seats < |votes|
    ensures FewerSeats.FewerSeatsAllocation(votes, seats, true).Allocated?
    ensures var r := FewerSeats.FewerSeatsAllocation(votes, seats, true).seats;
            |r| == |votes| && Sum(r) == seats && forall i :: 0 <= i < |votes| ==> r[i] <= 1
  {
    FewerSeats.FewerSeatsTieIff(votes, seats, true);
    forall i | 0 <= i < |votes|
      ensures var r := FewerSeats.FewerSeatsAllocation(votes, seats, true).seats;
              |r| == |votes| && Sum(r) == seats && r[i] <= 1
    {
      FewerSeats.FewerSeatsShape(votes, seats, true, i);
    }
    FewerSeats.FewerSeatsShape(votes, seats, true, 0);
  }

  /** The older quota loop: one round per seat, it hands out exactly the
      seats; with votes cast no party exceeds its upper quota and a party
      without votes gets no seat. */
  lemma LegacyQuota(votes: seq<nat>, seats: nat)
    requires |votes| >= 1 && (seats >= 1 ==> Sum(votes) > 0)
    ensures QuotaMethod.QuotaAllocation(votes, seats, true).Allocated?
    ensures var r := QuotaMethod.QuotaAllocation(votes, seats, true).seats;
            |r| == |votes| && Sum(r) == seats &&
            (Sum(votes) > 0 ==> forall i :: 0 <= i < |votes| ==>
               r[i] <= QuotaCheck.UpperQuota(votes, seats, i) && (votes[i] == 0 ==> r[i] == 0))
  {
    QuotaMethod.QuotaAllocationShape(votes, seats, true, 0);
    forall i | 0 <= i < |votes|
      ensures var r := QuotaMethod.QuotaAllocation(votes, seats, true).seats;
              Sum(votes) > 0 ==> r[i] <= QuotaCheck.UpperQuota(votes, seats, i) && (votes[i] == 0 ==> r[i] == 0)
    {
      QuotaMethod.QuotaAllocationShape(votes, seats, true, i);
    }
  }
}
