/** compute: the threshold filter, then the apportionment method that the
    method name selects, on the filtered votes. */
module Apportionment {
  import opened Common
  import opened Threshold
  import opened Divisors
  import QuotaCheck
  import LargestRemainder
  import DivisorEngine
  import QuotaMethod
  import FewerSeats

  /** The three families of methods that compute dispatches to. */
  datatype Rule = QuotaRule | HamiltonRule | DivisorRule(dm: DivisorMethod)

  /** The rule a method name selects, aliases included; None for a name
      that compute does not know. */
  function RuleNamed(name: string): (r: Option<Rule>)
  {
    if name == "quota" then Some(QuotaRule)
    else if name == "lrm" || name == "hamilton" || name == "largest_remainder" then Some(HamiltonRule)
    else match DivisorMethodNamed(name)
      case Some(dm) => Some(DivisorRule(dm))
      case None => None
  }

  /** What a rule needs of its input: at least one party, and for largest
      remainder votes cast and a seat to give. */
  predicate Admissible(rule: Rule, votes: seq<nat>, seats: nat)
  {
    |votes| >= 1 && (rule.HamiltonRule? ==> Sum(votes) > 0 && seats >= 1)
  }

  /** The allocation of one rule on (already filtered) votes. */
  function Apportion(rule: Rule, votes: seq<nat>, seats: nat, tiesAllowed: bool): Outcome
    requires Admissible(rule, votes, seats)
  {
    match rule
    case QuotaRule => QuotaMethod.QuotaAllocation(votes, seats, tiesAllowed)
    case HamiltonRule => LargestRemainder.HamiltonAllocation(votes, seats, tiesAllowed)
    case DivisorRule(dm) => DivisorEngine.DivisorAllocation(dm, votes, seats, tiesAllowed)
  }

  /** The inputs compute is modelled on: at least one party, and for the
      largest remainder names votes left after the filter and a seat. */
  predicate Callable(name: string, votes: seq<nat>, seats: nat, threshold: Option<real>)
  {
    |votes| >= 1 &&
    (RuleNamed(name) == Some(HamiltonRule) ==> Sum(Filtered(votes, threshold)) > 0 && seats >= 1)
  }

  /** What compute returns for a method name. */
  function ComputeOutcome(name: string, votes: seq<nat>, seats: nat, threshold: Option<real>,
                          tiesAllowed: bool): Outcome
    requires Callable(name, votes, seats, threshold)
  {
    match RuleNamed(name)
    case None => UnknownMethod
    case Some(rule) => Apportion(rule, Filtered(votes, threshold), seats, tiesAllowed)
  }

  /** compute: filter first, then the name comparisons in the order compute
      makes them, each branch handing the filtered votes to one method. */
  method Compute(name: string, votes: seq<nat>, seats: nat, threshold: Option<real>,
                 tiesAllowed: bool) returns (out: Outcome)
    requires Callable(name, votes, seats, threshold)
    ensures out == ComputeOutcome(name, votes, seats, threshold, tiesAllowed)
  {
    var filteredVotes := ApplyThreshold(votes, threshold);
    if name == "quota" {
      out := QuotaMethod.ComputeQuota(filteredVotes, seats, tiesAllowed);
    } else if name == "lrm" || name == "hamilton" || name == "largest_remainder" {
      out := LargestRemainder.ComputeLargestRemainder(filteredVotes, seats, tiesAllowed);
    } else if DivisorMethodNamed(name).Some? {
      out := DivisorEngine.ComputeDivisor(DivisorMethodNamed(name).value, filteredVotes, seats, tiesAllowed);
    } else {
      out := UnknownMethod;
    }
  }

  /** The eighteen names compute accepts: the quota method, the three
      names of largest remainder, and the divisor names. */
  const RuleNames: seq<string> := ["quota", "lrm", "hamilton", "largest_remainder"] + DivisorNames

  /** A name selects a rule exactly when it is one of the eighteen names;
      every other string is an unknown method. */
  lemma RuleNamesExactly(name: string)
    ensures RuleNamed(name).Some? <==> name in RuleNames
    ensures |RuleNames| == 18
  {
    DivisorNamesExactly(name);
    assert name in RuleNames <==>
           name in ["quota", "lrm", "hamilton", "largest_remainder"] || name in DivisorNames;
  }

  /** Every one of the eighteen names compute accepts selects its rule, and
      a different spelling and the empty string select none. */
  lemma RuleNamesComplete()
    ensures RuleNamed("quota") == Some(QuotaRule)
    ensures RuleNamed("lrm") == Some(HamiltonRule)
    ensures RuleNamed("hamilton") == Some(HamiltonRule)
    ensures RuleNamed("largest_remainder") == Some(HamiltonRule)
    ensures RuleNamed("dhondt") == Some(DivisorRule(DHondt))
    ensures RuleNamed("jefferson") == Some(DivisorRule(DHondt))
    ensures RuleNamed("greatestdivisors") == Some(DivisorRule(DHondt))
    ensures RuleNamed("saintelague") == Some(DivisorRule(SainteLague))
    ensures RuleNamed("webster") == Some(DivisorRule(SainteLague))
    ensures RuleNamed("majorfractions") == Some(DivisorRule(SainteLague))
    ensures RuleNamed("modified_saintelague") == Some(DivisorRule(ModifiedSainteLague))
    ensures RuleNamed("huntington") == Some(DivisorRule(HuntingtonHill))
    ensures RuleNamed("hill") == Some(DivisorRule(HuntingtonHill))
    ensures RuleNamed("equalproportions") == Some(DivisorRule(HuntingtonHill))
    ensures RuleNamed("adams") == Some(DivisorRule(Adams))
    ensures RuleNamed("smallestdivisor") == Some(DivisorRule(Adams))
    ensures RuleNamed("dean") == Some(DivisorRule(Dean))
    ensures RuleNamed("harmonicmean") == Some(DivisorRule(Dean))
    ensures RuleNamed("Quota") == None && RuleNamed("") == None
  {
    OwnRuleNames();
    FirstDivisorRuleNames();
    SeededDivisorRuleNames();
  }

  /** The names of the quota and largest remainder methods, and two that
      are no method's. */
  lemma OwnRuleNames()
    ensures RuleNamed("quota") == Some(QuotaRule)
    ensures RuleNamed("lrm") == Some(HamiltonRule)
    ensures RuleNamed("hamilton") == Some(HamiltonRule)
    ensures RuleNamed("largest_remainder") == Some(HamiltonRule)
    ensures RuleNamed("Quota") == None && RuleNamed("") == None
  {
  }

  /** The names of the divisor methods whose first divisor is positive. */
  lemma FirstDivisorRuleNames()
    ensures RuleNamed("dhondt") == Some(DivisorRule(DHondt))
    ensures RuleNamed("jefferson") == Some(DivisorRule(DHondt))
    ensures RuleNamed("greatestdivisors") == Some(DivisorRule(DHondt))
    ensures RuleNamed("saintelague") == Some(DivisorRule(SainteLague))
    ensures RuleNamed("webster") == Some(DivisorRule(SainteLague))
    ensures RuleNamed("majorfractions") == Some(DivisorRule(SainteLague))
    ensures RuleNamed("modified_saintelague") == Some(DivisorRule(ModifiedSainteLague))
  {
    FirstDivisorNames();
  }

  /** The names of the divisor methods whose first divisor is zero. */
  lemma SeededDivisorRuleNames()
    ensures RuleNamed("huntington") == Some(DivisorRule(HuntingtonHill))
    ensures RuleNamed("hill") == Some(DivisorRule(HuntingtonHill))
    ensures RuleNamed("equalproportions") == Some(DivisorRule(HuntingtonHill))
    ensures RuleNamed("adams") == Some(DivisorRule(Adams))
    ensures RuleNamed("smallestdivisor") == Some(DivisorRule(Adams))
    ensures RuleNamed("dean") == Some(DivisorRule(Dean))
    ensures RuleNamed("harmonicmean") == Some(DivisorRule(Dean))
  {
    SeededDivisorNames();
  }

  /** The name "quota" and no other selects the quota method. */
  lemma QuotaNameOnly(name: string)
    ensures RuleNamed(name) == Some(QuotaRule) <==> name == "quota"
  {
    if name != "quota" && DivisorMethodNamed(name).Some? {
      assert RuleNamed(name) == Some(DivisorRule(DivisorMethodNamed(name).value));
    }
  }

  /** The kind of outcome compute returns: an unknown method exactly for
      names it does not know, "not supported" exactly for the quota method
      without ties allowed, a tie only when ties are not allowed, and with
      ties allowed an allocation for every known name. */
  lemma ComputeOutcomeKinds(name: string, votes: seq<nat>, seats: nat, threshold: Option<real>,
                            tiesAllowed: bool)
    requires Callable(name, votes, seats, threshold)
    ensures ComputeOutcome(name, votes, seats, threshold, tiesAllowed) == UnknownMethod <==>
            RuleNamed(name).None?
    ensures ComputeOutcome(name, votes, seats, threshold, tiesAllowed) == Unsupported <==>
            name == "quota" && !tiesAllowed
    ensures ComputeOutcome(name, votes, seats, threshold, tiesAllowed) == TieRejected ==> !tiesAllowed
    ensures RuleNamed(name).Some? && tiesAllowed ==>
            ComputeOutcome(name, votes, seats, threshold, tiesAllowed).Allocated?
  {
    QuotaNameOnly(name);
    var v := Filtered(votes, threshold);
    match RuleNamed(name)
    case None =>
    case Some(rule) =>
      match rule
      case QuotaRule =>
        QuotaMethod.QuotaAllocationShape(v, seats, tiesAllowed, 0);
      case HamiltonRule =>
        LargestRemainder.SharesValid(v, seats);
        LargestRemainder.HamiltonTieIff(LargestRemainder.Shares(v, seats), seats, tiesAllowed);
      case DivisorRule(dm) =>
        DivisorNeverUnsupported(dm, v, seats, tiesAllowed);
  }

  /** A divisor method allocates or reports a tie, and reports a tie only
      when ties are not allowed. */
  lemma DivisorNeverUnsupported(dm: DivisorMethod, votes: seq<nat>, seats: nat, tiesAllowed: bool)
    requires |votes| >= 1
    ensures var o := DivisorEngine.DivisorAllocation(dm, votes, seats, tiesAllowed);
            o.Allocated? || (o == TieRejected && !tiesAllowed)
  {
  }

  /** With votes left after the filter, every allocation compute returns
      has one entry per party and hands out exactly the seats asked for. */
  lemma ComputeFillsHouse(name: string, votes: seq<nat>, seats: nat, threshold: Option<real>,
                          tiesAllowed: bool)
    requires Callable(name, votes, seats, threshold) && Sum(Filtered(votes, threshold)) > 0
    requires ComputeOutcome(name, votes, seats, threshold, tiesAllowed).Allocated?
    ensures var r := ComputeOutcome(name, votes, seats, threshold, tiesAllowed).seats;
            |r| == |votes| && Sum(r) == seats
  {
    var v := Filtered(votes, threshold);
    match RuleNamed(name)
    case Some(QuotaRule) =>
      QuotaMethod.QuotaAllocationShape(v, seats, tiesAllowed, 0);
    case Some(HamiltonRule) =>
      LargestRemainder.SharesValid(v, seats);
      LargestRemainder.HamiltonSumsToSeats(LargestRemainder.Shares(v, seats), seats, tiesAllowed);
    case Some(DivisorRule(dm)) =>
      DivisorEngine.DivisorSumsToSeats(dm, v, seats, tiesAllowed);
  }

  /** A party the filter zeroes (or that had no votes) gets no seat, with
      votes left after the filter; the one exception is a divisor method
      with a first divisor of zero and fewer seats than parties, whose
      fewer-seats rule can give a seat to a party without votes when fewer
      parties than seats have votes (see ZeroVotePartySeated). */
  lemma ComputeZeroVotes(name: string, votes: seq<nat>, seats: nat, threshold: Option<real>,
                         tiesAllowed: bool, i: nat)
    requires Callable(name, votes, seats, threshold) && Sum(Filtered(votes, threshold)) > 0
    requires i < |votes| && Filtered(votes, threshold)[i] == 0
    requires !(RuleNamed(name).Some? && RuleNamed(name).value.DivisorRule? &&
               Seeded(RuleNamed(name).value.dm) && seats < |votes|)
    requires ComputeOutcome(name, votes, seats, threshold, tiesAllowed).Allocated?
    ensures ComputeOutcome(name, votes, seats, threshold, tiesAllowed).seats[i] == 0
  {
    var v := Filtered(votes, threshold);
    match RuleNamed(name)
    case Some(QuotaRule) =>
      QuotaMethod.QuotaAllocationShape(v, seats, tiesAllowed, i);
    case Some(HamiltonRule) =>
      LargestRemainder.HamiltonZeroVotes(v, seats, tiesAllowed, i);
    case Some(DivisorRule(dm)) =>
      DivisorEngine.DivisorZeroVotes(dm, v, seats, tiesAllowed, i);
  }

  /** Huntington-Hill with two seats for three parties of which one has
      votes: the fewer-seats rule ranks the zero-vote parties at the cutoff
      and seats the first of them. */
  lemma ZeroVotePartySeated(votes: seq<nat>)
    requires votes == [5, 0, 0]
    ensures ComputeOutcome("huntington", votes, 2, None, true) == Allocated([1, 1, 0])
    ensures ComputeOutcome("huntington", votes, 2, None, false) == TieRejected
  {
    HuntingtonOutcome(votes, 2, true);
    HuntingtonOutcome(votes, 2, false);
    FewerSeats.FewerSeatsListOrderExample([8, 8, 12], votes);
  }

  /** "huntington" selects the divisor engine for Huntington-Hill. */
  lemma HuntingtonOutcome(votes: seq<nat>, seats: nat, tiesAllowed: bool)
    requires |votes| >= 1
    ensures ComputeOutcome("huntington", votes, seats, None, tiesAllowed) ==
            DivisorEngine.DivisorAllocation(HuntingtonHill, votes, seats, tiesAllowed)
  {
    assert RuleNamed("huntington") == Some(DivisorRule(HuntingtonHill));
  }

  /** The quota guarantees compute keeps: largest remainder stays within
      quota, and the quota method never exceeds a party's upper quota. */
  lemma ComputeQuotaBounds(name: string, votes: seq<nat>, seats: nat, threshold: Option<real>,
                           tiesAllowed: bool, i: nat)
    requires Callable(name, votes, seats, threshold) && Sum(Filtered(votes, threshold)) > 0
    requires i < |votes| && ComputeOutcome(name, votes, seats, threshold, tiesAllowed).Allocated?
    ensures var r := ComputeOutcome(name, votes, seats, threshold, tiesAllowed).seats;
            (RuleNamed(name) == Some(HamiltonRule) ==>
               |r| == |votes| && QuotaCheck.WithinQuota(Filtered(votes, threshold), r)) &&
            (name == "quota" ==>
               |r| == |votes| && r[i] <= QuotaCheck.UpperQuota(Filtered(votes, threshold), seats, i))
  {
    var v := Filtered(votes, threshold);
    QuotaNameOnly(name);
    ComputeFillsHouse(name, votes, seats, threshold, tiesAllowed);
    match RuleNamed(name)
    case Some(QuotaRule) =>
      QuotaMethod.QuotaAllocationShape(v, seats, tiesAllowed, i);
    case Some(HamiltonRule) =>
      LargestRemainder.HamiltonWithinQuota(v, seats, tiesAllowed);
    case Some(DivisorRule(dm)) =>
    case None =>
  }

  /** The outcome depends on the votes only through the filtered votes:
      filtering them once more before compute changes nothing. */
  lemma FilterBeforeDispatch(name: string, votes: seq<nat>, seats: nat, threshold: Option<real>,
                             tiesAllowed: bool)
    requires Callable(name, votes, seats, threshold)
    ensures Callable(name, Filtered(votes, threshold), seats, threshold)
    ensures ComputeOutcome(name, Filtered(votes, threshold), seats, threshold, tiesAllowed) ==
            ComputeOutcome(name, votes, seats, threshold, tiesAllowed)
  {
    FilteredIdempotent(votes, threshold);
  }

  /** A single party with votes takes every seat under every method compute
      knows, ties allowed. */
  lemma SinglePartyGetsAll(name: string, v: nat, seats: nat)
    requires v > 0 && RuleNamed(name).Some? && Callable(name, [v], seats, None)
    ensures ComputeOutcome(name, [v], seats, None, true) == Allocated([seats])
  {
    ComputeOutcomeKinds(name, [v], seats, None, true);
    assert Sum([v]) == v;
    ComputeFillsHouse(name, [v], seats, None, true);
    OneEntry(ComputeOutcome(name, [v], seats, None, true).seats);
  }

  /** A one-entry sequence holds its own sum. */
  lemma OneEntry(r: seq<nat>)
    requires |r| == 1
    ensures r == [Sum(r)]
  {
    assert Sum(r) == r[0] + Sum(r[1..]);
  }
}
