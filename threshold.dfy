/** The threshold filter that runs before every method: a party whose vote
    count is strictly below threshold * (total votes) is set to 0. */
module Threshold {
  import opened Common

  /** The cutoff total * t below which a party is filtered out. */
  function MinVotes(total: nat, t: real): real
  {
    (total as real) * t
  }

  /** The vote vector after the filter; no threshold leaves it as it is. */
  function Filtered(votes: seq<nat>, threshold: Option<real>): (r: seq<nat>)
    ensures |r| == |votes|
  {
    match threshold
    case None => votes
    case Some(t) =>
      seq(|votes|, i requires 0 <= i < |votes| =>
        if (votes[i] as real) < MinVotes(Sum(votes), t) then 0 else votes[i])
  }

  /** apply_threshold: builds the filtered list one party at a time. */
  method ApplyThreshold(votes: seq<nat>, threshold: Option<real>) returns (v: seq<nat>)
    ensures v == Filtered(votes, threshold)
    ensures |v| == |votes|
    ensures threshold.None? ==> v == votes
    ensures threshold.Some? ==> forall i :: 0 <= i < |votes| ==>
              if (votes[i] as real) < MinVotes(Sum(votes), threshold.value)
              then v[i] == 0 else v[i] == votes[i]
  {
    if threshold.None? {
      return votes;
    }
    var t := threshold.value;
    v := [];
    var combinedVotes := Sum(votes);
    var minVotes := MinVotes(combinedVotes, t);
    for i := 0 to |votes|
      invariant |v| == i
      invariant forall j :: 0 <= j < i ==> v[j] == Filtered(votes, threshold)[j]
    {
      if (votes[i] as real) < minVotes {
        v := v + [0];
      } else {
        v := v + [votes[i]];
      }
    }
  }

  /** Filtering never adds votes. */
  lemma FilteredSum(votes: seq<nat>, threshold: Option<real>)
    ensures Sum(Filtered(votes, threshold)) <= Sum(votes)
  {
    SumMonotone(Filtered(votes, threshold), votes);
  }

  /** A smaller total never raises the cutoff above the old one, unless the
      cutoff is not positive (a negative threshold). */
  lemma MinVotesShrinks(a: nat, b: nat, t: real)
    requires a <= b
    ensures MinVotes(a, t) <= MinVotes(b, t) || MinVotes(a, t) <= 0.0
  {
    if t >= 0.0 {
      ScaleMonotone(a as real, b as real, t);
    } else {
      ScaleNegative(a as real, t);
    }
  }

  /** A larger threshold never lowers the cutoff. */
  lemma MinVotesGrows(total: nat, t1: real, t2: real)
    requires t1 <= t2
    ensures MinVotes(total, t1) <= MinVotes(total, t2)
  {
    assert (total as real) * t2 - (total as real) * t1 == (total as real) * (t2 - t1);
  }

  /** Applying the same threshold twice is the same as applying it once:
      the total only shrinks, so every surviving party stays at or above the
      new, lower cutoff, and zeroed parties stay zero. */
  lemma FilteredIdempotent(votes: seq<nat>, threshold: Option<real>)
    ensures Filtered(Filtered(votes, threshold), threshold) == Filtered(votes, threshold)
  {
    if threshold.Some? {
      var t := threshold.value;
      var once := Filtered(votes, threshold);
      FilteredSum(votes, threshold);
      MinVotesShrinks(Sum(once), Sum(votes), t);
      forall i | 0 <= i < |votes|
        ensures Filtered(once, threshold)[i] == once[i]
      {
      }
    }
  }

  /** A stricter threshold zeroes every party a laxer one zeroes. */
  lemma FilteredMonotone(votes: seq<nat>, t1: real, t2: real, i: nat)
    requires t1 <= t2 && i < |votes|
    requires Filtered(votes, Some(t1))[i] == 0
    ensures Filtered(votes, Some(t2))[i] == 0
  {
    MinVotesGrows(Sum(votes), t1, t2);
  }

  /** The unit tests' threshold fixture: with votes 41, 56, 3 (total 100) a
      threshold of 0.03 keeps the small party, whose 3 votes equal the
      cutoff, and 0.031 filters it out. */
  lemma ThresholdExample(votes: seq<nat>)
    requires votes == [41, 56, 3]
    ensures Filtered(votes, Some(0.03)) == [41, 56, 3]
    ensures Filtered(votes, Some(0.031)) == [41, 56, 0]
  {
    assert Sum([41, 56, 3]) == 100;
    assert MinVotes(Sum(votes), 0.03) == 3.0 && MinVotes(Sum(votes), 0.031) == 3.1;
    var keep, drop := Filtered(votes, Some(0.03)), Filtered(votes, Some(0.031));
    assert keep[0] == 41 && keep[1] == 56 && keep[2] == 3;
    assert drop[0] == 41 && drop[1] == 56 && drop[2] == 0;
  }
}
