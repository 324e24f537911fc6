/** The quota method of Balinski and Young: seats are handed out one round
    at a time; in the round that hands out seat t a party whose seats
    already reach its upper quota ceil(v * t / N) is barred, and the seat
    goes to the first party, in list order, with the largest claim
    v / (a + 1) among the others (a being the seats it holds). */
module QuotaMethod {
  import opened Common
  import opened QuotaCheck

  /** Party i already holds its upper quota ceil(v * t / N) for the round
      that hands out seat t = (seats so far) + 1. With no votes at all the
      quota is undefined and nobody is barred. */
  predicate Barred(votes: seq<nat>, reps: seq<nat>, i: nat)
    requires |reps| == |votes| && i < |votes|
  {
    Sum(votes) > 0 && reps[i] >= UpperQuota(votes, Sum(reps) + 1, i)
  }

  /** The claim of party i to the next seat; zero when it is barred. */
  function Claim(votes: seq<nat>, reps: seq<nat>, i: nat): (c: real)
    requires |reps| == |votes| && i < |votes|
    ensures c >= 0.0
  {
    if Barred(votes, reps, i) then 0.0 else votes[i] as real / (reps[i] + 1) as real
  }

  function Claims(votes: seq<nat>, reps: seq<nat>): (cs: seq<real>)
    requires |reps| == |votes|
    ensures |cs| == |votes|
  {
    seq(|votes|, i requires 0 <= i < |votes| => Claim(votes, reps, i))
  }

  /** The first position holding the largest value (FirstMaxIsMax). */
  function FirstMax(s: seq<real>): (k: nat)
    requires |s| >= 1
    ensures k < |s|
  {
    ScanMax(s, 1, 0)
  }

  /** The scan behind FirstMax: `best` is the first largest of s[..i], and
      a later value replaces it only when strictly larger. */
  function ScanMax(s: seq<real>, i: nat, best: nat): (k: nat)
    requires best < i <= |s|
    ensures k < |s|
    decreases |s| - i
  {
    if i == |s| then best
    else ScanMax(s, i + 1, if s[i] > s[best] then i else best)
  }

  /** FirstMax finds a largest value, and every earlier value is smaller. */
  lemma FirstMaxIsMax(s: seq<real>)
    requires |s| >= 1
    ensures forall j :: 0 <= j < |s| ==> s[j] <= s[FirstMax(s)]
    ensures forall j :: 0 <= j < FirstMax(s) ==> s[j] < s[FirstMax(s)]
  {
    ScanMaxIsMax(s, 1, 0);
  }

  lemma {:induction false} ScanMaxIsMax(s: seq<real>, i: nat, best: nat)
    requires best < i <= |s|
    requires forall j :: 0 <= j < i ==> s[j] <= s[best]
    requires forall j :: 0 <= j < best ==> s[j] < s[best]
    ensures forall j :: 0 <= j < |s| ==> s[j] <= s[ScanMax(s, i, best)]
    ensures forall j :: 0 <= j < ScanMax(s, i, best) ==> s[j] < s[ScanMax(s, i, best)]
    decreases |s| - i
  {
    if i < |s| {
      ScanMaxIsMax(s, i + 1, if s[i] > s[best] then i else best);
    }
  }

  /** The party that receives the next seat. */
  function NextParty(votes: seq<nat>, reps: seq<nat>): (k: nat)
    requires |votes| >= 1 && |reps| == |votes|
    ensures k < |votes|
  {
    FirstMax(Claims(votes, reps))
  }

  /** One round: the next party gets one more seat. */
  function Round(votes: seq<nat>, reps: seq<nat>): (r: seq<nat>)
    requires |votes| >= 1 && |reps| == |votes|
    ensures |r| == |votes|
  {
    Bump(reps, NextParty(votes, reps))
  }

  /** Party k gets one more seat. */
  function Bump(reps: seq<nat>, k: nat): (r: seq<nat>)
    requires k < |reps|
    ensures |r| == |reps|
  {
    reps[k := reps[k] + 1]
  }

  /** One more seat for one party adds one to the total, and only that
      party's entry changes. */
  lemma BumpSum(reps: seq<nat>, k: nat)
    requires k < |reps|
    ensures Sum(Bump(reps, k)) == Sum(reps) + 1
    ensures forall i :: 0 <= i < |reps| ==> Bump(reps, k)[i] == reps[i] + if i == k then 1 else 0
  {
    SumUpdate(reps, k, reps[k] + 1);
  }

  /** The seats after t rounds. */
  function QuotaAfter(votes: seq<nat>, t: nat): (r: seq<nat>)
    requires |votes| >= 1
    ensures |r| == |votes|
  {
    if t == 0 then Zeros(|votes|) else Round(votes, QuotaAfter(votes, t - 1))
  }

  /** quota: rejects tiesallowed=False, otherwise runs one round per seat. */
  function QuotaAllocation(votes: seq<nat>, seats: nat, tiesAllowed: bool): Outcome
    requires |votes| >= 1
  {
    if !tiesAllowed then Unsupported else Allocated(QuotaAfter(votes, seats))
  }

  /** quota: a loop that hands out one seat per round until the seats are
      gone. */
  method ComputeQuota(votes: seq<nat>, seats: nat, tiesAllowed: bool) returns (out: Outcome)
    requires |votes| >= 1
    ensures out == QuotaAllocation(votes, seats, tiesAllowed)
  {
    if !tiesAllowed {
      return Unsupported;
    }
    var representatives := new nat[|votes|](i => 0);
    assert representatives[..] == Zeros(|votes|);
    QuotaAfterSum(votes, 0);
    while Sum(representatives[..]) < seats
      invariant Sum(representatives[..]) <= seats
      invariant representatives[..] == QuotaAfter(votes, Sum(representatives[..]))
      decreases seats - Sum(representatives[..])
    {
      ghost var before := representatives[..];
      var next := NextRecipient(representatives, votes, Sum(representatives[..]));
      representatives[next] := representatives[next] + 1;
      assert representatives[..] == Bump(before, next);
      QuotaStep(votes, before, next);
    }
    out := Allocated(representatives[..]);
  }

  /** One round: every party's claim, upper quota applied, and the first
      party with the largest. */
  method NextRecipient(representatives: array<nat>, votes: seq<nat>, total: nat) returns (next: nat)
    requires representatives.Length == |votes| >= 1 && total == Sum(representatives[..])
    ensures next == NextParty(votes, representatives[..])
  {
    ghost var claims := Claims(votes, representatives[..]);
    var n := Sum(votes);
    next := 0;
    var best := 0.0;
    for i := 0 to |votes|
      invariant i >= 1 ==> next < i && best == claims[next] && ScanMax(claims, i, next) == FirstMax(claims)
      invariant i == 0 ==> next == 0
    {
      var claim := votes[i] as real / (representatives[i] + 1) as real;
      if n > 0 && representatives[i] >= Ceil((votes[i] * (total + 1)) as real / n as real) {
        claim := 0.0;
      }
      ClaimIs(votes, representatives[..], i, claim);
      if i == 0 || claim > best {
        next, best := i, claim;
      }
    }
  }

  /** The claim as one round computes it, from the vote total and the
      seats handed out so far. */
  lemma ClaimIs(votes: seq<nat>, reps: seq<nat>, i: nat, claim: real)
    requires |reps| == |votes| && i < |votes|
    requires claim == if Sum(votes) > 0 && reps[i] >= Ceil((votes[i] * (Sum(reps) + 1)) as real / Sum(votes) as real)
                      then 0.0 else votes[i] as real / (reps[i] + 1) as real
    ensures claim == Claims(votes, reps)[i]
  {
  }

  /** Each round hands out exactly one seat. */
  lemma RoundSum(votes: seq<nat>, reps: seq<nat>)
    requires |votes| >= 1 && |reps| == |votes|
    ensures Sum(Round(votes, reps)) == Sum(reps) + 1
  {
    BumpSum(reps, NextParty(votes, reps));
  }

  /** A round takes the seats after t rounds to the seats after t + 1. */
  lemma QuotaStep(votes: seq<nat>, reps: seq<nat>, next: nat)
    requires |votes| >= 1 && |reps| == |votes| && reps == QuotaAfter(votes, Sum(reps))
    requires next == NextParty(votes, reps)
    ensures Sum(Bump(reps, next)) == Sum(reps) + 1
    ensures Bump(reps, next) == QuotaAfter(votes, Sum(reps) + 1)
  {
    BumpSum(reps, next);
  }

  /** After t rounds exactly t seats are handed out. */
  lemma {:induction false} QuotaAfterSum(votes: seq<nat>, t: nat)
    requires |votes| >= 1
    ensures Sum(QuotaAfter(votes, t)) == t
  {
    if t > 0 {
      QuotaAfterSum(votes, t - 1);
      RoundSum(votes, QuotaAfter(votes, t - 1));
    } else {
      SumOfZeros(Zeros(|votes|));
    }
  }

  /** Ceilings of values add up to at least the values' sum. */
  lemma {:induction false} SumCeilings(qs: seq<real>, cs: seq<nat>)
    requires |cs| == |qs| && forall i :: 0 <= i < |qs| ==> qs[i] <= cs[i] as real
    ensures SumR(qs) <= Sum(cs) as real
  {
    if qs != [] {
      SumCeilings(qs[1..], cs[1..]);
    }
  }

  /** A vector with a smaller sum is smaller somewhere. */
  lemma BelowSomewhere(a: seq<nat>, b: seq<nat>) returns (p: nat)
    requires |a| == |b| && Sum(a) < Sum(b)
    ensures p < |a| && a[p] < b[p]
  {
    if forall i :: 0 <= i < |a| ==> b[i] <= a[i] {
      SumMonotone(b, a);
      assert false;
    }
    p :| 0 <= p < |a| && a[p] < b[p];
  }

  /** The key fact of the method: whatever the seats held, some party with
      votes is not barred, because the upper quotas of the next round add up
      to at least the seats it will have handed out. */
  lemma SomeoneEligible(votes: seq<nat>, reps: seq<nat>) returns (p: nat)
    requires Sum(votes) > 0 && |reps| == |votes|
    ensures p < |votes| && votes[p] > 0 && !Barred(votes, reps, p)
  {
    var t := Sum(reps) + 1;
    var qs := seq(|votes|, i requires 0 <= i < |votes| => Entitlement(votes, t, i));
    var cs := seq(|votes|, i requires 0 <= i < |votes| => UpperQuota(votes, t, i));
    EntitlementsAddUp(votes, t, qs);
    SumCeilings(qs, cs);
    p := BelowSomewhere(reps, cs);
    NoVotesNoQuota(votes, t, p);
  }

  /** A party without votes has upper quota zero. */
  lemma NoVotesNoQuota(votes: seq<nat>, t: nat, i: nat)
    requires Sum(votes) > 0 && i < |votes|
    ensures votes[i] == 0 ==> UpperQuota(votes, t, i) == 0
  {
    assert votes[i] == 0 ==> votes[i] * t == 0;
  }

  /** The seat of each round goes to a party with votes that is not barred,
      whose claim no other party's claim exceeds and every earlier party's
      claim falls short of. */
  lemma NextPartyEligible(votes: seq<nat>, reps: seq<nat>)
    requires Sum(votes) > 0 && |votes| >= 1 && |reps| == |votes|
    ensures var k := NextParty(votes, reps);
            votes[k] > 0 && !Barred(votes, reps, k) &&
            (forall j :: 0 <= j < |votes| ==> Claim(votes, reps, j) <= Claim(votes, reps, k)) &&
            (forall j :: 0 <= j < k ==> Claim(votes, reps, j) < Claim(votes, reps, k))
  {
    var cs := Claims(votes, reps);
    var k := FirstMax(cs);
    FirstMaxIsMax(cs);
    NextPartyUnbarred(votes, reps);
    forall j | 0 <= j < |votes|
      ensures Claim(votes, reps, j) <= Claim(votes, reps, k)
      ensures j < k ==> Claim(votes, reps, j) < Claim(votes, reps, k)
    {
      assert cs[j] == Claim(votes, reps, j);
    }
  }

  /** The party picked in a round has votes and is not barred. */
  lemma NextPartyUnbarred(votes: seq<nat>, reps: seq<nat>)
    requires Sum(votes) > 0 && |votes| >= 1 && |reps| == |votes|
    ensures votes[NextParty(votes, reps)] > 0 && !Barred(votes, reps, NextParty(votes, reps))
  {
    var p := SomeoneEligible(votes, reps);
    var cs := Claims(votes, reps);
    var k := FirstMax(cs);
    FirstMaxIsMax(cs);
    assert cs[p] == Claim(votes, reps, p) > 0.0 by {
      PositiveClaim(votes[p], reps[p]);
    }
    assert cs[k] == Claim(votes, reps, k) > 0.0;
    ClaimedHasVotes(votes, reps, k);
  }

  /** A positive claim belongs to a party with votes that is not barred. */
  lemma ClaimedHasVotes(votes: seq<nat>, reps: seq<nat>, k: nat)
    requires |reps| == |votes| && k < |votes| && Claim(votes, reps, k) > 0.0
    ensures votes[k] > 0 && !Barred(votes, reps, k)
  {
  }

  lemma PositiveClaim(v: nat, a: nat)
    requires v > 0
    ensures v as real / (a + 1) as real > 0.0
  {
  }

  /** Upper quotas never shrink from one round to the next. */
  lemma UpperQuotaGrows(votes: seq<nat>, t: nat, i: nat)
    requires Sum(votes) > 0 && i < |votes|
    ensures UpperQuota(votes, t, i) <= UpperQuota(votes, t + 1, i)
  {
    assert votes[i] * t <= votes[i] * (t + 1);
    DivideMonotone((votes[i] * t) as real, (votes[i] * (t + 1)) as real, Sum(votes) as real);
  }

  /** A round keeps every party within the upper quota of the seat it
      hands out. */
  lemma RoundUpper(votes: seq<nat>, reps: seq<nat>, t: nat, i: nat)
    requires Sum(votes) > 0 && |votes| >= 1 && |reps| == |votes| && i < |votes| && Sum(reps) == t
    requires reps[i] <= UpperQuota(votes, t, i)
    ensures Round(votes, reps)[i] <= UpperQuota(votes, t + 1, i)
  {
    var k := NextParty(votes, reps);
    BumpSum(reps, k);
    if i == k {
      NextPartyUnbarred(votes, reps);
    } else {
      UpperQuotaGrows(votes, t, i);
    }
  }

  /** After t rounds no party holds more than its upper quota
      ceil(v * t / N). */
  lemma {:induction false} QuotaUpperBound(votes: seq<nat>, t: nat, i: nat)
    requires Sum(votes) > 0 && i < |votes|
    ensures QuotaAfter(votes, t)[i] <= UpperQuota(votes, t, i)
  {
    if t > 0 {
      QuotaUpperBound(votes, t - 1, i);
      QuotaUpperStep(votes, t - 1, i);
    }
  }

  lemma QuotaUpperStep(votes: seq<nat>, t: nat, i: nat)
    requires Sum(votes) > 0 && i < |votes|
    requires QuotaAfter(votes, t)[i] <= UpperQuota(votes, t, i)
    ensures QuotaAfter(votes, t + 1)[i] <= UpperQuota(votes, t + 1, i)
  {
    QuotaAfterSum(votes, t);
    RoundUpper(votes, QuotaAfter(votes, t), t, i);
  }

  /** A party without votes never gets a seat when votes are cast. */
  lemma {:induction false} QuotaZeroVotes(votes: seq<nat>, t: nat, i: nat)
    requires Sum(votes) > 0 && i < |votes| && votes[i] == 0
    ensures QuotaAfter(votes, t)[i] == 0
  {
    if t > 0 {
      QuotaZeroVotes(votes, t - 1, i);
      NextPartyUnbarred(votes, QuotaAfter(votes, t - 1));
    }
  }

  /** House monotonicity: with more seats no party gets fewer. */
  lemma {:induction false} QuotaHouseMonotone(votes: seq<nat>, s: nat, t: nat, i: nat)
    requires |votes| >= 1 && s <= t && i < |votes|
    ensures QuotaAfter(votes, s)[i] <= QuotaAfter(votes, t)[i]
    decreases t - s
  {
    if s < t {
      QuotaHouseMonotone(votes, s, t - 1, i);
      var reps := QuotaAfter(votes, t - 1);
      BumpSum(reps, NextParty(votes, reps));
    }
  }

  /** What quota returns: Unsupported exactly when ties are not allowed;
      otherwise one entry per party, summing to the seats, each within its
      upper quota, and zero for a party without votes. */
  lemma QuotaAllocationShape(votes: seq<nat>, seats: nat, tiesAllowed: bool, i: nat)
    requires |votes| >= 1 && i < |votes|
    ensures QuotaAllocation(votes, seats, tiesAllowed) == Unsupported <==> !tiesAllowed
    ensures tiesAllowed ==>
              var r := QuotaAllocation(votes, seats, tiesAllowed).seats;
              |r| == |votes| && Sum(r) == seats &&
              (Sum(votes) > 0 ==> r[i] <= UpperQuota(votes, seats, i)) &&
              (Sum(votes) > 0 && votes[i] == 0 ==> r[i] == 0)
  {
    QuotaAfterSum(votes, seats);
    if Sum(votes) > 0 {
      QuotaUpperBound(votes, seats, i);
      if votes[i] == 0 {
        QuotaZeroVotes(votes, seats, i);
      }
    }
  }

  /** A party's claim, from its upper quota for the round. */
  lemma ClaimAt(votes: seq<nat>, reps: seq<nat>, t: nat, i: nat, u: nat, c: real)
    requires |reps| == |votes| && i < |votes| && Sum(votes) > 0 && Sum(reps) + 1 == t
    requires UpperQuota(votes, t, i) == u
    requires c == if reps[i] >= u then 0.0 else votes[i] as real / (reps[i] + 1) as real
    ensures Claims(votes, reps)[i] == c
  {
  }

  /** One step of the scan. */
  lemma ScanStep(s: seq<real>, i: nat, best: nat, next: nat)
    requires best < i < |s| && next == if s[i] > s[best] then i else best
    ensures ScanMax(s, i, best) == ScanMax(s, i + 1, next)
  {
  }
}
