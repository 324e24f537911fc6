/** Fixtures of the quota method, one round per lemma: the upper quotas
    of the round, the claims, the scan for the first largest claim, and the
    seats after the round. */
module QuotaExamples {
  import opened Common
  import opened QuotaCheck
  import opened QuotaMethod

  lemma UpperQuotaBindsQuotas1()
    ensures Sum([2, 1, 1]) == 4 && Sum([0, 0, 0]) == 0
    ensures UpperQuota([2, 1, 1], 1, 0) == 1 && UpperQuota([2, 1, 1], 1, 1) == 1 && UpperQuota([2, 1, 1], 1, 2) == 1
  {
  }

  lemma UpperQuotaBindsNext1(votes: seq<nat>, reps: seq<nat>)
    requires votes == [2, 1, 1] && reps == [0, 0, 0]
    ensures NextParty(votes, reps) == 0
  {
    UpperQuotaBindsQuotas1();
    ClaimAt(votes, reps, 1, 0, 1, 2.0);
    ClaimAt(votes, reps, 1, 1, 1, 1.0);
    ClaimAt(votes, reps, 1, 2, 1, 1.0);
    var cs := Claims(votes, reps);
    ScanStep(cs, 1, 0, 0);
    ScanStep(cs, 2, 0, 0);
  }

  lemma UpperQuotaBindsRound1(votes: seq<nat>)
    requires votes == [2, 1, 1] && QuotaAfter(votes, 0) == [0, 0, 0]
    ensures QuotaAfter(votes, 1) == [1, 0, 0]
  {
    UpperQuotaBindsNext1(votes, [0, 0, 0]);
    assert Bump([0, 0, 0], 0) == [1, 0, 0];
  }

  lemma UpperQuotaBindsQuotas2()
    ensures Sum([2, 1, 1]) == 4 && Sum([1, 0, 0]) == 1
    ensures UpperQuota([2, 1, 1], 2, 0) == 1 && UpperQuota([2, 1, 1], 2, 1) == 1 && UpperQuota([2, 1, 1], 2, 2) == 1
  {
  }

  lemma UpperQuotaBindsNext2(votes: seq<nat>, reps: seq<nat>)
    requires votes == [2, 1, 1] && reps == [1, 0, 0]
    ensures NextParty(votes, reps) == 1
  {
    UpperQuotaBindsQuotas2();
    ClaimAt(votes, reps, 2, 0, 1, 0.0);
    ClaimAt(votes, reps, 2, 1, 1, 1.0);
    ClaimAt(votes, reps, 2, 2, 1, 1.0);
    var cs := Claims(votes, reps);
    ScanStep(cs, 1, 0, 1);
    ScanStep(cs, 2, 1, 1);
  }

  lemma UpperQuotaBindsRound2(votes: seq<nat>)
    requires votes == [2, 1, 1] && QuotaAfter(votes, 1) == [1, 0, 0]
    ensures QuotaAfter(votes, 2) == [1, 1, 0]
  {
    UpperQuotaBindsNext2(votes, [1, 0, 0]);
    assert Bump([1, 0, 0], 1) == [1, 1, 0];
  }

  /** The upper quota binds: with votes 2, 1, 1 and two seats the first
      party's second claim 2/2 is as large as the others', but its upper quota
      for the second seat is ceil(2 * 2 / 4) = 1, so the seat goes to the
      second party (a divisor rule with divisors 1, 2, 3, ... would give the
      first party both). */
  lemma UpperQuotaBindsExample(votes: seq<nat>)
    requires votes == [2, 1, 1]
    ensures QuotaAllocation(votes, 2, true) == Allocated([1, 1, 0])
    ensures QuotaAllocation(votes, 2, false) == Unsupported
  {
    assert QuotaAfter(votes, 0) == [0, 0, 0];
    UpperQuotaBindsRound1(votes);
    UpperQuotaBindsRound2(votes);
  }

  lemma BalinskiYoungQuotas1()
    ensures Sum([9061, 7179, 5259, 3319, 1182]) == 26000 && Sum([0, 0, 0, 0, 0]) == 0
    ensures UpperQuota([9061, 7179, 5259, 3319, 1182], 1, 0) == 1 && UpperQuota([9061, 7179, 5259, 3319, 1182], 1, 1) == 1 && UpperQuota([9061, 7179, 5259, 3319, 1182], 1, 2) == 1 && UpperQuota([9061, 7179, 5259, 3319, 1182], 1, 3) == 1 && UpperQuota([9061, 7179, 5259, 3319, 1182], 1, 4) == 1
  {
  }

  lemma BalinskiYoungNext1(votes: seq<nat>, reps: seq<nat>)
    requires votes == [9061, 7179, 5259, 3319, 1182] && reps == [0, 0, 0, 0, 0]
    ensures NextParty(votes, reps) == 0
  {
    BalinskiYoungQuotas1();
    ClaimAt(votes, reps, 1, 0, 1, 9061.0);
    ClaimAt(votes, reps, 1, 1, 1, 7179.0);
    ClaimAt(votes, reps, 1, 2, 1, 5259.0);
    ClaimAt(votes, reps, 1, 3, 1, 3319.0);
    ClaimAt(votes, reps, 1, 4, 1, 1182.0);
    var cs := Claims(votes, reps);
    ScanStep(cs, 1, 0, 0);
    ScanStep(cs, 2, 0, 0);
    ScanStep(cs, 3, 0, 0);
    ScanStep(cs, 4, 0, 0);
  }

  lemma BalinskiYoungRound1(votes: seq<nat>)
    requires votes == [9061, 7179, 5259, 3319, 1182] && QuotaAfter(votes, 0) == [0, 0, 0, 0, 0]
    ensures QuotaAfter(votes, 1) == [1, 0, 0, 0, 0]
  {
    BalinskiYoungNext1(votes, [0, 0, 0, 0, 0]);
    assert Bump([0, 0, 0, 0, 0], 0) == [1, 0, 0, 0, 0];
  }

  lemma BalinskiYoungQuotas2()
    ensures Sum([9061, 7179, 5259, 3319, 1182]) == 26000 && Sum([1, 0, 0, 0, 0]) == 1
    ensures UpperQuota([9061, 7179, 5259, 3319, 1182], 2, 0) == 1 && UpperQuota([9061, 7179, 5259, 3319, 1182], 2, 1) == 1 && UpperQuota([9061, 7179, 5259, 3319, 1182], 2, 2) == 1 && UpperQuota([9061, 7179, 5259, 3319, 1182], 2, 3) == 1 && UpperQuota([9061, 7179, 5259, 3319, 1182], 2, 4) == 1
  {
  }

  lemma BalinskiYoungNext2(votes: seq<nat>, reps: seq<nat>)
    requires votes == [9061, 7179, 5259, 3319, 1182] && reps == [1, 0, 0, 0, 0]
    ensures NextParty(votes, reps) == 1
  {
    BalinskiYoungQuotas2();
    ClaimAt(votes, reps, 2, 0, 1, 0.0);
    ClaimAt(votes, reps, 2, 1, 1, 7179.0);
    ClaimAt(votes, reps, 2, 2, 1, 5259.0);
    ClaimAt(votes, reps, 2, 3, 1, 3319.0);
    ClaimAt(votes, reps, 2, 4, 1, 1182.0);
    var cs := Claims(votes, reps);
    ScanStep(cs, 1, 0, 1);
    ScanStep(cs, 2, 1, 1);
    ScanStep(cs, 3, 1, 1);
    ScanStep(cs, 4, 1, 1);
  }

  lemma BalinskiYoungRound2(votes: seq<nat>)
    requires votes == [9061, 7179, 5259, 3319, 1182] && QuotaAfter(votes, 1) == [1, 0, 0, 0, 0]
    ensures QuotaAfter(votes, 2) == [1, 1, 0, 0, 0]
  {
    BalinskiYoungNext2(votes, [1, 0, 0, 0, 0]);
    assert Bump([1, 0, 0, 0, 0], 1) == [1, 1, 0, 0, 0];
  }

  lemma BalinskiYoungQuotas3()
    ensures Sum([9061, 7179, 5259, 3319, 1182]) == 26000 && Sum([1, 1, 0, 0, 0]) == 2
    ensures UpperQuota([9061, 7179, 5259, 3319, 1182], 3, 0) == 2 && UpperQuota([9061, 7179, 5259, 3319, 1182], 3, 1) == 1 && UpperQuota([9061, 7179, 5259, 3319, 1182], 3, 2) == 1 && UpperQuota([9061, 7179, 5259, 3319, 1182], 3, 3) == 1 && UpperQuota([9061, 7179, 5259, 3319, 1182], 3, 4) == 1
  {
  }

  lemma BalinskiYoungNext3(votes: seq<nat>, reps: seq<nat>)
    requires votes == [9061, 7179, 5259, 3319, 1182] && reps == [1, 1, 0, 0, 0]
    ensures NextParty(votes, reps) == 2
  {
    BalinskiYoungQuotas3();
    ClaimAt(votes, reps, 3, 0, 2, 9061.0 / 2.0);
    ClaimAt(votes, reps, 3, 1, 1, 0.0);
    ClaimAt(votes, reps, 3, 2, 1, 5259.0);
    ClaimAt(votes, reps, 3, 3, 1, 3319.0);
    ClaimAt(votes, reps, 3, 4, 1, 1182.0);
    var cs := Claims(votes, reps);
    ScanStep(cs, 1, 0, 0);
    ScanStep(cs, 2, 0, 2);
    ScanStep(cs, 3, 2, 2);
    ScanStep(cs, 4, 2, 2);
  }

  lemma BalinskiYoungRound3(votes: seq<nat>)
    requires votes == [9061, 7179, 5259, 3319, 1182] && QuotaAfter(votes, 2) == [1, 1, 0, 0, 0]
    ensures QuotaAfter(votes, 3) == [1, 1, 1, 0, 0]
  {
    BalinskiYoungNext3(votes, [1, 1, 0, 0, 0]);
    assert Bump([1, 1, 0, 0, 0], 2) == [1, 1, 1, 0, 0];
  }

  lemma BalinskiYoungQuotas4()
    ensures Sum([9061, 7179, 5259, 3319, 1182]) == 26000 && Sum([1, 1, 1, 0, 0]) == 3
    ensures UpperQuota([9061, 7179, 5259, 3319, 1182], 4, 0) == 2 && UpperQuota([9061, 7179, 5259, 3319, 1182], 4, 1) == 2 && UpperQuota([9061, 7179, 5259, 3319, 1182], 4, 2) == 1 && UpperQuota([9061, 7179, 5259, 3319, 1182], 4, 3) == 1 && UpperQuota([9061, 7179, 5259, 3319, 1182], 4, 4) == 1
  {
  }

  lemma BalinskiYoungNext4(votes: seq<nat>, reps: seq<nat>)
    requires votes == [9061, 7179, 5259, 3319, 1182] && reps == [1, 1, 1, 0, 0]
    ensures NextParty(votes, reps) == 0
  {
    BalinskiYoungQuotas4();
    ClaimAt(votes, reps, 4, 0, 2, 9061.0 / 2.0);
    ClaimAt(votes, reps, 4, 1, 2, 7179.0 / 2.0);
    ClaimAt(votes, reps, 4, 2, 1, 0.0);
    ClaimAt(votes, reps, 4, 3, 1, 3319.0);
    ClaimAt(votes, reps, 4, 4, 1, 1182.0);
    var cs := Claims(votes, reps);
    ScanStep(cs, 1, 0, 0);
    ScanStep(cs, 2, 0, 0);
    ScanStep(cs, 3, 0, 0);
    ScanStep(cs, 4, 0, 0);
  }

  lemma BalinskiYoungRound4(votes: seq<nat>)
    requires votes == [9061, 7179, 5259, 3319, 1182] && QuotaAfter(votes, 3) == [1, 1, 1, 0, 0]
    ensures QuotaAfter(votes, 4) == [2, 1, 1, 0, 0]
  {
    BalinskiYoungNext4(votes, [1, 1, 1, 0, 0]);
    assert Bump([1, 1, 1, 0, 0], 0) == [2, 1, 1, 0, 0];
  }

  lemma BalinskiYoungQuotas5()
    ensures Sum([9061, 7179, 5259, 3319, 1182]) == 26000 && Sum([2, 1, 1, 0, 0]) == 4
    ensures UpperQuota([9061, 7179, 5259, 3319, 1182], 5, 0) == 2 && UpperQuota([9061, 7179, 5259, 3319, 1182], 5, 1) == 2 && UpperQuota([9061, 7179, 5259, 3319, 1182], 5, 2) == 2 && UpperQuota([9061, 7179, 5259, 3319, 1182], 5, 3) == 1 && UpperQuota([9061, 7179, 5259, 3319, 1182], 5, 4) == 1
  {
  }

  lemma BalinskiYoungNext5(votes: seq<nat>, reps: seq<nat>)
    requires votes == [9061, 7179, 5259, 3319, 1182] && reps == [2, 1, 1, 0, 0]
    ensures NextParty(votes, reps) == 1
  {
    BalinskiYoungQuotas5();
    ClaimAt(votes, reps, 5, 0, 2, 0.0);
    ClaimAt(votes, reps, 5, 1, 2, 7179.0 / 2.0);
    ClaimAt(votes, reps, 5, 2, 2, 5259.0 / 2.0);
    ClaimAt(votes, reps, 5, 3, 1, 3319.0);
    ClaimAt(votes, reps, 5, 4, 1, 1182.0);
    var cs := Claims(votes, reps);
    ScanStep(cs, 1, 0, 1);
    ScanStep(cs, 2, 1, 1);
    ScanStep(cs, 3, 1, 1);
    ScanStep(cs, 4, 1, 1);
  }

  lemma BalinskiYoungRound5(votes: seq<nat>)
    requires votes == [9061, 7179, 5259, 3319, 1182] && QuotaAfter(votes, 4) == [2, 1, 1, 0, 0]
    ensures QuotaAfter(votes, 5) == [2, 2, 1, 0, 0]
  {
    BalinskiYoungNext5(votes, [2, 1, 1, 0, 0]);
    assert Bump([2, 1, 1, 0, 0], 1) == [2, 2, 1, 0, 0];
  }

  lemma BalinskiYoungQuotas6()
    ensures Sum([9061, 7179, 5259, 3319, 1182]) == 26000 && Sum([2, 2, 1, 0, 0]) == 5
    ensures UpperQuota([9061, 7179, 5259, 3319, 1182], 6, 0) == 3 && UpperQuota([9061, 7179, 5259, 3319, 1182], 6, 1) == 2 && UpperQuota([9061, 7179, 5259, 3319, 1182], 6, 2) == 2 && UpperQuota([9061, 7179, 5259, 3319, 1182], 6, 3) == 1 && UpperQuota([9061, 7179, 5259, 3319, 1182], 6, 4) == 1
  {
  }

  lemma BalinskiYoungNext6(votes: seq<nat>, reps: seq<nat>)
    requires votes == [9061, 7179, 5259, 3319, 1182] && reps == [2, 2, 1, 0, 0]
    ensures NextParty(votes, reps) == 3
  {
    BalinskiYoungQuotas6();
    ClaimAt(votes, reps, 6, 0, 3, 9061.0 / 3.0);
    ClaimAt(votes, reps, 6, 1, 2, 0.0);
    ClaimAt(votes, reps, 6, 2, 2, 5259.0 / 2.0);
    ClaimAt(votes, reps, 6, 3, 1, 3319.0);
    ClaimAt(votes, reps, 6, 4, 1, 1182.0);
    var cs := Claims(votes, reps);
    ScanStep(cs, 1, 0, 0);
    ScanStep(cs, 2, 0, 0);
    ScanStep(cs, 3, 0, 3);
    ScanStep(cs, 4, 3, 3);
  }

  lemma BalinskiYoungRound6(votes: seq<nat>)
    requires votes == [9061, 7179, 5259, 3319, 1182] && QuotaAfter(votes, 5) == [2, 2, 1, 0, 0]
    ensures QuotaAfter(votes, 6) == [2, 2, 1, 1, 0]
  {
    BalinskiYoungNext6(votes, [2, 2, 1, 0, 0]);
    assert Bump([2, 2, 1, 0, 0], 3) == [2, 2, 1, 1, 0];
  }

  lemma BalinskiYoungQuotas7()
    ensures Sum([9061, 7179, 5259, 3319, 1182]) == 26000 && Sum([2, 2, 1, 1, 0]) == 6
    ensures UpperQuota([9061, 7179, 5259, 3319, 1182], 7, 0) == 3 && UpperQuota([9061, 7179, 5259, 3319, 1182], 7, 1) == 2 && UpperQuota([9061, 7179, 5259, 3319, 1182], 7, 2) == 2 && UpperQuota([9061, 7179, 5259, 3319, 1182], 7, 3) == 1 && UpperQuota([9061, 7179, 5259, 3319, 1182], 7, 4) == 1
  {
  }

  lemma BalinskiYoungNext7(votes: seq<nat>, reps: seq<nat>)
    requires votes == [9061, 7179, 5259, 3319, 1182] && reps == [2, 2, 1, 1, 0]
    ensures NextParty(votes, reps) == 0
  {
    BalinskiYoungQuotas7();
    ClaimAt(votes, reps, 7, 0, 3, 9061.0 / 3.0);
    ClaimAt(votes, reps, 7, 1, 2, 0.0);
    ClaimAt(votes, reps, 7, 2, 2, 5259.0 / 2.0);
    ClaimAt(votes, reps, 7, 3, 1, 0.0);
    ClaimAt(votes, reps, 7, 4, 1, 1182.0);
    var cs := Claims(votes, reps);
    ScanStep(cs, 1, 0, 0);
    ScanStep(cs, 2, 0, 0);
    ScanStep(cs, 3, 0, 0);
    ScanStep(cs, 4, 0, 0);
  }

  lemma BalinskiYoungRound7(votes: seq<nat>)
    requires votes == [9061, 7179, 5259, 3319, 1182] && QuotaAfter(votes, 6) == [2, 2, 1, 1, 0]
    ensures QuotaAfter(votes, 7) == [3, 2, 1, 1, 0]
  {
    BalinskiYoungNext7(votes, [2, 2, 1, 1, 0]);
    assert Bump([2, 2, 1, 1, 0], 0) == [3, 2, 1, 1, 0];
  }

  lemma BalinskiYoungQuotas8()
    ensures Sum([9061, 7179, 5259, 3319, 1182]) == 26000 && Sum([3, 2, 1, 1, 0]) == 7
    ensures UpperQuota([9061, 7179, 5259, 3319, 1182], 8, 0) == 3 && UpperQuota([9061, 7179, 5259, 3319, 1182], 8, 1) == 3 && UpperQuota([9061, 7179, 5259, 3319, 1182], 8, 2) == 2 && UpperQuota([9061, 7179, 5259, 3319, 1182], 8, 3) == 2 && UpperQuota([9061, 7179, 5259, 3319, 1182], 8, 4) == 1
  {
  }

  lemma BalinskiYoungNext8(votes: seq<nat>, reps: seq<nat>)
    requires votes == [9061, 7179, 5259, 3319, 1182] && reps == [3, 2, 1, 1, 0]
    ensures NextParty(votes, reps) == 2
  {
    BalinskiYoungQuotas8();
    ClaimAt(votes, reps, 8, 0, 3, 0.0);
    ClaimAt(votes, reps, 8, 1, 3, 2393.0);
    ClaimAt(votes, reps, 8, 2, 2, 5259.0 / 2.0);
    ClaimAt(votes, reps, 8, 3, 2, 3319.0 / 2.0);
    ClaimAt(votes, reps, 8, 4, 1, 1182.0);
    var cs := Claims(votes, reps);
    ScanStep(cs, 1, 0, 1);
    ScanStep(cs, 2, 1, 2);
    ScanStep(cs, 3, 2, 2);
    ScanStep(cs, 4, 2, 2);
  }

  lemma BalinskiYoungRound8(votes: seq<nat>)
    requires votes == [9061, 7179, 5259, 3319, 1182] && QuotaAfter(votes, 7) == [3, 2, 1, 1, 0]
    ensures QuotaAfter(votes, 8) == [3, 2, 2, 1, 0]
  {
    BalinskiYoungNext8(votes, [3, 2, 1, 1, 0]);
    assert Bump([3, 2, 1, 1, 0], 2) == [3, 2, 2, 1, 0];
  }

  lemma BalinskiYoungQuotas9()
    ensures Sum([9061, 7179, 5259, 3319, 1182]) == 26000 && Sum([3, 2, 2, 1, 0]) == 8
    ensures UpperQuota([9061, 7179, 5259, 3319, 1182], 9, 0) == 4 && UpperQuota([9061, 7179, 5259, 3319, 1182], 9, 1) == 3 && UpperQuota([9061, 7179, 5259, 3319, 1182], 9, 2) == 2 && UpperQuota([9061, 7179, 5259, 3319, 1182], 9, 3) == 2 && UpperQuota([9061, 7179, 5259, 3319, 1182], 9, 4) == 1
  {
  }

  lemma BalinskiYoungNext9(votes: seq<nat>, reps: seq<nat>)
    requires votes == [9061, 7179, 5259, 3319, 1182] && reps == [3, 2, 2, 1, 0]
    ensures NextParty(votes, reps) == 1
  {
    BalinskiYoungQuotas9();
    ClaimAt(votes, reps, 9, 0, 4, 9061.0 / 4.0);
    ClaimAt(votes, reps, 9, 1, 3, 2393.0);
    ClaimAt(votes, reps, 9, 2, 2, 0.0);
    ClaimAt(votes, reps, 9, 3, 2, 3319.0 / 2.0);
    ClaimAt(votes, reps, 9, 4, 1, 1182.0);
    var cs := Claims(votes, reps);
    ScanStep(cs, 1, 0, 1);
    ScanStep(cs, 2, 1, 1);
    ScanStep(cs, 3, 1, 1);
    ScanStep(cs, 4, 1, 1);
  }

  lemma BalinskiYoungRound9(votes: seq<nat>)
    requires votes == [9061, 7179, 5259, 3319, 1182] && QuotaAfter(votes, 8) == [3, 2, 2, 1, 0]
    ensures QuotaAfter(votes, 9) == [3, 3, 2, 1, 0]
  {
    BalinskiYoungNext9(votes, [3, 2, 2, 1, 0]);
    assert Bump([3, 2, 2, 1, 0], 1) == [3, 3, 2, 1, 0];
  }

  lemma BalinskiYoungQuotas10()
    ensures Sum([9061, 7179, 5259, 3319, 1182]) == 26000 && Sum([3, 3, 2, 1, 0]) == 9
    ensures UpperQuota([9061, 7179, 5259, 3319, 1182], 10, 0) == 4 && UpperQuota([9061, 7179, 5259, 3319, 1182], 10, 1) == 3 && UpperQuota([9061, 7179, 5259, 3319, 1182], 10, 2) == 3 && UpperQuota([9061, 7179, 5259, 3319, 1182], 10, 3) == 2 && UpperQuota([9061, 7179, 5259, 3319, 1182], 10, 4) == 1
  {
  }

  lemma BalinskiYoungNext10(votes: seq<nat>, reps: seq<nat>)
    requires votes == [9061, 7179, 5259, 3319, 1182] && reps == [3, 3, 2, 1, 0]
    ensures NextParty(votes, reps) == 0
  {
    BalinskiYoungQuotas10();
    ClaimAt(votes, reps, 10, 0, 4, 9061.0 / 4.0);
    ClaimAt(votes, reps, 10, 1, 3, 0.0);
    ClaimAt(votes, reps, 10, 2, 3, 1753.0);
    ClaimAt(votes, reps, 10, 3, 2, 3319.0 / 2.0);
    ClaimAt(votes, reps, 10, 4, 1, 1182.0);
    var cs := Claims(votes, reps);
    ScanStep(cs, 1, 0, 0);
    ScanStep(cs, 2, 0, 0);
    ScanStep(cs, 3, 0, 0);
    ScanStep(cs, 4, 0, 0);
  }

  lemma BalinskiYoungRound10(votes: seq<nat>)
    requires votes == [9061, 7179, 5259, 3319, 1182] && QuotaAfter(votes, 9) == [3, 3, 2, 1, 0]
    ensures QuotaAfter(votes, 10) == [4, 3, 2, 1, 0]
  {
    BalinskiYoungNext10(votes, [3, 3, 2, 1, 0]);
    assert Bump([3, 3, 2, 1, 0], 0) == [4, 3, 2, 1, 0];
  }

  lemma BalinskiYoungQuotas11()
    ensures Sum([9061, 7179, 5259, 3319, 1182]) == 26000 && Sum([4, 3, 2, 1, 0]) == 10
    ensures UpperQuota([9061, 7179, 5259, 3319, 1182], 11, 0) == 4 && UpperQuota([9061, 7179, 5259, 3319, 1182], 11, 1) == 4 && UpperQuota([9061, 7179, 5259, 3319, 1182], 11, 2) == 3 && UpperQuota([9061, 7179, 5259, 3319, 1182], 11, 3) == 2 && UpperQuota([9061, 7179, 5259, 3319, 1182], 11, 4) == 1
  {
  }

  lemma BalinskiYoungNext11(votes: seq<nat>, reps: seq<nat>)
    requires votes == [9061, 7179, 5259, 3319, 1182] && reps == [4, 3, 2, 1, 0]
    ensures NextParty(votes, reps) == 1
  {
    BalinskiYoungQuotas11();
    ClaimAt(votes, reps, 11, 0, 4, 0.0);
    ClaimAt(votes, reps, 11, 1, 4, 7179.0 / 4.0);
    ClaimAt(votes, reps, 11, 2, 3, 1753.0);
    ClaimAt(votes, reps, 11, 3, 2, 3319.0 / 2.0);
    ClaimAt(votes, reps, 11, 4, 1, 1182.0);
    var cs := Claims(votes, reps);
    ScanStep(cs, 1, 0, 1);
    ScanStep(cs, 2, 1, 1);
    ScanStep(cs, 3, 1, 1);
    ScanStep(cs, 4, 1, 1);
  }

  lemma BalinskiYoungRound11(votes: seq<nat>)
    requires votes == [9061, 7179, 5259, 3319, 1182] && QuotaAfter(votes, 10) == [4, 3, 2, 1, 0]
    ensures QuotaAfter(votes, 11) == [4, 4, 2, 1, 0]
  {
    BalinskiYoungNext11(votes, [4, 3, 2, 1, 0]);
    assert Bump([4, 3, 2, 1, 0], 1) == [4, 4, 2, 1, 0];
  }

  lemma BalinskiYoungQuotas12()
    ensures Sum([9061, 7179, 5259, 3319, 1182]) == 26000 && Sum([4, 4, 2, 1, 0]) == 11
    ensures UpperQuota([9061, 7179, 5259, 3319, 1182], 12, 0) == 5 && UpperQuota([9061, 7179, 5259, 3319, 1182], 12, 1) == 4 && UpperQuota([9061, 7179, 5259, 3319, 1182], 12, 2) == 3 && UpperQuota([9061, 7179, 5259, 3319, 1182], 12, 3) == 2 && UpperQuota([9061, 7179, 5259, 3319, 1182], 12, 4) == 1
  {
  }

  lemma BalinskiYoungNext12(votes: seq<nat>, reps: seq<nat>)
    requires votes == [9061, 7179, 5259, 3319, 1182] && reps == [4, 4, 2, 1, 0]
    ensures NextParty(votes, reps) == 0
  {
    BalinskiYoungQuotas12();
    ClaimAt(votes, reps, 12, 0, 5, 9061.0 / 5.0);
    ClaimAt(votes, reps, 12, 1, 4, 0.0);
    ClaimAt(votes, reps, 12, 2, 3, 1753.0);
    ClaimAt(votes, reps, 12, 3, 2, 3319.0 / 2.0);
    ClaimAt(votes, reps, 12, 4, 1, 1182.0);
    var cs := Claims(votes, reps);
    ScanStep(cs, 1, 0, 0);
    ScanStep(cs, 2, 0, 0);
    ScanStep(cs, 3, 0, 0);
    ScanStep(cs, 4, 0, 0);
  }

  lemma BalinskiYoungRound12(votes: seq<nat>)
    requires votes == [9061, 7179, 5259, 3319, 1182] && QuotaAfter(votes, 11) == [4, 4, 2, 1, 0]
    ensures QuotaAfter(votes, 12) == [5, 4, 2, 1, 0]
  {
    BalinskiYoungNext12(votes, [4, 4, 2, 1, 0]);
    assert Bump([4, 4, 2, 1, 0], 0) == [5, 4, 2, 1, 0];
  }

  lemma BalinskiYoungQuotas13()
    ensures Sum([9061, 7179, 5259, 3319, 1182]) == 26000 && Sum([5, 4, 2, 1, 0]) == 12
    ensures UpperQuota([9061, 7179, 5259, 3319, 1182], 13, 0) == 5 && UpperQuota([9061, 7179, 5259, 3319, 1182], 13, 1) == 4 && UpperQuota([9061, 7179, 5259, 3319, 1182], 13, 2) == 3 && UpperQuota([9061, 7179, 5259, 3319, 1182], 13, 3) == 2 && UpperQuota([9061, 7179, 5259, 3319, 1182], 13, 4) == 1
  {
  }

  lemma BalinskiYoungNext13(votes: seq<nat>, reps: seq<nat>)
    requires votes == [9061, 7179, 5259, 3319, 1182] && reps == [5, 4, 2, 1, 0]
    ensures NextParty(votes, reps) == 2
  {
    BalinskiYoungQuotas13();
    ClaimAt(votes, reps, 13, 0, 5, 0.0);
    ClaimAt(votes, reps, 13, 1, 4, 0.0);
    ClaimAt(votes, reps, 13, 2, 3, 1753.0);
    ClaimAt(votes, reps, 13, 3, 2, 3319.0 / 2.0);
    ClaimAt(votes, reps, 13, 4, 1, 1182.0);
    var cs := Claims(votes, reps);
    ScanStep(cs, 1, 0, 0);
    ScanStep(cs, 2, 0, 2);
    ScanStep(cs, 3, 2, 2);
    ScanStep(cs, 4, 2, 2);
  }

  lemma BalinskiYoungRound13(votes: seq<nat>)
    requires votes == [9061, 7179, 5259, 3319, 1182] && QuotaAfter(votes, 12) == [5, 4, 2, 1, 0]
    ensures QuotaAfter(votes, 13) == [5, 4, 3, 1, 0]
  {
    BalinskiYoungNext13(votes, [5, 4, 2, 1, 0]);
    assert Bump([5, 4, 2, 1, 0], 2) == [5, 4, 3, 1, 0];
  }

  lemma BalinskiYoungQuotas14()
    ensures Sum([9061, 7179, 5259, 3319, 1182]) == 26000 && Sum([5, 4, 3, 1, 0]) == 13
    ensures UpperQuota([9061, 7179, 5259, 3319, 1182], 14, 0) == 5 && UpperQuota([9061, 7179, 5259, 3319, 1182], 14, 1) == 4 && UpperQuota([9061, 7179, 5259, 3319, 1182], 14, 2) == 3 && UpperQuota([9061, 7179, 5259, 3319, 1182], 14, 3) == 2 && UpperQuota([9061, 7179, 5259, 3319, 1182], 14, 4) == 1
  {
  }

  lemma BalinskiYoungNext14(votes: seq<nat>, reps: seq<nat>)
    requires votes == [9061, 7179, 5259, 3319, 1182] && reps == [5, 4, 3, 1, 0]
    ensures NextParty(votes, reps) == 3
  {
    BalinskiYoungQuotas14();
    ClaimAt(votes, reps, 14, 0, 5, 0.0);
    ClaimAt(votes, reps, 14, 1, 4, 0.0);
    ClaimAt(votes, reps, 14, 2, 3, 0.0);
    ClaimAt(votes, reps, 14, 3, 2, 3319.0 / 2.0);
    ClaimAt(votes, reps, 14, 4, 1, 1182.0);
    var cs := Claims(votes, reps);
    ScanStep(cs, 1, 0, 0);
    ScanStep(cs, 2, 0, 0);
    ScanStep(cs, 3, 0, 3);
    ScanStep(cs, 4, 3, 3);
  }

  lemma BalinskiYoungRound14(votes: seq<nat>)
    requires votes == [9061, 7179, 5259, 3319, 1182] && QuotaAfter(votes, 13) == [5, 4, 3, 1, 0]
    ensures QuotaAfter(votes, 14) == [5, 4, 3, 2, 0]
  {
    BalinskiYoungNext14(votes, [5, 4, 3, 1, 0]);
    assert Bump([5, 4, 3, 1, 0], 3) == [5, 4, 3, 2, 0];
  }

  lemma BalinskiYoungQuotas15()
    ensures Sum([9061, 7179, 5259, 3319, 1182]) == 26000 && Sum([5, 4, 3, 2, 0]) == 14
    ensures UpperQuota([9061, 7179, 5259, 3319, 1182], 15, 0) == 6 && UpperQuota([9061, 7179, 5259, 3319, 1182], 15, 1) == 5 && UpperQuota([9061, 7179, 5259, 3319, 1182], 15, 2) == 4 && UpperQuota([9061, 7179, 5259, 3319, 1182], 15, 3) == 2 && UpperQuota([9061, 7179, 5259, 3319, 1182], 15, 4) == 1
  {
  }

  lemma BalinskiYoungNext15(votes: seq<nat>, reps: seq<nat>)
    requires votes == [9061, 7179, 5259, 3319, 1182] && reps == [5, 4, 3, 2, 0]
    ensures NextParty(votes, reps) == 0
  {
    BalinskiYoungQuotas15();
    ClaimAt(votes, reps, 15, 0, 6, 9061.0 / 6.0);
    ClaimAt(votes, reps, 15, 1, 5, 7179.0 / 5.0);
    ClaimAt(votes, reps, 15, 2, 4, 5259.0 / 4.0);
    ClaimAt(votes, reps, 15, 3, 2, 0.0);
    ClaimAt(votes, reps, 15, 4, 1, 1182.0);
    var cs := Claims(votes, reps);
    ScanStep(cs, 1, 0, 0);
    ScanStep(cs, 2, 0, 0);
    ScanStep(cs, 3, 0, 0);
    ScanStep(cs, 4, 0, 0);
  }

  lemma BalinskiYoungRound15(votes: seq<nat>)
    requires votes == [9061, 7179, 5259, 3319, 1182] && QuotaAfter(votes, 14) == [5, 4, 3, 2, 0]
    ensures QuotaAfter(votes, 15) == [6, 4, 3, 2, 0]
  {
    BalinskiYoungNext15(votes, [5, 4, 3, 2, 0]);
    assert Bump([5, 4, 3, 2, 0], 0) == [6, 4, 3, 2, 0];
  }

  lemma BalinskiYoungQuotas16()
    ensures Sum([9061, 7179, 5259, 3319, 1182]) == 26000 && Sum([6, 4, 3, 2, 0]) == 15
    ensures UpperQuota([9061, 7179, 5259, 3319, 1182], 16, 0) == 6 && UpperQuota([9061, 7179, 5259, 3319, 1182], 16, 1) == 5 && UpperQuota([9061, 7179, 5259, 3319, 1182], 16, 2) == 4 && UpperQuota([9061, 7179, 5259, 3319, 1182], 16, 3) == 3 && UpperQuota([9061, 7179, 5259, 3319, 1182], 16, 4) == 1
  {
  }

  lemma BalinskiYoungNext16(votes: seq<nat>, reps: seq<nat>)
    requires votes == [9061, 7179, 5259, 3319, 1182] && reps == [6, 4, 3, 2, 0]
    ensures NextParty(votes, reps) == 1
  {
    BalinskiYoungQuotas16();
    ClaimAt(votes, reps, 16, 0, 6, 0.0);
    ClaimAt(votes, reps, 16, 1, 5, 7179.0 / 5.0);
    ClaimAt(votes, reps, 16, 2, 4, 5259.0 / 4.0);
    ClaimAt(votes, reps, 16, 3, 3, 3319.0 / 3.0);
    ClaimAt(votes, reps, 16, 4, 1, 1182.0);
    var cs := Claims(votes, reps);
    ScanStep(cs, 1, 0, 1);
    ScanStep(cs, 2, 1, 1);
    ScanStep(cs, 3, 1, 1);
    ScanStep(cs, 4, 1, 1);
  }

  lemma BalinskiYoungRound16(votes: seq<nat>)
    requires votes == [9061, 7179, 5259, 3319, 1182] && QuotaAfter(votes, 15) == [6, 4, 3, 2, 0]
    ensures QuotaAfter(votes, 16) == [6, 5, 3, 2, 0]
  {
    BalinskiYoungNext16(votes, [6, 4, 3, 2, 0]);
    assert Bump([6, 4, 3, 2, 0], 1) == [6, 5, 3, 2, 0];
  }

  lemma BalinskiYoungQuotas17()
    ensures Sum([9061, 7179, 5259, 3319, 1182]) == 26000 && Sum([6, 5, 3, 2, 0]) == 16
    ensures UpperQuota([9061, 7179, 5259, 3319, 1182], 17, 0) == 6 && UpperQuota([9061, 7179, 5259, 3319, 1182], 17, 1) == 5 && UpperQuota([9061, 7179, 5259, 3319, 1182], 17, 2) == 4 && UpperQuota([9061, 7179, 5259, 3319, 1182], 17, 3) == 3 && UpperQuota([9061, 7179, 5259, 3319, 1182], 17, 4) == 1
  {
  }

  lemma BalinskiYoungNext17(votes: seq<nat>, reps: seq<nat>)
    requires votes == [9061, 7179, 5259, 3319, 1182] && reps == [6, 5, 3, 2, 0]
    ensures NextParty(votes, reps) == 2
  {
    BalinskiYoungQuotas17();
    ClaimAt(votes, reps, 17, 0, 6, 0.0);
    ClaimAt(votes, reps, 17, 1, 5, 0.0);
    ClaimAt(votes, reps, 17, 2, 4, 5259.0 / 4.0);
    ClaimAt(votes, reps, 17, 3, 3, 3319.0 / 3.0);
    ClaimAt(votes, reps, 17, 4, 1, 1182.0);
    var cs := Claims(votes, reps);
    ScanStep(cs, 1, 0, 0);
    ScanStep(cs, 2, 0, 2);
    ScanStep(cs, 3, 2, 2);
    ScanStep(cs, 4, 2, 2);
  }

  lemma BalinskiYoungRound17(votes: seq<nat>)
    requires votes == [9061, 7179, 5259, 3319, 1182] && QuotaAfter(votes, 16) == [6, 5, 3, 2, 0]
    ensures QuotaAfter(votes, 17) == [6, 5, 4, 2, 0]
  {
    BalinskiYoungNext17(votes, [6, 5, 3, 2, 0]);
    assert Bump([6, 5, 3, 2, 0], 2) == [6, 5, 4, 2, 0];
  }

  lemma BalinskiYoungQuotas18()
    ensures Sum([9061, 7179, 5259, 3319, 1182]) == 26000 && Sum([6, 5, 4, 2, 0]) == 17
    ensures UpperQuota([9061, 7179, 5259, 3319, 1182], 18, 0) == 7 && UpperQuota([9061, 7179, 5259, 3319, 1182], 18, 1) == 5 && UpperQuota([9061, 7179, 5259, 3319, 1182], 18, 2) == 4 && UpperQuota([9061, 7179, 5259, 3319, 1182], 18, 3) == 3 && UpperQuota([9061, 7179, 5259, 3319, 1182], 18, 4) == 1
  {
  }

  lemma BalinskiYoungNext18(votes: seq<nat>, reps: seq<nat>)
    requires votes == [9061, 7179, 5259, 3319, 1182] && reps == [6, 5, 4, 2, 0]
    ensures NextParty(votes, reps) == 0
  {
    BalinskiYoungQuotas18();
    ClaimAt(votes, reps, 18, 0, 7, 9061.0 / 7.0);
    ClaimAt(votes, reps, 18, 1, 5, 0.0);
    ClaimAt(votes, reps, 18, 2, 4, 0.0);
    ClaimAt(votes, reps, 18, 3, 3, 3319.0 / 3.0);
    ClaimAt(votes, reps, 18, 4, 1, 1182.0);
    var cs := Claims(votes, reps);
    ScanStep(cs, 1, 0, 0);
    ScanStep(cs, 2, 0, 0);
    ScanStep(cs, 3, 0, 0);
    ScanStep(cs, 4, 0, 0);
  }

  lemma BalinskiYoungRound18(votes: seq<nat>)
    requires votes == [9061, 7179, 5259, 3319, 1182] && QuotaAfter(votes, 17) == [6, 5, 4, 2, 0]
    ensures QuotaAfter(votes, 18) == [7, 5, 4, 2, 0]
  {
    BalinskiYoungNext18(votes, [6, 5, 4, 2, 0]);
    assert Bump([6, 5, 4, 2, 0], 0) == [7, 5, 4, 2, 0];
  }

  lemma BalinskiYoungQuotas19()
    ensures Sum([9061, 7179, 5259, 3319, 1182]) == 26000 && Sum([7, 5, 4, 2, 0]) == 18
    ensures UpperQuota([9061, 7179, 5259, 3319, 1182], 19, 0) == 7 && UpperQuota([9061, 7179, 5259, 3319, 1182], 19, 1) == 6 && UpperQuota([9061, 7179, 5259, 3319, 1182], 19, 2) == 4 && UpperQuota([9061, 7179, 5259, 3319, 1182], 19, 3) == 3 && UpperQuota([9061, 7179, 5259, 3319, 1182], 19, 4) == 1
  {
  }

  lemma BalinskiYoungNext19(votes: seq<nat>, reps: seq<nat>)
    requires votes == [9061, 7179, 5259, 3319, 1182] && reps == [7, 5, 4, 2, 0]
    ensures NextParty(votes, reps) == 1
  {
    BalinskiYoungQuotas19();
    ClaimAt(votes, reps, 19, 0, 7, 0.0);
    ClaimAt(votes, reps, 19, 1, 6, 2393.0 / 2.0);
    ClaimAt(votes, reps, 19, 2, 4, 0.0);
    ClaimAt(votes, reps, 19, 3, 3, 3319.0 / 3.0);
    ClaimAt(votes, reps, 19, 4, 1, 1182.0);
    var cs := Claims(votes, reps);
    ScanStep(cs, 1, 0, 1);
    ScanStep(cs, 2, 1, 1);
    ScanStep(cs, 3, 1, 1);
    ScanStep(cs, 4, 1, 1);
  }

  lemma BalinskiYoungRound19(votes: seq<nat>)
    requires votes == [9061, 7179, 5259, 3319, 1182] && QuotaAfter(votes, 18) == [7, 5, 4, 2, 0]
    ensures QuotaAfter(votes, 19) == [7, 6, 4, 2, 0]
  {
    BalinskiYoungNext19(votes, [7, 5, 4, 2, 0]);
    assert Bump([7, 5, 4, 2, 0], 1) == [7, 6, 4, 2, 0];
  }

  lemma BalinskiYoungQuotas20()
    ensures Sum([9061, 7179, 5259, 3319, 1182]) == 26000 && Sum([7, 6, 4, 2, 0]) == 19
    ensures UpperQuota([9061, 7179, 5259, 3319, 1182], 20, 0) == 7 && UpperQuota([9061, 7179, 5259, 3319, 1182], 20, 1) == 6 && UpperQuota([9061, 7179, 5259, 3319, 1182], 20, 2) == 5 && UpperQuota([9061, 7179, 5259, 3319, 1182], 20, 3) == 3 && UpperQuota([9061, 7179, 5259, 3319, 1182], 20, 4) == 1
  {
  }

  lemma BalinskiYoungNext20(votes: seq<nat>, reps: seq<nat>)
    requires votes == [9061, 7179, 5259, 3319, 1182] && reps == [7, 6, 4, 2, 0]
    ensures NextParty(votes, reps) == 4
  {
    BalinskiYoungQuotas20();
    ClaimAt(votes, reps, 20, 0, 7, 0.0);
    ClaimAt(votes, reps, 20, 1, 6, 0.0);
    ClaimAt(votes, reps, 20, 2, 5, 5259.0 / 5.0);
    ClaimAt(votes, reps, 20, 3, 3, 3319.0 / 3.0);
    ClaimAt(votes, reps, 20, 4, 1, 1182.0);
    var cs := Claims(votes, reps);
    ScanStep(cs, 1, 0, 0);
    ScanStep(cs, 2, 0, 2);
    ScanStep(cs, 3, 2, 3);
    ScanStep(cs, 4, 3, 4);
  }

  lemma BalinskiYoungRound20(votes: seq<nat>)
    requires votes == [9061, 7179, 5259, 3319, 1182] && QuotaAfter(votes, 19) == [7, 6, 4, 2, 0]
    ensures QuotaAfter(votes, 20) == [7, 6, 4, 2, 1]
  {
    BalinskiYoungNext20(votes, [7, 6, 4, 2, 0]);
    assert Bump([7, 6, 4, 2, 0], 4) == [7, 6, 4, 2, 1];
  }

  lemma BalinskiYoungQuotas21()
    ensures Sum([9061, 7179, 5259, 3319, 1182]) == 26000 && Sum([7, 6, 4, 2, 1]) == 20
    ensures UpperQuota([9061, 7179, 5259, 3319, 1182], 21, 0) == 8 && UpperQuota([9061, 7179, 5259, 3319, 1182], 21, 1) == 6 && UpperQuota([9061, 7179, 5259, 3319, 1182], 21, 2) == 5 && UpperQuota([9061, 7179, 5259, 3319, 1182], 21, 3) == 3 && UpperQuota([9061, 7179, 5259, 3319, 1182], 21, 4) == 1
  {
  }

  lemma BalinskiYoungNext21(votes: seq<nat>, reps: seq<nat>)
    requires votes == [9061, 7179, 5259, 3319, 1182] && reps == [7, 6, 4, 2, 1]
    ensures NextParty(votes, reps) == 0
  {
    BalinskiYoungQuotas21();
    ClaimAt(votes, reps, 21, 0, 8, 9061.0 / 8.0);
    ClaimAt(votes, reps, 21, 1, 6, 0.0);
    ClaimAt(votes, reps, 21, 2, 5, 5259.0 / 5.0);
    ClaimAt(votes, reps, 21, 3, 3, 3319.0 / 3.0);
    ClaimAt(votes, reps, 21, 4, 1, 0.0);
    var cs := Claims(votes, reps);
    ScanStep(cs, 1, 0, 0);
    ScanStep(cs, 2, 0, 0);
    ScanStep(cs, 3, 0, 0);
    ScanStep(cs, 4, 0, 0);
  }

  lemma BalinskiYoungRound21(votes: seq<nat>)
    requires votes == [9061, 7179, 5259, 3319, 1182] && QuotaAfter(votes, 20) == [7, 6, 4, 2, 1]
    ensures QuotaAfter(votes, 21) == [8, 6, 4, 2, 1]
  {
    BalinskiYoungNext21(votes, [7, 6, 4, 2, 1]);
    assert Bump([7, 6, 4, 2, 1], 0) == [8, 6, 4, 2, 1];
  }

  lemma BalinskiYoungQuotas22()
    ensures Sum([9061, 7179, 5259, 3319, 1182]) == 26000 && Sum([8, 6, 4, 2, 1]) == 21
    ensures UpperQuota([9061, 7179, 5259, 3319, 1182], 22, 0) == 8 && UpperQuota([9061, 7179, 5259, 3319, 1182], 22, 1) == 7 && UpperQuota([9061, 7179, 5259, 3319, 1182], 22, 2) == 5 && UpperQuota([9061, 7179, 5259, 3319, 1182], 22, 3) == 3 && UpperQuota([9061, 7179, 5259, 3319, 1182], 22, 4) == 2
  {
  }

  lemma BalinskiYoungNext22(votes: seq<nat>, reps: seq<nat>)
    requires votes == [9061, 7179, 5259, 3319, 1182] && reps == [8, 6, 4, 2, 1]
    ensures NextParty(votes, reps) == 3
  {
    BalinskiYoungQuotas22();
    ClaimAt(votes, reps, 22, 0, 8, 0.0);
    ClaimAt(votes, reps, 22, 1, 7, 7179.0 / 7.0);
    ClaimAt(votes, reps, 22, 2, 5, 5259.0 / 5.0);
    ClaimAt(votes, reps, 22, 3, 3, 3319.0 / 3.0);
    ClaimAt(votes, reps, 22, 4, 2, 591.0);
    var cs := Claims(votes, reps);
    ScanStep(cs, 1, 0, 1);
    ScanStep(cs, 2, 1, 2);
    ScanStep(cs, 3, 2, 3);
    ScanStep(cs, 4, 3, 3);
  }

  lemma BalinskiYoungRound22(votes: seq<nat>)
    requires votes == [9061, 7179, 5259, 3319, 1182] && QuotaAfter(votes, 21) == [8, 6, 4, 2, 1]
    ensures QuotaAfter(votes, 22) == [8, 6, 4, 3, 1]
  {
    BalinskiYoungNext22(votes, [8, 6, 4, 2, 1]);
    assert Bump([8, 6, 4, 2, 1], 3) == [8, 6, 4, 3, 1];
  }

  lemma BalinskiYoungQuotas23()
    ensures Sum([9061, 7179, 5259, 3319, 1182]) == 26000 && Sum([8, 6, 4, 3, 1]) == 22
    ensures UpperQuota([9061, 7179, 5259, 3319, 1182], 23, 0) == 9 && UpperQuota([9061, 7179, 5259, 3319, 1182], 23, 1) == 7 && UpperQuota([9061, 7179, 5259, 3319, 1182], 23, 2) == 5 && UpperQuota([9061, 7179, 5259, 3319, 1182], 23, 3) == 3 && UpperQuota([9061, 7179, 5259, 3319, 1182], 23, 4) == 2
  {
  }

  lemma BalinskiYoungNext23(votes: seq<nat>, reps: seq<nat>)
    requires votes == [9061, 7179, 5259, 3319, 1182] && reps == [8, 6, 4, 3, 1]
    ensures NextParty(votes, reps) == 2
  {
    BalinskiYoungQuotas23();
    ClaimAt(votes, reps, 23, 0, 9, 9061.0 / 9.0);
    ClaimAt(votes, reps, 23, 1, 7, 7179.0 / 7.0);
    ClaimAt(votes, reps, 23, 2, 5, 5259.0 / 5.0);
    ClaimAt(votes, reps, 23, 3, 3, 0.0);
    ClaimAt(votes, reps, 23, 4, 2, 591.0);
    var cs := Claims(votes, reps);
    ScanStep(cs, 1, 0, 1);
    ScanStep(cs, 2, 1, 2);
    ScanStep(cs, 3, 2, 2);
    ScanStep(cs, 4, 2, 2);
  }

  lemma BalinskiYoungRound23(votes: seq<nat>)
    requires votes == [9061, 7179, 5259, 3319, 1182] && QuotaAfter(votes, 22) == [8, 6, 4, 3, 1]
    ensures QuotaAfter(votes, 23) == [8, 6, 5, 3, 1]
  {
    BalinskiYoungNext23(votes, [8, 6, 4, 3, 1]);
    assert Bump([8, 6, 4, 3, 1], 2) == [8, 6, 5, 3, 1];
  }

  lemma BalinskiYoungQuotas24()
    ensures Sum([9061, 7179, 5259, 3319, 1182]) == 26000 && Sum([8, 6, 5, 3, 1]) == 23
    ensures UpperQuota([9061, 7179, 5259, 3319, 1182], 24, 0) == 9 && UpperQuota([9061, 7179, 5259, 3319, 1182], 24, 1) == 7 && UpperQuota([9061, 7179, 5259, 3319, 1182], 24, 2) == 5 && UpperQuota([9061, 7179, 5259, 3319, 1182], 24, 3) == 4 && UpperQuota([9061, 7179, 5259, 3319, 1182], 24, 4) == 2
  {
  }

  lemma BalinskiYoungNext24(votes: seq<nat>, reps: seq<nat>)
    requires votes == [9061, 7179, 5259, 3319, 1182] && reps == [8, 6, 5, 3, 1]
    ensures NextParty(votes, reps) == 1
  {
    BalinskiYoungQuotas24();
    ClaimAt(votes, reps, 24, 0, 9, 9061.0 / 9.0);
    ClaimAt(votes, reps, 24, 1, 7, 7179.0 / 7.0);
    ClaimAt(votes, reps, 24, 2, 5, 0.0);
    ClaimAt(votes, reps, 24, 3, 4, 3319.0 / 4.0);
    ClaimAt(votes, reps, 24, 4, 2, 591.0);
    var cs := Claims(votes, reps);
    ScanStep(cs, 1, 0, 1);
    ScanStep(cs, 2, 1, 1);
    ScanStep(cs, 3, 1, 1);
    ScanStep(cs, 4, 1, 1);
  }

  lemma BalinskiYoungRound24(votes: seq<nat>)
    requires votes == [9061, 7179, 5259, 3319, 1182] && QuotaAfter(votes, 23) == [8, 6, 5, 3, 1]
    ensures QuotaAfter(votes, 24) == [8, 7, 5, 3, 1]
  {
    BalinskiYoungNext24(votes, [8, 6, 5, 3, 1]);
    assert Bump([8, 6, 5, 3, 1], 1) == [8, 7, 5, 3, 1];
  }

  lemma BalinskiYoungQuotas25()
    ensures Sum([9061, 7179, 5259, 3319, 1182]) == 26000 && Sum([8, 7, 5, 3, 1]) == 24
    ensures UpperQuota([9061, 7179, 5259, 3319, 1182], 25, 0) == 9 && UpperQuota([9061, 7179, 5259, 3319, 1182], 25, 1) == 7 && UpperQuota([9061, 7179, 5259, 3319, 1182], 25, 2) == 6 && UpperQuota([9061, 7179, 5259, 3319, 1182], 25, 3) == 4 && UpperQuota([9061, 7179, 5259, 3319, 1182], 25, 4) == 2
  {
  }

  lemma BalinskiYoungNext25(votes: seq<nat>, reps: seq<nat>)
    requires votes == [9061, 7179, 5259, 3319, 1182] && reps == [8, 7, 5, 3, 1]
    ensures NextParty(votes, reps) == 0
  {
    BalinskiYoungQuotas25();
    ClaimAt(votes, reps, 25, 0, 9, 9061.0 / 9.0);
    ClaimAt(votes, reps, 25, 1, 7, 0.0);
    ClaimAt(votes, reps, 25, 2, 6, 1753.0 / 2.0);
    ClaimAt(votes, reps, 25, 3, 4, 3319.0 / 4.0);
    ClaimAt(votes, reps, 25, 4, 2, 591.0);
    var cs := Claims(votes, reps);
    ScanStep(cs, 1, 0, 0);
    ScanStep(cs, 2, 0, 0);
    ScanStep(cs, 3, 0, 0);
    ScanStep(cs, 4, 0, 0);
  }

  lemma BalinskiYoungRound25(votes: seq<nat>)
    requires votes == [9061, 7179, 5259, 3319, 1182] && QuotaAfter(votes, 24) == [8, 7, 5, 3, 1]
    ensures QuotaAfter(votes, 25) == [9, 7, 5, 3, 1]
  {
    BalinskiYoungNext25(votes, [8, 7, 5, 3, 1]);
    assert Bump([8, 7, 5, 3, 1], 0) == [9, 7, 5, 3, 1];
  }

  lemma BalinskiYoungQuotas26()
    ensures Sum([9061, 7179, 5259, 3319, 1182]) == 26000 && Sum([9, 7, 5, 3, 1]) == 25
    ensures UpperQuota([9061, 7179, 5259, 3319, 1182], 26, 0) == 10 && UpperQuota([9061, 7179, 5259, 3319, 1182], 26, 1) == 8 && UpperQuota([9061, 7179, 5259, 3319, 1182], 26, 2) == 6 && UpperQuota([9061, 7179, 5259, 3319, 1182], 26, 3) == 4 && UpperQuota([9061, 7179, 5259, 3319, 1182], 26, 4) == 2
  {
  }

  lemma BalinskiYoungNext26(votes: seq<nat>, reps: seq<nat>)
    requires votes == [9061, 7179, 5259, 3319, 1182] && reps == [9, 7, 5, 3, 1]
    ensures NextParty(votes, reps) == 0
  {
    BalinskiYoungQuotas26();
    ClaimAt(votes, reps, 26, 0, 10, 9061.0 / 10.0);
    ClaimAt(votes, reps, 26, 1, 8, 7179.0 / 8.0);
    ClaimAt(votes, reps, 26, 2, 6, 1753.0 / 2.0);
    ClaimAt(votes, reps, 26, 3, 4, 3319.0 / 4.0);
    ClaimAt(votes, reps, 26, 4, 2, 591.0);
    var cs := Claims(votes, reps);
    ScanStep(cs, 1, 0, 0);
    ScanStep(cs, 2, 0, 0);
    ScanStep(cs, 3, 0, 0);
    ScanStep(cs, 4, 0, 0);
  }

  lemma BalinskiYoungRound26(votes: seq<nat>)
    requires votes == [9061, 7179, 5259, 3319, 1182] && QuotaAfter(votes, 25) == [9, 7, 5, 3, 1]
    ensures QuotaAfter(votes, 26) == [10, 7, 5, 3, 1]
  {
    BalinskiYoungNext26(votes, [9, 7, 5, 3, 1]);
    assert Bump([9, 7, 5, 3, 1], 0) == [10, 7, 5, 3, 1];
  }

  /** The second example of Balinski and Young's paper on the quota method:
      votes 9061, 7179, 5259, 3319, 1182 for 26 seats give 10, 7, 5, 3, 1. */
  lemma BalinskiYoungExample(votes: seq<nat>)
    requires votes == [9061, 7179, 5259, 3319, 1182]
    ensures QuotaAllocation(votes, 26, true) == Allocated([10, 7, 5, 3, 1])
    ensures QuotaAllocation(votes, 26, false) == Unsupported
  {
    assert QuotaAfter(votes, 0) == [0, 0, 0, 0, 0];
    BalinskiYoungRound1(votes);
    BalinskiYoungRound2(votes);
    BalinskiYoungRound3(votes);
    BalinskiYoungRound4(votes);
    BalinskiYoungRound5(votes);
    BalinskiYoungRound6(votes);
    BalinskiYoungRound7(votes);
    BalinskiYoungRound8(votes);
    BalinskiYoungRound9(votes);
    BalinskiYoungRound10(votes);
    BalinskiYoungRound11(votes);
    BalinskiYoungRound12(votes);
    BalinskiYoungRound13(votes);
    BalinskiYoungRound14(votes);
    BalinskiYoungRound15(votes);
    BalinskiYoungRound16(votes);
    BalinskiYoungRound17(votes);
    BalinskiYoungRound18(votes);
    BalinskiYoungRound19(votes);
    BalinskiYoungRound20(votes);
    BalinskiYoungRound21(votes);
    BalinskiYoungRound22(votes);
    BalinskiYoungRound23(votes);
    BalinskiYoungRound24(votes);
    BalinskiYoungRound25(votes);
    BalinskiYoungRound26(votes);
  }
}
