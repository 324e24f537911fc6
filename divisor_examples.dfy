/** The divisor engine on the fixtures of the library's unit tests. Each
    example is stated for a vote vector equal to the fixture and goes through
    the cutoff, the counts above it, the holders of the cutoff and the pass in
    list order. */
module DivisorExamples {
  import opened Common
  import opened Ranking
  import opened Divisors
  import opened DivisorEngine

  lemma NoTiesSteps1()
    ensures Seed(DHondt, [12, 12, 11, 12]) == [0, 0, 0, 0] && Sum([0, 0, 0, 0]) == 0
  {
  }

  lemma NoTiesSteps2()
    ensures WeightTable(DHondt, [12, 12, 11, 12], 3) ==
            [[12.0, 6.0, 4.0], [12.0, 6.0, 4.0], [11.0, 11.0 / 2.0, 11.0 / 3.0], [12.0, 6.0, 4.0]]
  {
    assert PartyWeights(DHondt, 11, 3) == [11.0, 11.0 / 2.0, 11.0 / 3.0];
    assert PartyWeights(DHondt, 12, 3) == [12.0, 6.0, 4.0];
  }

  lemma NoTiesSteps3()
    ensures SingleAt([[12.0, 6.0, 4.0], [12.0, 6.0, 4.0], [11.0, 11.0 / 2.0, 11.0 / 3.0], [12.0, 6.0, 4.0]], 12.0)
  {
    assert CountEq([12.0, 6.0, 4.0], 12.0) <= 1;
    assert CountEq([11.0, 11.0 / 2.0, 11.0 / 3.0], 12.0) <= 1;
  }

  lemma NoTiesSteps4()
    ensures AboveCounts([[12.0, 6.0, 4.0], [12.0, 6.0, 4.0], [11.0, 11.0 / 2.0, 11.0 / 3.0], [12.0, 6.0, 4.0]], 12.0) == [0, 0, 0, 0]
  {
  }

  lemma NoTiesSteps5()
    ensures Holders([[12.0, 6.0, 4.0], [12.0, 6.0, 4.0], [11.0, 11.0 / 2.0, 11.0 / 3.0], [12.0, 6.0, 4.0]], 12.0) == [true, true, false, true]
  {
  }

  lemma NoTiesSteps6()
    ensures Plus([0, 0, 0, 0], [0, 0, 0, 0]) == [0, 0, 0, 0] && Sum([0, 0, 0, 0]) == 0
    ensures CountTrue([true, true, false, true]) == 3 && Sum([0, 0, 0, 0]) == 0
    ensures AddOnes([0, 0, 0, 0], FirstInOrder([true, true, false, true], 3)) == [1, 1, 0, 1]
  {
  }

  lemma NoTiesTable(votes: seq<nat>, tiesAllowed: bool)
    requires votes == [12, 12, 11, 12]
    ensures Fits(Seed(DHondt, votes), WeightTable(DHondt, votes, 3), 3)
    ensures TableAllocation(Seed(DHondt, votes), WeightTable(DHondt, votes, 3), 3, tiesAllowed) ==
            Allocated([1, 1, 0, 1])
  {
    var seed, table := Seed(DHondt, votes), WeightTable(DHondt, votes, 3);
    assert seed == [0, 0, 0, 0] && Sum(seed) == 0 by { NoTiesSteps1(); }
    assert table == [[12.0, 6.0, 4.0], [12.0, 6.0, 4.0], [11.0, 11.0 / 2.0, 11.0 / 3.0], [12.0, 6.0, 4.0]] by { NoTiesSteps2(); }
    DivisorFits(DHondt, votes, 3);
    assert AboveCounts(table, 12.0) == [0, 0, 0, 0] by { NoTiesSteps4(); }
    assert Holders(table, 12.0) == [true, true, false, true] by { NoTiesSteps5(); }
    NoTiesSteps6();
    assert IsKthLargest(Flatten(table), 3, 12.0) by {
      NoTiesSteps3();
      KthFromRows(table, 12.0, 3);
    }
    CutoffIs(seed, table, 3, 12.0);
    TableOutcome(seed, table, 3, tiesAllowed, 12.0, [0, 0, 0, 0], [true, true, false, true], 3, [1, 1, 0, 1]);
  }

  /** The unit tests' fixture for ties not allowed: votes 12, 12, 11, 12 for 3 seats
      under D'Hondt. The cutoff is 12, held by exactly three parties, so there is
      no tie and the result stands with or without ties allowed. */
  lemma NoTiesExample(votes: seq<nat>, tiesAllowed: bool)
    requires votes == [12, 12, 11, 12]
    ensures DivisorAllocation(DHondt, votes, 3, tiesAllowed) == Allocated([1, 1, 0, 1])
  {
    NoTiesTable(votes, tiesAllowed);
    DivisorIsTable(DHondt, votes, 3, tiesAllowed);
  }

  lemma TieSteps1()
    ensures Seed(DHondt, [11, 11, 11]) == [0, 0, 0] && Sum([0, 0, 0]) == 0
  {
  }

  lemma TieSteps2()
    ensures WeightTable(DHondt, [11, 11, 11], 4) ==
            [[11.0, 11.0 / 2.0, 11.0 / 3.0, 11.0 / 4.0], [11.0, 11.0 / 2.0, 11.0 / 3.0, 11.0 / 4.0], [11.0, 11.0 / 2.0, 11.0 / 3.0, 11.0 / 4.0]]
  {
    assert PartyWeights(DHondt, 11, 4) == [11.0, 11.0 / 2.0, 11.0 / 3.0, 11.0 / 4.0];
  }

  lemma TieSteps3()
    ensures SingleAt([[11.0, 11.0 / 2.0, 11.0 / 3.0, 11.0 / 4.0], [11.0, 11.0 / 2.0, 11.0 / 3.0, 11.0 / 4.0], [11.0, 11.0 / 2.0, 11.0 / 3.0, 11.0 / 4.0]], 11.0 / 2.0)
  {
    assert CountEq([11.0, 11.0 / 2.0, 11.0 / 3.0, 11.0 / 4.0], 11.0 / 2.0) <= 1;
  }

  lemma TieSteps4()
    ensures AboveCounts([[11.0, 11.0 / 2.0, 11.0 / 3.0, 11.0 / 4.0], [11.0, 11.0 / 2.0, 11.0 / 3.0, 11.0 / 4.0], [11.0, 11.0 / 2.0, 11.0 / 3.0, 11.0 / 4.0]], 11.0 / 2.0) == [1, 1, 1]
  {
  }

  lemma TieSteps5()
    ensures Holders([[11.0, 11.0 / 2.0, 11.0 / 3.0, 11.0 / 4.0], [11.0, 11.0 / 2.0, 11.0 / 3.0, 11.0 / 4.0], [11.0, 11.0 / 2.0, 11.0 / 3.0, 11.0 / 4.0]], 11.0 / 2.0) == [true, true, true]
  {
  }

  lemma TieSteps6()
    ensures Plus([0, 0, 0], [1, 1, 1]) == [1, 1, 1] && Sum([1, 1, 1]) == 3
    ensures CountTrue([true, true, true]) == 3 && Sum([1, 1, 1]) == 3
    ensures AddOnes([1, 1, 1], FirstInOrder([true, true, true], 1)) == [2, 1, 1]
  {
  }

  lemma TieTable(votes: seq<nat>, tiesAllowed: bool)
    requires votes == [11, 11, 11]
    ensures Fits(Seed(DHondt, votes), WeightTable(DHondt, votes, 4), 4)
    ensures TableAllocation(Seed(DHondt, votes), WeightTable(DHondt, votes, 4), 4, tiesAllowed) ==
            if tiesAllowed then Allocated([2, 1, 1]) else TieRejected
  {
    var seed, table := Seed(DHondt, votes), WeightTable(DHondt, votes, 4);
    assert seed == [0, 0, 0] && Sum(seed) == 0 by { TieSteps1(); }
    assert table == [[11.0, 11.0 / 2.0, 11.0 / 3.0, 11.0 / 4.0], [11.0, 11.0 / 2.0, 11.0 / 3.0, 11.0 / 4.0], [11.0, 11.0 / 2.0, 11.0 / 3.0, 11.0 / 4.0]] by { TieSteps2(); }
    DivisorFits(DHondt, votes, 4);
    assert AboveCounts(table, 11.0 / 2.0) == [1, 1, 1] by { TieSteps4(); }
    assert Holders(table, 11.0 / 2.0) == [true, true, true] by { TieSteps5(); }
    TieSteps6();
    assert IsKthLargest(Flatten(table), 4, 11.0 / 2.0) by {
      TieSteps3();
      KthFromRows(table, 11.0 / 2.0, 4);
    }
    CutoffIs(seed, table, 4, 11.0 / 2.0);
    TableOutcome(seed, table, 4, tiesAllowed, 11.0 / 2.0, [1, 1, 1], [true, true, true], 1, [2, 1, 1]);
  }

  /** The unit tests' tie fixture: votes 11, 11, 11 for 4 seats under D'Hondt. Each
      party gets one seat above the cutoff 11/2, which all three hold with one
      seat left, so the first party takes it, or a tie is reported. */
  lemma TieExample(votes: seq<nat>, tiesAllowed: bool)
    requires votes == [11, 11, 11]
    ensures DivisorAllocation(DHondt, votes, 4, tiesAllowed) == if tiesAllowed then Allocated([2, 1, 1]) else TieRejected
  {
    TieTable(votes, tiesAllowed);
    DivisorIsTable(DHondt, votes, 4, tiesAllowed);
  }

  lemma SainteLagueSteps1()
    ensures Seed(SainteLague, [6, 1]) == [0, 0] && Sum([0, 0]) == 0
  {
  }

  lemma SainteLagueSteps2()
    ensures WeightTable(SainteLague, [6, 1], 4) ==
            [[6.0, 2.0, 6.0 / 5.0, 6.0 / 7.0], [1.0, 1.0 / 3.0, 1.0 / 5.0, 1.0 / 7.0]]
  {
    assert PartyWeights(SainteLague, 1, 4) == [1.0, 1.0 / 3.0, 1.0 / 5.0, 1.0 / 7.0];
    assert PartyWeights(SainteLague, 6, 4) == [6.0, 2.0, 6.0 / 5.0, 6.0 / 7.0];
  }

  lemma SainteLagueSteps3()
    ensures SingleAt([[6.0, 2.0, 6.0 / 5.0, 6.0 / 7.0], [1.0, 1.0 / 3.0, 1.0 / 5.0, 1.0 / 7.0]], 1.0)
  {
    assert CountEq([6.0, 2.0, 6.0 / 5.0, 6.0 / 7.0], 1.0) <= 1;
    assert CountEq([1.0, 1.0 / 3.0, 1.0 / 5.0, 1.0 / 7.0], 1.0) <= 1;
  }

  lemma SainteLagueSteps4()
    ensures AboveCounts([[6.0, 2.0, 6.0 / 5.0, 6.0 / 7.0], [1.0, 1.0 / 3.0, 1.0 / 5.0, 1.0 / 7.0]], 1.0) == [3, 0]
  {
  }

  lemma SainteLagueSteps5()
    ensures Holders([[6.0, 2.0, 6.0 / 5.0, 6.0 / 7.0], [1.0, 1.0 / 3.0, 1.0 / 5.0, 1.0 / 7.0]], 1.0) == [false, true]
  {
  }

  lemma SainteLagueSteps6()
    ensures Plus([0, 0], [3, 0]) == [3, 0] && Sum([3, 0]) == 3
    ensures CountTrue([false, true]) == 1 && Sum([3, 0]) == 3
    ensures AddOnes([3, 0], FirstInOrder([false, true], 1)) == [3, 1]
  {
  }

  lemma SainteLagueTable(votes: seq<nat>, tiesAllowed: bool)
    requires votes == [6, 1]
    ensures Fits(Seed(SainteLague, votes), WeightTable(SainteLague, votes, 4), 4)
    ensures TableAllocation(Seed(SainteLague, votes), WeightTable(SainteLague, votes, 4), 4, tiesAllowed) ==
            Allocated([3, 1])
  {
    var seed, table := Seed(SainteLague, votes), WeightTable(SainteLague, votes, 4);
    assert seed == [0, 0] && Sum(seed) == 0 by { SainteLagueSteps1(); }
    assert table == [[6.0, 2.0, 6.0 / 5.0, 6.0 / 7.0], [1.0, 1.0 / 3.0, 1.0 / 5.0, 1.0 / 7.0]] by { SainteLagueSteps2(); }
    DivisorFits(SainteLague, votes, 4);
    assert AboveCounts(table, 1.0) == [3, 0] by { SainteLagueSteps4(); }
    assert Holders(table, 1.0) == [false, true] by { SainteLagueSteps5(); }
    SainteLagueSteps6();
    assert IsKthLargest(Flatten(table), 4, 1.0) by {
      SainteLagueSteps3();
      KthFromRows(table, 1.0, 4);
    }
    CutoffIs(seed, table, 4, 1.0);
    TableOutcome(seed, table, 4, tiesAllowed, 1.0, [3, 0], [false, true], 1, [3, 1]);
  }

  /** Votes 6 and 1 for 4 seats under Sainte-Laguë: the cutoff is the small
      party's first claim 1, which beats the large party's fourth claim 6/7. */
  lemma SainteLagueExample(votes: seq<nat>, tiesAllowed: bool)
    requires votes == [6, 1]
    ensures DivisorAllocation(SainteLague, votes, 4, tiesAllowed) == Allocated([3, 1])
  {
    SainteLagueTable(votes, tiesAllowed);
    DivisorIsTable(SainteLague, votes, 4, tiesAllowed);
  }

  lemma ModifiedSainteLagueSteps1()
    ensures Seed(ModifiedSainteLague, [6, 1]) == [0, 0] && Sum([0, 0]) == 0
  {
  }

  lemma ModifiedSainteLagueSteps2()
    ensures WeightTable(ModifiedSainteLague, [6, 1], 4) ==
            [[30.0 / 7.0, 2.0, 6.0 / 5.0, 6.0 / 7.0], [5.0 / 7.0, 1.0 / 3.0, 1.0 / 5.0, 1.0 / 7.0]]
  {
    assert PartyWeights(ModifiedSainteLague, 1, 4) == [5.0 / 7.0, 1.0 / 3.0, 1.0 / 5.0, 1.0 / 7.0];
    assert PartyWeights(ModifiedSainteLague, 6, 4) == [30.0 / 7.0, 2.0, 6.0 / 5.0, 6.0 / 7.0];
  }

  lemma ModifiedSainteLagueSteps3()
    ensures SingleAt([[30.0 / 7.0, 2.0, 6.0 / 5.0, 6.0 / 7.0], [5.0 / 7.0, 1.0 / 3.0, 1.0 / 5.0, 1.0 / 7.0]], 6.0 / 7.0)
  {
    assert CountEq([30.0 / 7.0, 2.0, 6.0 / 5.0, 6.0 / 7.0], 6.0 / 7.0) <= 1;
    assert CountEq([5.0 / 7.0, 1.0 / 3.0, 1.0 / 5.0, 1.0 / 7.0], 6.0 / 7.0) <= 1;
  }

  lemma ModifiedSainteLagueSteps4()
    ensures AboveCounts([[30.0 / 7.0, 2.0, 6.0 / 5.0, 6.0 / 7.0], [5.0 / 7.0, 1.0 / 3.0, 1.0 / 5.0, 1.0 / 7.0]], 6.0 / 7.0) == [3, 0]
  {
  }

  lemma ModifiedSainteLagueSteps5()
    ensures Holders([[30.0 / 7.0, 2.0, 6.0 / 5.0, 6.0 / 7.0], [5.0 / 7.0, 1.0 / 3.0, 1.0 / 5.0, 1.0 / 7.0]], 6.0 / 7.0) == [true, false]
  {
  }

  lemma ModifiedSainteLagueSteps6()
    ensures Plus([0, 0], [3, 0]) == [3, 0] && Sum([3, 0]) == 3
    ensures CountTrue([true, false]) == 1 && Sum([3, 0]) == 3
    ensures AddOnes([3, 0], FirstInOrder([true, false], 1)) == [4, 0]
  {
  }

  lemma ModifiedSainteLagueTable(votes: seq<nat>, tiesAllowed: bool)
    requires votes == [6, 1]
    ensures Fits(Seed(ModifiedSainteLague, votes), WeightTable(ModifiedSainteLague, votes, 4), 4)
    ensures TableAllocation(Seed(ModifiedSainteLague, votes), WeightTable(ModifiedSainteLague, votes, 4), 4, tiesAllowed) ==
            Allocated([4, 0])
  {
    var seed, table := Seed(ModifiedSainteLague, votes), WeightTable(ModifiedSainteLague, votes, 4);
    assert seed == [0, 0] && Sum(seed) == 0 by { ModifiedSainteLagueSteps1(); }
    assert table == [[30.0 / 7.0, 2.0, 6.0 / 5.0, 6.0 / 7.0], [5.0 / 7.0, 1.0 / 3.0, 1.0 / 5.0, 1.0 / 7.0]] by { ModifiedSainteLagueSteps2(); }
    DivisorFits(ModifiedSainteLague, votes, 4);
    assert AboveCounts(table, 6.0 / 7.0) == [3, 0] by { ModifiedSainteLagueSteps4(); }
    assert Holders(table, 6.0 / 7.0) == [true, false] by { ModifiedSainteLagueSteps5(); }
    ModifiedSainteLagueSteps6();
    assert IsKthLargest(Flatten(table), 4, 6.0 / 7.0) by {
      ModifiedSainteLagueSteps3();
      KthFromRows(table, 6.0 / 7.0, 4);
    }
    CutoffIs(seed, table, 4, 6.0 / 7.0);
    TableOutcome(seed, table, 4, tiesAllowed, 6.0 / 7.0, [3, 0], [true, false], 1, [4, 0]);
  }

  /** The same votes under modified Sainte-Laguë: the small party's first claim
      drops to 5/7, below the large party's fourth claim 6/7, which is the
      cutoff; the large party takes all four seats. */
  lemma ModifiedSainteLagueExample(votes: seq<nat>, tiesAllowed: bool)
    requires votes == [6, 1]
    ensures DivisorAllocation(ModifiedSainteLague, votes, 4, tiesAllowed) == Allocated([4, 0])
  {
    ModifiedSainteLagueTable(votes, tiesAllowed);
    DivisorIsTable(ModifiedSainteLague, votes, 4, tiesAllowed);
  }

  lemma ZeroPartiesSteps1()
    ensures Seed(DHondt, [0, 14, 28, 0, 0]) == [0, 0, 0, 0, 0] && Sum([0, 0, 0, 0, 0]) == 0
  {
  }

  lemma ZeroPartiesSteps2()
    ensures WeightTable(DHondt, [0, 14, 28, 0, 0], 6) ==
            [[0.0, 0.0, 0.0, 0.0, 0.0, 0.0], [14.0, 7.0, 14.0 / 3.0, 7.0 / 2.0, 14.0 / 5.0, 7.0 / 3.0], [28.0, 14.0, 28.0 / 3.0, 7.0, 28.0 / 5.0, 14.0 / 3.0], [0.0, 0.0, 0.0, 0.0, 0.0, 0.0], [0.0, 0.0, 0.0, 0.0, 0.0, 0.0]]
  {
    assert PartyWeights(DHondt, 0, 6) == [0.0, 0.0, 0.0, 0.0, 0.0, 0.0];
    assert PartyWeights(DHondt, 14, 6) == [14.0, 7.0, 14.0 / 3.0, 7.0 / 2.0, 14.0 / 5.0, 7.0 / 3.0];
    assert PartyWeights(DHondt, 28, 6) == [28.0, 14.0, 28.0 / 3.0, 7.0, 28.0 / 5.0, 14.0 / 3.0];
  }

  lemma ZeroPartiesSteps3()
    ensures SingleAt([[0.0, 0.0, 0.0, 0.0, 0.0, 0.0], [14.0, 7.0, 14.0 / 3.0, 7.0 / 2.0, 14.0 / 5.0, 7.0 / 3.0], [28.0, 14.0, 28.0 / 3.0, 7.0, 28.0 / 5.0, 14.0 / 3.0], [0.0, 0.0, 0.0, 0.0, 0.0, 0.0], [0.0, 0.0, 0.0, 0.0, 0.0, 0.0]], 7.0)
  {
    assert CountEq([0.0, 0.0, 0.0, 0.0, 0.0, 0.0], 7.0) <= 1;
    assert CountEq([14.0, 7.0, 14.0 / 3.0, 7.0 / 2.0, 14.0 / 5.0, 7.0 / 3.0], 7.0) <= 1;
    assert CountEq([28.0, 14.0, 28.0 / 3.0, 7.0, 28.0 / 5.0, 14.0 / 3.0], 7.0) <= 1;
  }

  lemma ZeroPartiesSteps4()
    ensures AboveCounts([[0.0, 0.0, 0.0, 0.0, 0.0, 0.0], [14.0, 7.0, 14.0 / 3.0, 7.0 / 2.0, 14.0 / 5.0, 7.0 / 3.0], [28.0, 14.0, 28.0 / 3.0, 7.0, 28.0 / 5.0, 14.0 / 3.0], [0.0, 0.0, 0.0, 0.0, 0.0, 0.0], [0.0, 0.0, 0.0, 0.0, 0.0, 0.0]], 7.0) == [0, 1, 3, 0, 0]
  {
  }

  lemma ZeroPartiesSteps5()
    ensures Holders([[0.0, 0.0, 0.0, 0.0, 0.0, 0.0], [14.0, 7.0, 14.0 / 3.0, 7.0 / 2.0, 14.0 / 5.0, 7.0 / 3.0], [28.0, 14.0, 28.0 / 3.0, 7.0, 28.0 / 5.0, 14.0 / 3.0], [0.0, 0.0, 0.0, 0.0, 0.0, 0.0], [0.0, 0.0, 0.0, 0.0, 0.0, 0.0]], 7.0) == [false, true, true, false, false]
  {
  }

  lemma ZeroPartiesSteps6()
    ensures Plus([0, 0, 0, 0, 0], [0, 1, 3, 0, 0]) == [0, 1, 3, 0, 0] && Sum([0, 1, 3, 0, 0]) == 4
    ensures CountTrue([false, true, true, false, false]) == 2 && Sum([0, 1, 3, 0, 0]) == 4
    ensures AddOnes([0, 1, 3, 0, 0], FirstInOrder([false, true, true, false, false], 2)) == [0, 2, 4, 0, 0]
  {
  }

  lemma ZeroPartiesTable(votes: seq<nat>, tiesAllowed: bool)
    requires votes == [0, 14, 28, 0, 0]
    ensures Fits(Seed(DHondt, votes), WeightTable(DHondt, votes, 6), 6)
    ensures TableAllocation(Seed(DHondt, votes), WeightTable(DHondt, votes, 6), 6, tiesAllowed) ==
            Allocated([0, 2, 4, 0, 0])
  {
    var seed, table := Seed(DHondt, votes), WeightTable(DHondt, votes, 6);
    assert seed == [0, 0, 0, 0, 0] && Sum(seed) == 0 by { ZeroPartiesSteps1(); }
    assert table == [[0.0, 0.0, 0.0, 0.0, 0.0, 0.0], [14.0, 7.0, 14.0 / 3.0, 7.0 / 2.0, 14.0 / 5.0, 7.0 / 3.0], [28.0, 14.0, 28.0 / 3.0, 7.0, 28.0 / 5.0, 14.0 / 3.0], [0.0, 0.0, 0.0, 0.0, 0.0, 0.0], [0.0, 0.0, 0.0, 0.0, 0.0, 0.0]] by { ZeroPartiesSteps2(); }
    DivisorFits(DHondt, votes, 6);
    assert AboveCounts(table, 7.0) == [0, 1, 3, 0, 0] by { ZeroPartiesSteps4(); }
    assert Holders(table, 7.0) == [false, true, true, false, false] by { ZeroPartiesSteps5(); }
    ZeroPartiesSteps6();
    assert IsKthLargest(Flatten(table), 6, 7.0) by {
      ZeroPartiesSteps3();
      KthFromRows(table, 7.0, 6);
    }
    CutoffIs(seed, table, 6, 7.0);
    TableOutcome(seed, table, 6, tiesAllowed, 7.0, [0, 1, 3, 0, 0], [false, true, true, false, false], 2, [0, 2, 4, 0, 0]);
  }

  /** The unit tests' fixture with parties without votes: votes 0, 14, 28, 0, 0 for
      6 seats under D'Hondt; the two parties at the cutoff 7 both take a seat. */
  lemma ZeroPartiesExample(votes: seq<nat>, tiesAllowed: bool)
    requires votes == [0, 14, 28, 0, 0]
    ensures DivisorAllocation(DHondt, votes, 6, tiesAllowed) == Allocated([0, 2, 4, 0, 0])
  {
    ZeroPartiesTable(votes, tiesAllowed);
    DivisorIsTable(DHondt, votes, 6, tiesAllowed);
  }

  lemma ZeroPartiesHillSteps1()
    ensures Seed(HuntingtonHill, [0, 14, 28, 0, 0]) == [0, 1, 1, 0, 0] && Sum([0, 1, 1, 0, 0]) == 2
  {
  }

  lemma ZeroPartiesHillSteps2()
    ensures WeightTable(HuntingtonHill, [0, 14, 28, 0, 0], 6) ==
            [[0.0, 0.0, 0.0, 0.0, 0.0, 0.0], [98.0, 98.0 / 3.0, 49.0 / 3.0, 49.0 / 5.0, 98.0 / 15.0, 14.0 / 3.0], [392.0, 392.0 / 3.0, 196.0 / 3.0, 196.0 / 5.0, 392.0 / 15.0, 56.0 / 3.0], [0.0, 0.0, 0.0, 0.0, 0.0, 0.0], [0.0, 0.0, 0.0, 0.0, 0.0, 0.0]]
  {
    assert PartyWeights(HuntingtonHill, 0, 6) == [0.0, 0.0, 0.0, 0.0, 0.0, 0.0];
    assert PartyWeights(HuntingtonHill, 14, 6) == [98.0, 98.0 / 3.0, 49.0 / 3.0, 49.0 / 5.0, 98.0 / 15.0, 14.0 / 3.0];
    assert PartyWeights(HuntingtonHill, 28, 6) == [392.0, 392.0 / 3.0, 196.0 / 3.0, 196.0 / 5.0, 392.0 / 15.0, 56.0 / 3.0];
  }

  lemma ZeroPartiesHillSteps3()
    ensures SingleAt([[0.0, 0.0, 0.0, 0.0, 0.0, 0.0], [98.0, 98.0 / 3.0, 49.0 / 3.0, 49.0 / 5.0, 98.0 / 15.0, 14.0 / 3.0], [392.0, 392.0 / 3.0, 196.0 / 3.0, 196.0 / 5.0, 392.0 / 15.0, 56.0 / 3.0], [0.0, 0.0, 0.0, 0.0, 0.0, 0.0], [0.0, 0.0, 0.0, 0.0, 0.0, 0.0]], 196.0 / 3.0)
  {
    assert CountEq([0.0, 0.0, 0.0, 0.0, 0.0, 0.0], 196.0 / 3.0) <= 1;
    assert CountEq([98.0, 98.0 / 3.0, 49.0 / 3.0, 49.0 / 5.0, 98.0 / 15.0, 14.0 / 3.0], 196.0 / 3.0) <= 1;
    assert CountEq([392.0, 392.0 / 3.0, 196.0 / 3.0, 196.0 / 5.0, 392.0 / 15.0, 56.0 / 3.0], 196.0 / 3.0) <= 1;
  }

  lemma ZeroPartiesHillSteps4()
    ensures AboveCounts([[0.0, 0.0, 0.0, 0.0, 0.0, 0.0], [98.0, 98.0 / 3.0, 49.0 / 3.0, 49.0 / 5.0, 98.0 / 15.0, 14.0 / 3.0], [392.0, 392.0 / 3.0, 196.0 / 3.0, 196.0 / 5.0, 392.0 / 15.0, 56.0 / 3.0], [0.0, 0.0, 0.0, 0.0, 0.0, 0.0], [0.0, 0.0, 0.0, 0.0, 0.0, 0.0]], 196.0 / 3.0) == [0, 1, 2, 0, 0]
  {
  }

  lemma ZeroPartiesHillSteps5()
    ensures Holders([[0.0, 0.0, 0.0, 0.0, 0.0, 0.0], [98.0, 98.0 / 3.0, 49.0 / 3.0, 49.0 / 5.0, 98.0 / 15.0, 14.0 / 3.0], [392.0, 392.0 / 3.0, 196.0 / 3.0, 196.0 / 5.0, 392.0 / 15.0, 56.0 / 3.0], [0.0, 0.0, 0.0, 0.0, 0.0, 0.0], [0.0, 0.0, 0.0, 0.0, 0.0, 0.0]], 196.0 / 3.0) == [false, false, true, false, false]
  {
  }

  lemma ZeroPartiesHillSteps6()
    ensures Plus([0, 1, 1, 0, 0], [0, 1, 2, 0, 0]) == [0, 2, 3, 0, 0] && Sum([0, 2, 3, 0, 0]) == 5
    ensures CountTrue([false, false, true, false, false]) == 1 && Sum([0, 1, 2, 0, 0]) == 3
    ensures AddOnes([0, 2, 3, 0, 0], FirstInOrder([false, false, true, false, false], 1)) == [0, 2, 4, 0, 0]
  {
  }

  lemma ZeroPartiesHillTable(votes: seq<nat>, tiesAllowed: bool)
    requires votes == [0, 14, 28, 0, 0]
    ensures Fits(Seed(HuntingtonHill, votes), WeightTable(HuntingtonHill, votes, 6), 6)
    ensures TableAllocation(Seed(HuntingtonHill, votes), WeightTable(HuntingtonHill, votes, 6), 6, tiesAllowed) ==
            Allocated([0, 2, 4, 0, 0])
  {
    var seed, table := Seed(HuntingtonHill, votes), WeightTable(HuntingtonHill, votes, 6);
    assert seed == [0, 1, 1, 0, 0] && Sum(seed) == 2 by { ZeroPartiesHillSteps1(); }
    assert table == [[0.0, 0.0, 0.0, 0.0, 0.0, 0.0], [98.0, 98.0 / 3.0, 49.0 / 3.0, 49.0 / 5.0, 98.0 / 15.0, 14.0 / 3.0], [392.0, 392.0 / 3.0, 196.0 / 3.0, 196.0 / 5.0, 392.0 / 15.0, 56.0 / 3.0], [0.0, 0.0, 0.0, 0.0, 0.0, 0.0], [0.0, 0.0, 0.0, 0.0, 0.0, 0.0]] by { ZeroPartiesHillSteps2(); }
    DivisorFits(HuntingtonHill, votes, 6);
    assert AboveCounts(table, 196.0 / 3.0) == [0, 1, 2, 0, 0] by { ZeroPartiesHillSteps4(); }
    assert Holders(table, 196.0 / 3.0) == [false, false, true, false, false] by { ZeroPartiesHillSteps5(); }
    ZeroPartiesHillSteps6();
    assert IsKthLargest(Flatten(table), 4, 196.0 / 3.0) by {
      ZeroPartiesHillSteps3();
      KthFromRows(table, 196.0 / 3.0, 4);
    }
    CutoffIs(seed, table, 6, 196.0 / 3.0);
    TableOutcome(seed, table, 6, tiesAllowed, 196.0 / 3.0, [0, 2, 3, 0, 0], [false, false, true, false, false], 1, [0, 2, 4, 0, 0]);
  }

  /** The same votes under Huntington-Hill: the two parties with votes are
      seeded, and the cutoff among the squared weights is 28^2 / 12. */
  lemma ZeroPartiesHillExample(votes: seq<nat>, tiesAllowed: bool)
    requires votes == [0, 14, 28, 0, 0]
    ensures DivisorAllocation(HuntingtonHill, votes, 6, tiesAllowed) == Allocated([0, 2, 4, 0, 0])
  {
    ZeroPartiesHillTable(votes, tiesAllowed);
    DivisorIsTable(HuntingtonHill, votes, 6, tiesAllowed);
  }

  lemma TieBreakSteps1()
    ensures Seed(DHondt, [2, 1, 1, 2, 2]) == [0, 0, 0, 0, 0] && Sum([0, 0, 0, 0, 0]) == 0
  {
  }

  lemma TieBreakSteps2()
    ensures WeightTable(DHondt, [2, 1, 1, 2, 2], 2) ==
            [[2.0, 1.0], [1.0, 1.0 / 2.0], [1.0, 1.0 / 2.0], [2.0, 1.0], [2.0, 1.0]]
  {
    assert PartyWeights(DHondt, 1, 2) == [1.0, 1.0 / 2.0];
    assert PartyWeights(DHondt, 2, 2) == [2.0, 1.0];
  }

  lemma TieBreakSteps3()
    ensures SingleAt([[2.0, 1.0], [1.0, 1.0 / 2.0], [1.0, 1.0 / 2.0], [2.0, 1.0], [2.0, 1.0]], 2.0)
  {
    assert CountEq([2.0, 1.0], 2.0) <= 1;
    assert CountEq([1.0, 1.0 / 2.0], 2.0) <= 1;
  }

  lemma TieBreakSteps4()
    ensures AboveCounts([[2.0, 1.0], [1.0, 1.0 / 2.0], [1.0, 1.0 / 2.0], [2.0, 1.0], [2.0, 1.0]], 2.0) == [0, 0, 0, 0, 0]
  {
  }

  lemma TieBreakSteps5()
    ensures Holders([[2.0, 1.0], [1.0, 1.0 / 2.0], [1.0, 1.0 / 2.0], [2.0, 1.0], [2.0, 1.0]], 2.0) == [true, false, false, true, true]
  {
  }

  lemma TieBreakSteps6()
    ensures Plus([0, 0, 0, 0, 0], [0, 0, 0, 0, 0]) == [0, 0, 0, 0, 0] && Sum([0, 0, 0, 0, 0]) == 0
    ensures CountTrue([true, false, false, true, true]) == 3 && Sum([0, 0, 0, 0, 0]) == 0
    ensures AddOnes([0, 0, 0, 0, 0], FirstInOrder([true, false, false, true, true], 2)) == [1, 0, 0, 1, 0]
  {
  }

  lemma TieBreakTable(votes: seq<nat>, tiesAllowed: bool)
    requires votes == [2, 1, 1, 2, 2]
    ensures Fits(Seed(DHondt, votes), WeightTable(DHondt, votes, 2), 2)
    ensures TableAllocation(Seed(DHondt, votes), WeightTable(DHondt, votes, 2), 2, tiesAllowed) ==
            if tiesAllowed then Allocated([1, 0, 0, 1, 0]) else TieRejected
  {
    var seed, table := Seed(DHondt, votes), WeightTable(DHondt, votes, 2);
    assert seed == [0, 0, 0, 0, 0] && Sum(seed) == 0 by { TieBreakSteps1(); }
    assert table == [[2.0, 1.0], [1.0, 1.0 / 2.0], [1.0, 1.0 / 2.0], [2.0, 1.0], [2.0, 1.0]] by { TieBreakSteps2(); }
    DivisorFits(DHondt, votes, 2);
    assert AboveCounts(table, 2.0) == [0, 0, 0, 0, 0] by { TieBreakSteps4(); }
    assert Holders(table, 2.0) == [true, false, false, true, true] by { TieBreakSteps5(); }
    TieBreakSteps6();
    assert IsKthLargest(Flatten(table), 2, 2.0) by {
      TieBreakSteps3();
      KthFromRows(table, 2.0, 2);
    }
    CutoffIs(seed, table, 2, 2.0);
    TableOutcome(seed, table, 2, tiesAllowed, 2.0, [0, 0, 0, 0, 0], [true, false, false, true, true], 2, [1, 0, 0, 1, 0]);
  }

  /** The unit tests' tie-breaking fixture: votes 2, 1, 1, 2, 2 for 2 seats under
      D'Hondt. Three parties hold the cutoff 2; the first two in list order
      take the seats, or a tie is reported. */
  lemma TieBreakExample(votes: seq<nat>, tiesAllowed: bool)
    requires votes == [2, 1, 1, 2, 2]
    ensures DivisorAllocation(DHondt, votes, 2, tiesAllowed) == if tiesAllowed then Allocated([1, 0, 0, 1, 0]) else TieRejected
  {
    TieBreakTable(votes, tiesAllowed);
    DivisorIsTable(DHondt, votes, 2, tiesAllowed);
  }
}
