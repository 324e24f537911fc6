/** The divisor engine shared by D'Hondt, Sainte-Laguë, modified Sainte-Laguë,
    Huntington-Hill, Adams and Dean.

    Every party gets its seed (one seat per party with votes for the seeded
    methods, none otherwise). The k-th largest of all weights v / d_j, with k
    the seats still free, is the cutoff `minweight`; every party gets one
    seat per weight strictly above it, and the seats then left go, in list
    order, to the parties one of whose weights equals the cutoff.

    The engine is stated first over an arbitrary table of weight rows, one
    row per party, and then instantiated with the rows of a divisor method. */
module DivisorEngine {
  import opened Common
  import opened Ranking
  import opened Divisors
  import opened FewerSeats

  /** All weights of all parties, party by party. */
  function Flatten(table: seq<seq<real>>): seq<real>
  {
    if table == [] then [] else table[0] + Flatten(table[1..])
  }

  /** Per party, the number of its weights strictly above m. */
  function AboveCounts(table: seq<seq<real>>, m: real): (c: seq<nat>)
    ensures |c| == |table|
    ensures forall i :: 0 <= i < |table| ==> c[i] == CountAbove(table[i], m)
  {
    seq(|table|, i requires 0 <= i < |table| => CountAbove(table[i], m))
  }

  /** Per party, whether m is one of its weights. */
  function Holders(table: seq<seq<real>>, m: real): (h: seq<bool>)
    ensures |h| == |table|
    ensures forall i :: 0 <= i < |table| ==> h[i] == (m in table[i])
  {
    seq(|table|, i requires 0 <= i < |table| => m in table[i])
  }

  /** Entrywise sum of two seat vectors. */
  function Plus(a: seq<nat>, b: seq<nat>): (c: seq<nat>)
    requires |a| == |b|
    ensures |c| == |a| && forall i :: 0 <= i < |a| ==> c[i] == a[i] + b[i]
  {
    seq(|a|, i requires 0 <= i < |a| => a[i] + b[i])
  }

  /** A seed and a weight table for the same parties, with enough weights to
      fill every free seat. */
  ghost predicate Fits(seed: seq<nat>, table: seq<seq<real>>, seats: nat)
  {
    |seed| == |table| && (Sum(seed) < seats ==> seats - Sum(seed) <= |Flatten(table)|)
  }

  /** No party holds the weight m twice. */
  ghost predicate SingleAt(table: seq<seq<real>>, m: real)
  {
    forall i :: 0 <= i < |table| ==> CountEq(table[i], m) <= 1
  }

  /** Counting over all weights is counting party by party; the parties that
      hold m are as many as the weights equal to m when no party holds it
      twice. */
  lemma {:induction false} FlattenCounts(table: seq<seq<real>>, m: real, above: seq<nat>, holds: seq<bool>)
    requires |above| == |table| && |holds| == |table|
    requires forall i :: 0 <= i < |table| ==> above[i] == CountAbove(table[i], m)
    requires forall i :: 0 <= i < |table| ==> holds[i] == (m in table[i])
    ensures Sum(above) == CountAbove(Flatten(table), m)
    ensures SingleAt(table, m) ==> CountTrue(holds) == CountEq(Flatten(table), m)
  {
    if table != [] {
      FlattenCounts(table[1..], m, above[1..], holds[1..]);
      CountConcat(table[0], Flatten(table[1..]), m);
      if m in table[0] {
        OccursCounted(table[0], m);
      } else {
        Absent(table[0], m);
      }
    }
  }

  /** A value that does not occur is never counted as equal. */
  lemma {:induction false} Absent(s: seq<real>, x: real)
    requires x !in s
    ensures CountEq(s, x) == 0
  {
    if s != [] {
      assert x !in s[1..] by {
        forall i | 0 <= i < |s[1..]| ensures s[1..][i] != x { assert s[1..][i] == s[i + 1]; }
      }
      Absent(s[1..], x);
    }
  }

  /** The weights of all parties are at least as many above x as the weights
      of any one party. */
  lemma {:induction false} FlattenAbove(table: seq<seq<real>>, x: real, p: nat)
    requires p < |table|
    ensures CountAbove(table[p], x) <= CountAbove(Flatten(table), x)
  {
    CountConcat(table[0], Flatten(table[1..]), x);
    if p > 0 {
      FlattenAbove(table[1..], x, p - 1);
    }
  }

  /** The number of weights of a table whose rows all have w entries. */
  lemma {:induction false} FlattenLength(table: seq<seq<real>>, w: nat)
    requires forall i :: 0 <= i < |table| ==> |table[i]| == w
    ensures |Flatten(table)| == |table| * w
  {
    if table != [] {
      FlattenLength(table[1..], w);
      assert |table| * w == w + (|table| - 1) * w;
    }
  }

  /** minweight: the (seats - seed)-th largest weight. */
  function MinWeight(seed: seq<nat>, table: seq<seq<real>>, seats: nat): (m: real)
    requires Fits(seed, table, seats) && Sum(seed) < seats
    ensures IsKthLargest(Flatten(table), seats - Sum(seed), m)
  {
    KthLargest(Flatten(table), seats - Sum(seed))
  }

  /** The seed plus, per party, its weights strictly above the cutoff; fewer
      than `seats` in total. */
  function Base(seed: seq<nat>, table: seq<seq<real>>, seats: nat): (b: seq<nat>)
    requires Fits(seed, table, seats) && Sum(seed) < seats
    ensures |b| == |seed| && Sum(b) < seats
    ensures forall i :: 0 <= i < |b| ==> b[i] == seed[i] + CountAbove(table[i], MinWeight(seed, table, seats))
  {
    var m := MinWeight(seed, table, seats);
    var above := AboveCounts(table, m);
    FlattenCounts(table, m, above, Holders(table, m));
    SumAdd(seed, above, Plus(seed, above));
    Plus(seed, above)
  }

  /** The engine over a weight table: the seed alone when it fills the
      seats; otherwise the base, then one more seat for each party holding
      the cutoff, in list order while seats remain, and a tie when a holder
      is left over and ties are not allowed. */
  function TableAllocation(seed: seq<nat>, table: seq<seq<real>>, seats: nat, tiesAllowed: bool): Outcome
    requires Fits(seed, table, seats)
  {
    if Sum(seed) >= seats then Allocated(seed)
    else
      var base := Base(seed, table, seats);
      var holds := Holders(table, MinWeight(seed, table, seats));
      var rest := seats - Sum(base);
      if !tiesAllowed && CountTrue(holds) > rest then TieRejected
      else Allocated(AddOnes(base, FirstInOrder(holds, rest)))
  }

  /** When no party holds the cutoff twice, the holders cover every seat
      left after the base: the allocation sums to exactly `seats`, and a tie
      is reported exactly when more weights reach the cutoff than there are
      free seats. */
  lemma TableFills(seed: seq<nat>, table: seq<seq<real>>, seats: nat, tiesAllowed: bool)
    requires Fits(seed, table, seats) && Sum(seed) < seats
    requires SingleAt(table, MinWeight(seed, table, seats))
    ensures var r := TableAllocation(seed, table, seats, tiesAllowed);
            r.Allocated? ==> |r.seats| == |seed| && Sum(r.seats) == seats
    ensures TableAllocation(seed, table, seats, tiesAllowed) == TieRejected <==>
            !tiesAllowed && CountAtLeast(Flatten(table), MinWeight(seed, table, seats)) > seats - Sum(seed)
  {
    var m := MinWeight(seed, table, seats);
    var base := Base(seed, table, seats);
    var holds := Holders(table, m);
    FlattenCounts(table, m, AboveCounts(table, m), holds);
    SumAdd(seed, AboveCounts(table, m), base);
    AtLeastSplit(Flatten(table), m);
    var picks := FirstInOrder(holds, seats - Sum(base));
    SumAddOnes(base, picks);
    FirstInOrderCount(holds, seats - Sum(base));
  }

  /** The weights of one party with v votes for its seats after the seed. */
  function PartyWeights(dm: DivisorMethod, v: nat, seats: nat): (w: seq<real>)
    ensures |w| == seats && forall j :: 0 <= j < seats ==> w[j] == Weight(dm, v, j)
  {
    seq(seats, j requires 0 <= j < seats => Weight(dm, v, j))
  }

  /** The weight table, one row per party. */
  function WeightTable(dm: DivisorMethod, votes: seq<nat>, seats: nat): (t: seq<seq<real>>)
    ensures |t| == |votes| && forall i :: 0 <= i < |votes| ==> t[i] == PartyWeights(dm, votes[i], seats)
  {
    seq(|votes|, i requires 0 <= i < |votes| => PartyWeights(dm, votes[i], seats))
  }

  /** One seat for every party with votes under a seeded method, none
      otherwise. */
  function Seed(dm: DivisorMethod, votes: seq<nat>): (s: seq<nat>)
    ensures |s| == |votes|
    ensures forall i :: 0 <= i < |votes| ==> s[i] == if Seeded(dm) && votes[i] > 0 then 1 else 0
  {
    seq(|votes|, i requires 0 <= i < |votes| => if Seeded(dm) && votes[i] > 0 then 1 else 0)
  }

  lemma DivisorFits(dm: DivisorMethod, votes: seq<nat>, seats: nat)
    requires |votes| >= 1
    ensures Fits(Seed(dm, votes), WeightTable(dm, votes, seats), seats)
  {
    FlattenLength(WeightTable(dm, votes, seats), seats);
    assert |votes| * seats == seats + (|votes| - 1) * seats;
  }

  /** divisor, for one of the six methods: the fewer-seats rule when a
      seeded method has fewer seats than parties, otherwise the engine over
      the method's weights. */
  function DivisorAllocation(dm: DivisorMethod, votes: seq<nat>, seats: nat, tiesAllowed: bool): Outcome
    requires |votes| >= 1
  {
    if Seeded(dm) && seats < |votes| then FewerSeatsAllocation(votes, seats, tiesAllowed)
    else
      DivisorFits(dm, votes, seats);
      TableAllocation(Seed(dm, votes), WeightTable(dm, votes, seats), seats, tiesAllowed)
  }

  /** The cutoff of the divisor engine. */
  function Cutoff(dm: DivisorMethod, votes: seq<nat>, seats: nat): (m: real)
    requires |votes| >= 1 && Sum(Seed(dm, votes)) < seats
  {
    DivisorFits(dm, votes, seats);
    MinWeight(Seed(dm, votes), WeightTable(dm, votes, seats), seats)
  }

  /** With votes cast the cutoff is positive, and no party holds it twice:
      a party with votes has strictly decreasing weights, and a party
      without votes has only zero weights. */
  lemma CutoffPositive(dm: DivisorMethod, votes: seq<nat>, seats: nat)
    requires |votes| >= 1 && Sum(votes) > 0 && Sum(Seed(dm, votes)) < seats
    ensures Cutoff(dm, votes, seats) > 0.0
    ensures SingleAt(WeightTable(dm, votes, seats), Cutoff(dm, votes, seats))
  {
    var table := WeightTable(dm, votes, seats);
    var m := Cutoff(dm, votes, seats);
    var p := PositiveEntry(votes);
    AllAbove(table[p], 0.0);
    FlattenAbove(table, 0.0, p);
    if m <= 0.0 {
      CountAntitone(Flatten(table), m, 0.0);
      assert false;
    }
    forall i | 0 <= i < |votes|
      ensures CountEq(table[i], m) <= 1
    {
      RowSingle(dm, votes[i], seats, m);
    }
  }

  /** No party holds a positive weight twice. */
  lemma RowSingle(dm: DivisorMethod, v: nat, seats: nat, m: real)
    requires m > 0.0
    ensures CountEq(PartyWeights(dm, v, seats), m) <= 1
  {
    var row := PartyWeights(dm, v, seats);
    if v > 0 {
      forall a, b | 0 <= a < b < seats
        ensures row[a] != row[b]
      {
        WeightDecreasing(dm, v, a, b);
      }
      DistinctCountEq(row, m);
    } else {
      NoneAtLeast(row, m);
      AtLeastSplit(row, m);
    }
  }

  /** Exactly `seats` seats are handed out whenever votes are cast. */
  lemma DivisorSumsToSeats(dm: DivisorMethod, votes: seq<nat>, seats: nat, tiesAllowed: bool)
    requires |votes| >= 1 && Sum(votes) > 0
    requires DivisorAllocation(dm, votes, seats, tiesAllowed).Allocated?
    ensures var r := DivisorAllocation(dm, votes, seats, tiesAllowed).seats;
            |r| == |votes| && Sum(r) == seats
  {
    var seed := Seed(dm, votes);
    if Seeded(dm) && seats < |votes| {
      FewerSeatsShape(votes, seats, tiesAllowed, 0);
    } else if Sum(seed) >= seats {
      if Seeded(dm) {
        SumOfSmall(seed);
      } else {
        SumOfZeros(seed);
      }
    } else {
      DivisorFits(dm, votes, seats);
      CutoffPositive(dm, votes, seats);
      TableFills(seed, WeightTable(dm, votes, seats), seats, tiesAllowed);
    }
  }

  /** Outside the fewer-seats rule, a tie is reported exactly when ties are
      not allowed and more weights reach the cutoff than there are seats
      left after the seed: the free seats cannot be filled without breaking
      a tie between equal weights. */
  lemma DivisorTieIff(dm: DivisorMethod, votes: seq<nat>, seats: nat, tiesAllowed: bool)
    requires |votes| >= 1 && Sum(votes) > 0 && !(Seeded(dm) && seats < |votes|)
    ensures DivisorAllocation(dm, votes, seats, tiesAllowed) == TieRejected <==>
            !tiesAllowed && Sum(Seed(dm, votes)) < seats &&
            CountAtLeast(Flatten(WeightTable(dm, votes, seats)), Cutoff(dm, votes, seats)) > seats - Sum(Seed(dm, votes))
    ensures tiesAllowed ==> DivisorAllocation(dm, votes, seats, tiesAllowed).Allocated?
  {
    if Sum(Seed(dm, votes)) < seats {
      DivisorFits(dm, votes, seats);
      CutoffPositive(dm, votes, seats);
      TableFills(Seed(dm, votes), WeightTable(dm, votes, seats), seats, tiesAllowed);
    }
  }

  /** The seats left for the pass in list order after the base. */
  function Leftover(dm: DivisorMethod, votes: seq<nat>, seats: nat): nat
    requires |votes| >= 1 && Sum(Seed(dm, votes)) < seats
  {
    DivisorFits(dm, votes, seats);
    seats - Sum(Base(Seed(dm, votes), WeightTable(dm, votes, seats), seats))
  }

  /** The parties one of whose weights equals the cutoff. */
  function CutoffHolders(dm: DivisorMethod, votes: seq<nat>, seats: nat): seq<bool>
    requires |votes| >= 1 && Sum(Seed(dm, votes)) < seats
  {
    Holders(WeightTable(dm, votes, seats), Cutoff(dm, votes, seats))
  }

  /** What every party receives outside the fewer-seats rule: its seed, one
      seat per weight strictly above the cutoff, and one more when it holds
      the cutoff and is reached in list order while seats remain. */
  lemma DivisorPartySeats(dm: DivisorMethod, votes: seq<nat>, seats: nat, tiesAllowed: bool, i: nat)
    requires |votes| >= 1 && !(Seeded(dm) && seats < |votes|) && Sum(Seed(dm, votes)) < seats
    requires i < |votes| && DivisorAllocation(dm, votes, seats, tiesAllowed).Allocated?
    ensures var r := DivisorAllocation(dm, votes, seats, tiesAllowed).seats;
            |r| == |votes| &&
            r[i] == Seed(dm, votes)[i] + CountAbove(PartyWeights(dm, votes[i], seats), Cutoff(dm, votes, seats)) +
                    (if CutoffHolders(dm, votes, seats)[i] && CountTrue(CutoffHolders(dm, votes, seats)[..i]) < Leftover(dm, votes, seats) then 1 else 0)
  {
    DivisorFits(dm, votes, seats);
    FirstInOrderAt(CutoffHolders(dm, votes, seats), Leftover(dm, votes, seats), i);
  }

  /** In a strictly decreasing row the weights above m form a prefix, and m
      itself, when present, comes right after it. */
  lemma {:induction false} DecreasingPrefix(s: seq<real>, m: real)
    requires forall a, b :: 0 <= a < b < |s| ==> s[b] < s[a]
    ensures CountAbove(s, m) <= |s|
    ensures forall j :: 0 <= j < |s| ==> (s[j] > m <==> j < CountAbove(s, m))
    ensures m in s ==> CountAbove(s, m) < |s| && s[CountAbove(s, m)] == m
  {
    if s != [] {
      if s[0] > m {
        DecreasingPrefix(s[1..], m);
        assert forall j :: 1 <= j < |s| ==> s[j] == s[1..][j - 1];
        if m in s {
          var j :| 0 <= j < |s| && s[j] == m;
          assert s[1..][j - 1] == m;
        }
      } else {
        CountAntitoneAbove(s, m);
      }
    }
  }

  /** The shape of one party's weights around a positive cutoff m. */
  lemma RowShape(dm: DivisorMethod, v: nat, seats: nat, m: real)
    requires m > 0.0
    ensures var c := CountAbove(PartyWeights(dm, v, seats), m);
            c <= seats &&
            (forall j :: 0 <= j < c ==> Weight(dm, v, j) > m) &&
            (forall j :: c <= j < seats ==> Weight(dm, v, j) <= m) &&
            (m in PartyWeights(dm, v, seats) ==> c < seats && Weight(dm, v, c) == m) &&
            (v == 0 ==> c == 0 && m !in PartyWeights(dm, v, seats))
  {
    var row := PartyWeights(dm, v, seats);
    if v > 0 {
      forall a, b | 0 <= a < b < seats
        ensures row[b] < row[a]
      {
        WeightDecreasing(dm, v, a, b);
      }
      DecreasingPrefix(row, m);
    } else {
      NoneAtLeast(row, m);
    }
  }

  /** The cutoff separates the seats a party receives from those it does
      not: outside the fewer-seats rule, the weights a party used for its
      seats after the seed are all at least the cutoff, and its unused
      weights are all at most the cutoff. */
  lemma DivisorCutoffSeparates(dm: DivisorMethod, votes: seq<nat>, seats: nat, tiesAllowed: bool, i: nat)
    requires |votes| >= 1 && Sum(votes) > 0 && !(Seeded(dm) && seats < |votes|) && Sum(Seed(dm, votes)) < seats
    requires i < |votes| && DivisorAllocation(dm, votes, seats, tiesAllowed).Allocated?
    ensures var r := DivisorAllocation(dm, votes, seats, tiesAllowed).seats;
            |r| == |votes| && Seed(dm, votes)[i] <= r[i] <= Seed(dm, votes)[i] + seats
    ensures var r := DivisorAllocation(dm, votes, seats, tiesAllowed).seats;
            var u := r[i] - Seed(dm, votes)[i];
            (forall j :: 0 <= j < u ==> Weight(dm, votes[i], j) >= Cutoff(dm, votes, seats)) &&
            (forall j :: u <= j < seats ==> Weight(dm, votes[i], j) <= Cutoff(dm, votes, seats))
  {
    var m := Cutoff(dm, votes, seats);
    var holds := CutoffHolders(dm, votes, seats);
    CutoffPositive(dm, votes, seats);
    DivisorPartySeats(dm, votes, seats, tiesAllowed, i);
    var pick := holds[i] && CountTrue(holds[..i]) < Leftover(dm, votes, seats);
    assert holds[i] == (m in PartyWeights(dm, votes[i], seats));
    SeparatedAt(dm, votes[i], seats, m, pick);
  }

  /** One party's weights around a positive cutoff m, when it takes its
      weights above m and, if `pick`, the one equal to m. */
  lemma SeparatedAt(dm: DivisorMethod, v: nat, seats: nat, m: real, pick: bool)
    requires m > 0.0 && (pick ==> m in PartyWeights(dm, v, seats))
    ensures var u := CountAbove(PartyWeights(dm, v, seats), m) + if pick then 1 else 0;
            u <= seats &&
            (forall j :: 0 <= j < u ==> Weight(dm, v, j) >= m) &&
            (forall j :: u <= j < seats ==> Weight(dm, v, j) <= m)
  {
    RowShape(dm, v, seats, m);
  }

  /** A party takes a seat with a weight equal to the cutoff exactly when
      it is picked in the pass. */
  lemma LastAtCutoff(dm: DivisorMethod, v: nat, seats: nat, m: real, pick: bool)
    requires m > 0.0 && (pick ==> m in PartyWeights(dm, v, seats))
    ensures var u := CountAbove(PartyWeights(dm, v, seats), m) + if pick then 1 else 0;
            (u >= 1 && Weight(dm, v, u - 1) == m) <==> pick
  {
    RowShape(dm, v, seats, m);
  }

  /** The max-min inequality of divisor methods: no party's next claim
      exceeds the claim with which another party won its last seat. */
  lemma DivisorMinMax(dm: DivisorMethod, votes: seq<nat>, seats: nat, tiesAllowed: bool, i: nat, l: nat)
    requires |votes| >= 1 && Sum(votes) > 0 && !(Seeded(dm) && seats < |votes|) && Sum(Seed(dm, votes)) < seats
    requires i < |votes| && l < |votes| && DivisorAllocation(dm, votes, seats, tiesAllowed).Allocated?
    ensures var r := DivisorAllocation(dm, votes, seats, tiesAllowed).seats;
            |r| == |votes| && r[i] >= Seed(dm, votes)[i] && r[l] >= Seed(dm, votes)[l]
    ensures var r := DivisorAllocation(dm, votes, seats, tiesAllowed).seats;
            var ui, ul := r[i] - Seed(dm, votes)[i], r[l] - Seed(dm, votes)[l];
            ui < seats && ul >= 1 ==> Weight(dm, votes[i], ui) <= Weight(dm, votes[l], ul - 1)
  {
    DivisorCutoffSeparates(dm, votes, seats, tiesAllowed, i);
    DivisorCutoffSeparates(dm, votes, seats, tiesAllowed, l);
  }

  /** A party without votes gets no seat outside the fewer-seats rule. */
  lemma DivisorZeroVotes(dm: DivisorMethod, votes: seq<nat>, seats: nat, tiesAllowed: bool, i: nat)
    requires |votes| >= 1 && Sum(votes) > 0 && !(Seeded(dm) && seats < |votes|)
    requires i < |votes| && votes[i] == 0 && DivisorAllocation(dm, votes, seats, tiesAllowed).Allocated?
    ensures DivisorAllocation(dm, votes, seats, tiesAllowed).seats[i] == 0
  {
    if Sum(Seed(dm, votes)) < seats {
      CutoffPositive(dm, votes, seats);
      DivisorPartySeats(dm, votes, seats, tiesAllowed, i);
      RowShape(dm, votes[i], seats, Cutoff(dm, votes, seats));
    }
  }

  /** A party wins its last seat with a weight equal to the cutoff exactly
      when it holds the cutoff and fewer than the seats left over are taken
      by holders before it in list order. */
  lemma DivisorWinsAtCutoff(dm: DivisorMethod, votes: seq<nat>, seats: nat, tiesAllowed: bool, i: nat)
    requires |votes| >= 1 && Sum(votes) > 0 && !(Seeded(dm) && seats < |votes|) && Sum(Seed(dm, votes)) < seats
    requires i < |votes| && DivisorAllocation(dm, votes, seats, tiesAllowed).Allocated?
    ensures var r := DivisorAllocation(dm, votes, seats, tiesAllowed).seats;
            |r| == |votes| &&
            ((r[i] > Seed(dm, votes)[i] && Weight(dm, votes[i], r[i] - Seed(dm, votes)[i] - 1) == Cutoff(dm, votes, seats)) <==>
             (CutoffHolders(dm, votes, seats)[i] && CountTrue(CutoffHolders(dm, votes, seats)[..i]) < Leftover(dm, votes, seats)))
  {
    var m := Cutoff(dm, votes, seats);
    var holds := CutoffHolders(dm, votes, seats);
    CutoffPositive(dm, votes, seats);
    DivisorPartySeats(dm, votes, seats, tiesAllowed, i);
    var pick := holds[i] && CountTrue(holds[..i]) < Leftover(dm, votes, seats);
    assert holds[i] == (m in PartyWeights(dm, votes[i], seats));
    LastAtCutoff(dm, votes[i], seats, m, pick);
  }

  /** Ties at the cutoff are broken in list order: when a party wins its
      last seat with a weight equal to the cutoff, every earlier party
      holding the cutoff weight wins a seat with it too. */
  lemma DivisorEarlierWins(dm: DivisorMethod, votes: seq<nat>, seats: nat, tiesAllowed: bool, i: nat, l: nat)
    requires |votes| >= 1 && Sum(votes) > 0 && !(Seeded(dm) && seats < |votes|) && Sum(Seed(dm, votes)) < seats
    requires i < l < |votes| && DivisorAllocation(dm, votes, seats, tiesAllowed).Allocated?
    requires Cutoff(dm, votes, seats) in PartyWeights(dm, votes[i], seats)
    requires var r := DivisorAllocation(dm, votes, seats, tiesAllowed).seats;
             |r| == |votes| &&
             r[l] > Seed(dm, votes)[l] && Weight(dm, votes[l], r[l] - Seed(dm, votes)[l] - 1) == Cutoff(dm, votes, seats)
    ensures var r := DivisorAllocation(dm, votes, seats, tiesAllowed).seats;
            r[i] > Seed(dm, votes)[i] && Weight(dm, votes[i], r[i] - Seed(dm, votes)[i] - 1) == Cutoff(dm, votes, seats)
  {
    var holds := CutoffHolders(dm, votes, seats);
    DivisorWinsAtCutoff(dm, votes, seats, tiesAllowed, l);
    DivisorWinsAtCutoff(dm, votes, seats, tiesAllowed, i);
    assert holds[i];
    HolderBefore(holds, Leftover(dm, votes, seats), i, l);
  }

  /** A holder before a holder reached while seats remain is reached while
      seats remain too. */
  lemma HolderBefore(holds: seq<bool>, k: nat, i: nat, l: nat)
    requires i < l < |holds| && holds[i] && CountTrue(holds[..l]) < k
    ensures CountTrue(holds[..i]) < k
  {
    CountTruePrefix(holds, i + 1, l);
    assert holds[..i + 1] == holds[..i] + [holds[i]];
    CountTrueAppend(holds[..i], holds[i]);
  }

  /** divisor: seeds the allocation, adds every party's count of weights
      above the cutoff, then hands out the seats left in one pass in list
      order, rejecting a tie at the first holder left over when ties are not
      allowed. */
  method ComputeDivisor(dm: DivisorMethod, votes: seq<nat>, seats: nat, tiesAllowed: bool) returns (out: Outcome)
    requires |votes| >= 1
    ensures out == DivisorAllocation(dm, votes, seats, tiesAllowed)
  {
    var n := |votes|;
    if Seeded(dm) && seats < n {
      // The fewer-seats rule fills every seat (FewerSeatsShape), so the
      // engine below leaves its allocation unchanged.
      out := FewerSeatsThanParties(votes, seats, tiesAllowed);
      return;
    }
    var representatives := new nat[n](i requires 0 <= i < n => if Seeded(dm) && votes[i] > 0 then 1 else 0);
    assert representatives[..] == Seed(dm, votes);
    DivisorFits(dm, votes, seats);
    out := AssignFromTable(representatives, WeightTable(dm, votes, seats), seats, tiesAllowed);
  }

  /** The engine after the seed: when seats are free, the cutoff, the
      counts above it and the pass in list order. */
  method AssignFromTable(representatives: array<nat>, weights: seq<seq<real>>, seats: nat, tiesAllowed: bool)
    returns (out: Outcome)
    requires Fits(representatives[..], weights, seats)
    modifies representatives
    ensures out == TableAllocation(old(representatives[..]), weights, seats, tiesAllowed)
  {
    ghost var seed := representatives[..];
    if seats > Sum(representatives[..]) {
      var minweight := MinWeight(representatives[..], weights, seats);
      AddCountsAbove(representatives, weights, minweight);
      assert representatives[..] == Base(seed, weights, seats);
      var ties := HandOutAtCutoff(representatives, weights, minweight, seats, tiesAllowed);
      if ties && !tiesAllowed {
        return TieRejected;
      }
    }
    out := Allocated(representatives[..]);
  }

  /** Adds to every party its number of weights strictly above the cutoff. */
  method AddCountsAbove(representatives: array<nat>, weights: seq<seq<real>>, minweight: real)
    requires representatives.Length == |weights|
    modifies representatives
    ensures representatives[..] == Plus(old(representatives[..]), AboveCounts(weights, minweight))
  {
    for i := 0 to representatives.Length
      invariant forall j :: 0 <= j < representatives.Length ==>
                  representatives[j] == old(representatives[j]) + if j < i then CountAbove(weights[j], minweight) else 0
    {
      representatives[i] := representatives[i] + CountAbove(weights[i], minweight);
    }
  }

  /** The pass over the parties in list order: a party holding the cutoff
      takes one seat while seats remain; one reached when the seats are full
      is a tie, and with ties not allowed the pass stops there. */
  method HandOutAtCutoff(representatives: array<nat>, weights: seq<seq<real>>, minweight: real, seats: nat, tiesAllowed: bool)
    returns (ties: bool)
    requires representatives.Length == |weights| && Sum(representatives[..]) < seats
    modifies representatives
    ensures ties == (CountTrue(Holders(weights, minweight)) > seats - Sum(old(representatives[..])))
    ensures tiesAllowed || !ties ==>
              representatives[..] == AddOnes(old(representatives[..]), FirstInOrder(Holders(weights, minweight), seats - Sum(old(representatives[..]))))
  {
    var n := representatives.Length;
    ghost var base := representatives[..];
    ghost var holds := Holders(weights, minweight);
    ghost var rest := seats - Sum(base);
    ghost var picks := FirstInOrder(holds, rest);
    var handedOut := Sum(representatives[..]);
    ties := false;
    for i := 0 to n
      invariant forall j :: 0 <= j < n ==> representatives[j] == base[j] + if j < i && picks[j] then 1 else 0
      invariant handedOut == Sum(base) + Min(rest, CountTrue(holds[..i]))
      invariant ties == (CountTrue(holds[..i]) > rest)
    {
      PassStep(holds, rest, i);
      if handedOut == seats && minweight in weights[i] {
        ties := true;
        if !tiesAllowed {
          CountTruePrefix(holds, i + 1, n);
          assert holds[..n] == holds;
          return;
        }
      }
      if handedOut < seats && minweight in weights[i] {
        representatives[i] := representatives[i] + 1;
        handedOut := handedOut + 1;
      }
    }
    assert holds[..n] == holds;
    assert representatives[..] == AddOnes(base, picks);
  }

  /** The cutoff is pinned down by counting, and with it the base. */
  lemma CutoffIs(seed: seq<nat>, table: seq<seq<real>>, seats: nat, m: real)
    requires Fits(seed, table, seats) && Sum(seed) < seats
    requires IsKthLargest(Flatten(table), seats - Sum(seed), m)
    ensures MinWeight(seed, table, seats) == m
    ensures Base(seed, table, seats) == Plus(seed, AboveCounts(table, m))
  {
    KthLargestUnique(Flatten(table), seats - Sum(seed), m);
  }

  /** The cutoff read off party by party: when no party holds m twice, m
      is the k-th largest weight exactly when fewer than k weights lie above
      it and those together with the holders of m are at least k. */
  lemma KthFromRows(table: seq<seq<real>>, m: real, k: nat)
    requires SingleAt(table, m)
    requires Sum(AboveCounts(table, m)) < k <= Sum(AboveCounts(table, m)) + CountTrue(Holders(table, m))
    ensures IsKthLargest(Flatten(table), k, m)
  {
    FlattenCounts(table, m, AboveCounts(table, m), Holders(table, m));
    AtLeastSplit(Flatten(table), m);
  }

  /** Outside the fewer-seats rule, divisor is the engine over the method's
      seed and weight table. */
  lemma DivisorIsTable(dm: DivisorMethod, votes: seq<nat>, seats: nat, tiesAllowed: bool)
    requires |votes| >= 1 && !(Seeded(dm) && seats < |votes|)
    ensures Fits(Seed(dm, votes), WeightTable(dm, votes, seats), seats)
    ensures DivisorAllocation(dm, votes, seats, tiesAllowed) ==
            TableAllocation(Seed(dm, votes), WeightTable(dm, votes, seats), seats, tiesAllowed)
  {
    DivisorFits(dm, votes, seats);
  }

  /** The engine once its cutoff, base, holders and pass are known. */
  lemma TableOutcome(seed: seq<nat>, table: seq<seq<real>>, seats: nat, tiesAllowed: bool,
                     m: real, base: seq<nat>, holds: seq<bool>, rest: nat, r: seq<nat>)
    requires Fits(seed, table, seats) && Sum(seed) < seats
    requires MinWeight(seed, table, seats) == m && Base(seed, table, seats) == base
    requires Holders(table, m) == holds && rest == seats - Sum(base)
    requires |holds| == |base| && r == AddOnes(base, FirstInOrder(holds, rest))
    ensures TableAllocation(seed, table, seats, tiesAllowed) ==
            if !tiesAllowed && CountTrue(holds) > rest then TieRejected else Allocated(r)
  {
  }
}
