/** The divisor sequences of the divisor methods and the weight
    votes / divisor that ranks a party's claims to further seats.

    Huntington-Hill divides by sqrt((j + 1)(j + 2)); its weights are ranked
    here by their squares v^2 / ((j + 1)(j + 2)), which order and tie exactly
    as the square-root weights do for non-negative votes. */
module Divisors {
  import opened Common

  datatype DivisorMethod =
    | DHondt               // divisors 1, 2, 3, ...
    | SainteLague          // divisors 1, 3, 5, ...
    | ModifiedSainteLague  // divisors 7/5, 3, 5, ...
    | HuntingtonHill       // divisors sqrt((j + 1)(j + 2)), one seat first
    | Adams                // divisors 1, 2, 3, ... after one seat first
    | Dean                 // divisors 2(j + 1)(j + 2) / (2j + 3), one seat first

  /** The methods whose first divisor is zero: every party with votes first
      gets one seat, and with fewer seats than parties the strongest parties
      get one seat each. */
  predicate Seeded(dm: DivisorMethod)
  {
    dm == HuntingtonHill || dm == Adams || dm == Dean
  }

  /** The method names the divisor engine accepts, aliases included. */
  function DivisorMethodNamed(name: string): (dm: Option<DivisorMethod>)
  {
    if name == "dhondt" || name == "jefferson" || name == "greatestdivisors" then Some(DHondt)
    else if name == "saintelague" || name == "webster" || name == "majorfractions" then Some(SainteLague)
    else if name == "modified_saintelague" then Some(ModifiedSainteLague)
    else if name == "huntington" || name == "hill" || name == "equalproportions" then Some(HuntingtonHill)
    else if name == "adams" || name == "smallestdivisor" then Some(Adams)
    else if name == "dean" || name == "harmonicmean" then Some(Dean)
    else None
  }

  /** Every divisor name and alias resolves to its method, and the names of
      the other methods resolve to none. */
  lemma DivisorNamesComplete()
    ensures DivisorMethodNamed("dhondt") == Some(DHondt)
    ensures DivisorMethodNamed("jefferson") == Some(DHondt)
    ensures DivisorMethodNamed("greatestdivisors") == Some(DHondt)
    ensures DivisorMethodNamed("saintelague") == Some(SainteLague)
    ensures DivisorMethodNamed("webster") == Some(SainteLague)
    ensures DivisorMethodNamed("majorfractions") == Some(SainteLague)
    ensures DivisorMethodNamed("modified_saintelague") == Some(ModifiedSainteLague)
    ensures DivisorMethodNamed("huntington") == Some(HuntingtonHill)
    ensures DivisorMethodNamed("hill") == Some(HuntingtonHill)
    ensures DivisorMethodNamed("equalproportions") == Some(HuntingtonHill)
    ensures DivisorMethodNamed("adams") == Some(Adams)
    ensures DivisorMethodNamed("smallestdivisor") == Some(Adams)
    ensures DivisorMethodNamed("dean") == Some(Dean)
    ensures DivisorMethodNamed("harmonicmean") == Some(Dean)
    ensures DivisorMethodNamed("quota") == None
    ensures DivisorMethodNamed("largest_remainder") == None
  {
    FirstDivisorNames();
    SeededDivisorNames();
    OtherNames();
  }

  /** The names of the methods whose first divisor is positive. */
  lemma FirstDivisorNames()
    ensures DivisorMethodNamed("dhondt") == Some(DHondt)
    ensures DivisorMethodNamed("jefferson") == Some(DHondt)
    ensures DivisorMethodNamed("greatestdivisors") == Some(DHondt)
    ensures DivisorMethodNamed("saintelague") == Some(SainteLague)
    ensures DivisorMethodNamed("webster") == Some(SainteLague)
    ensures DivisorMethodNamed("majorfractions") == Some(SainteLague)
    ensures DivisorMethodNamed("modified_saintelague") == Some(ModifiedSainteLague)
  {
  }

  /** The names of the methods whose first divisor is zero. */
  lemma SeededDivisorNames()
    ensures DivisorMethodNamed("huntington") == Some(HuntingtonHill)
    ensures DivisorMethodNamed("hill") == Some(HuntingtonHill)
    ensures DivisorMethodNamed("equalproportions") == Some(HuntingtonHill)
    ensures DivisorMethodNamed("adams") == Some(Adams)
    ensures DivisorMethodNamed("smallestdivisor") == Some(Adams)
    ensures DivisorMethodNamed("dean") == Some(Dean)
    ensures DivisorMethodNamed("harmonicmean") == Some(Dean)
  {
  }

  /** The names of the other methods are not divisor names. */
  lemma OtherNames()
    ensures DivisorMethodNamed("quota") == None
    ensures DivisorMethodNamed("largest_remainder") == None
  {
  }

  /** The fourteen names of the divisor methods, in the order compute lists
      them. */
  const DivisorNames: seq<string> :=
    ["dhondt", "jefferson", "saintelague", "webster", "modified_saintelague",
     "huntington", "hill", "adams", "dean", "smallestdivisor", "harmonicmean",
     "equalproportions", "majorfractions", "greatestdivisors"]

  /** A name selects a divisor method exactly when it is one of the
      fourteen names; every other string selects none. */
  lemma DivisorNamesExactly(name: string)
    ensures DivisorMethodNamed(name).Some? <==> name in DivisorNames
  {
  }

  /** The j-th divisor (j counting from 0) that a party's votes are divided
      by; for Huntington-Hill, the square of the divisor. For the seeded
      methods it is the divisor for the party's (j + 2)-th seat. */
  function Denominator(dm: DivisorMethod, j: nat): (d: real)
    ensures d > 0.0
  {
    match dm
    case DHondt => (j + 1) as real
    case SainteLague => (2 * j + 1) as real
    case ModifiedSainteLague => if j == 0 then 1.4 else (2 * j + 1) as real
    case HuntingtonHill => ((j + 1) * (j + 2)) as real
    case Adams => (j + 1) as real
    case Dean => (2 * (j + 1) * (j + 2)) as real / (2 * j + 3) as real
  }

  /** The votes as they enter the weight; squared for Huntington-Hill. */
  function Numerator(dm: DivisorMethod, v: nat): (n: real)
    ensures n >= 0.0 && (n == 0.0 <==> v == 0)
  {
    if dm == HuntingtonHill then (v * v) as real else v as real
  }

  /** The party's claim to its next seat after j of them. */
  function Weight(dm: DivisorMethod, v: nat, j: nat): (w: real)
    ensures w >= 0.0 && (w == 0.0 <==> v == 0)
  {
    Numerator(dm, v) / Denominator(dm, j)
  }

  /** x / y < z / w for positive denominators, by cross-multiplication. */
  lemma FractionLess(x: real, y: real, z: real, w: real)
    requires y > 0.0 && w > 0.0 && x * w < z * y
    ensures x / y < z / w
  {
    var a, b := x / y, z / w;
    assert a * y == x && b * w == z;
    assert a * (y * w) < b * (y * w);
  }

  /** Consecutive Dean divisors increase. */
  lemma DeanStep(j: nat)
    ensures Denominator(Dean, j) < Denominator(Dean, j + 1)
  {
    var x, y := (2 * (j + 1) * (j + 2)) as real, (2 * j + 3) as real;
    var z, w := (2 * (j + 2) * (j + 3)) as real, (2 * j + 5) as real;
    assert (2 * (j + 1) * (j + 2)) * (2 * j + 5) < (2 * (j + 2) * (j + 3)) * (2 * j + 3);
    assert x * w == ((2 * (j + 1) * (j + 2)) * (2 * j + 5)) as real;
    assert z * y == ((2 * (j + 2) * (j + 3)) * (2 * j + 3)) as real;
    FractionLess(x, y, z, w);
  }

  /** Consecutive divisors increase, for every method. */
  lemma DenominatorStep(dm: DivisorMethod, j: nat)
    ensures Denominator(dm, j) < Denominator(dm, j + 1)
  {
    match dm
    case HuntingtonHill =>
      assert (j + 1) * (j + 2) < (j + 2) * (j + 3);
    case Dean =>
      DeanStep(j);
    case _ =>
  }

  /** The divisor sequence of every method is strictly increasing. */
  lemma {:induction false} DenominatorIncreasing(dm: DivisorMethod, i: nat, j: nat)
    requires i < j
    ensures Denominator(dm, i) < Denominator(dm, j)
    decreases j - i
  {
    DenominatorStep(dm, i);
    if i + 1 < j {
      DenominatorIncreasing(dm, i + 1, j);
    }
  }

  /** A larger positive denominator gives a smaller quotient. */
  lemma DivideByMore(n: real, a: real, b: real)
    requires n > 0.0 && 0.0 < a < b
    ensures n / b < n / a
  {
    FractionLess(n, b, n, a);
  }

  /** A party with votes has strictly decreasing weights; in particular no
      two of its weights are equal. */
  lemma WeightDecreasing(dm: DivisorMethod, v: nat, i: nat, j: nat)
    requires v > 0 && i < j
    ensures Weight(dm, v, j) < Weight(dm, v, i)
  {
    DenominatorIncreasing(dm, i, j);
    DivideByMore(Numerator(dm, v), Denominator(dm, i), Denominator(dm, j));
  }

  /** More votes never give a smaller weight for the same seat. */
  lemma WeightMonotone(dm: DivisorMethod, v1: nat, v2: nat, j: nat)
    requires v1 <= v2
    ensures Weight(dm, v1, j) <= Weight(dm, v2, j)
  {
    if dm == HuntingtonHill {
      SquareMonotone(v1, v2);
    }
    DivideMonotone(Numerator(dm, v1), Numerator(dm, v2), Denominator(dm, j));
  }

  lemma SquareMonotone(a: nat, b: nat)
    requires a <= b
    ensures a * a <= b * b
  {
    assert a * a <= a * b <= b * b;
  }

  /** The unit tests' example of the two Sainte-Laguë variants: with 6 and 1
      votes, the small party's first claim beats the large party's fourth
      under Sainte-Laguë (1 > 6/7) but not under the modified method, whose
      first divisor is 7/5 (5/7 < 6/7). */
  lemma SainteLagueFirstDivisor()
    ensures Weight(SainteLague, 1, 0) > Weight(SainteLague, 6, 3)
    ensures Weight(ModifiedSainteLague, 1, 0) < Weight(ModifiedSainteLague, 6, 3)
  {
  }
}
