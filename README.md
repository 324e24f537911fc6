# Apportionment methods, modelled and proved in Dafny

This project models the seat-allocation engine of the `apportionment` Python
package. The engine divides a fixed number of seats among parties in
proportion to their votes. It does this with three families of methods:

- largest remainder (Hamilton);
- the divisor methods: D'Hondt, Sainte-Laguë, modified Sainte-Laguë,
  Huntington-Hill, Adams and Dean;
- the quota method of Balinski and Young.

The engine also has a threshold filter that runs first, and a validator that
checks whether an allocation is within quota. The model follows both the
package (`apportionment/methods.py`, entry point `compute`) and the older
single-file interface (`apportionment.py`, entry point `method`).

All arithmetic is exact rational arithmetic (Dafny `real`). This matches the
package's `fractions=True` path. Every outcome is an `Outcome`:

- `Allocated(seats)`: one seat count per party;
- `TieRejected`: the package's `TiesException`;
- `Unsupported`: the quota method's refusal of `tiesallowed=False`;
- `UnknownMethod`: the `NotImplementedError` for an unknown name.

Modules and files:

- `common.dfy` (`Common`): the outcome type, sums, floor and ceiling, and
  `FirstInOrder`. `FirstInOrder` is the list-order pass every method uses to
  break ties: of the flagged parties, the first `k` in list order win.
- `ranking.dfy` (`Ranking`): the k-th largest value, characterised by
  counting. The source finds its cutoffs by sorting and indexing.
- `threshold.dfy` (`Threshold`): `apply_threshold`.
- `quota_check.dfy` (`QuotaCheck`): `within_quota`, with lower and upper
  quotas.
- `largest_remainder.dfy` (`LargestRemainder`): `largest_remainder`.
- `divisors.dfy` (`Divisors`): the divisor sequences and weights.
- `fewer_seats.dfy` (`FewerSeats`): `__divzero_fewerseatsthanparties`.
- `divisor_engine.dfy` (`DivisorEngine`): `divisor`.
- `quota_method.dfy` (`QuotaMethod`): `quota`.
- `methods.dfy` (`Apportionment`): `compute`.
- `legacy.dfy` (`Legacy`): the older `method`.
- `divisor_examples.dfy` and `quota_examples.dfy`: the unit-test fixtures,
  proved about the model.

Each function of the source that builds its result in a loop over an array is
a Dafny `method` with a loop over an `array`. Its `ensures` ties the result
to a specification function, and lemmas prove the source's promises about
that function:

- sums to the house size;
- tie detection (both directions);
- ties broken in list order;
- within quota;
- upper quota respected;
- zero votes give zero seats;
- house monotonicity of the quota method;
- idempotence of the threshold.

Huntington-Hill divides by `sqrt((j+1)(j+2))`. The model ranks the squares
`v^2 / ((j+1)(j+2))` instead. These order and tie exactly as the square-root
weights do, so the model needs no irrational numbers.

The older `apportionment.py` runs the same algorithms as the package with
ties always allowed:

- its `apply_threshold` and `within_quota` are the same code as the
  package's;
- its largest remainder takes the `(seats - floors)`-th largest remainder as
  the cutoff;
- its divisor and fewer-seats code computes the same cutoffs by a descending
  sort;
- its quota loop runs one round per seat.

The `Legacy` module therefore reuses the package's definitions with
`tiesAllowed = true`. It proves that `method` agrees with `compute` on every
name it knows. The one name it does not know is `modified_saintelague`.

Where the specification of the package and its code differ, the model follows
the code:

- **Zero-vote parties.** The specification says that parties without votes
  always get no seats. The code's fewer-seats rule for Huntington-Hill, Adams
  and Dean (fewer seats than parties) can seat a party without votes. This
  happens when fewer parties than seats have votes. `ZeroVotePartySeated`
  shows it for votes 5, 0, 0 with two seats. `ComputeZeroVotes` therefore
  excludes that case.
- **Passed-over parties above the cutoff.** The specification gives the
  leftover seats of the largest remainder method to the parties with the
  largest remainders. It breaks ties only among the parties at the cutoff.
  The code instead runs one pass in list order over every party whose
  remainder is at or above the cutoff. Earlier parties at the cutoff can use
  up the seats before a later party with a strictly larger remainder is
  reached. For votes 5, 5, 9, 21 and 4 seats the code gives [1, 1, 0, 2]
  (`HamiltonListOrderExample`). The party with remainder 9/10 gets nothing,
  and the result still counts as a tie. The fewer-seats rule does the same
  with vote counts: for votes 8, 8, 12 and 2 seats it gives [1, 1, 0]
  (`FewerSeatsListOrderExample`). The divisor methods do not have this
  behaviour: every weight strictly above the cutoff earns its seat before
  the pass over the parties at the cutoff.
- **When the fewer-seats rule fires.** The specification fires it when there
  are fewer seats than parties with positive votes. The code fires it when
  there are fewer seats than parties, counting all of them. The model
  follows the code (`DivisorAllocation`).
- **Invalid inputs.** The specification lists non-positive seat counts and
  out-of-range thresholds as invalid input. The code checks neither. The
  model accepts zero seats and any threshold wherever the code computes a
  result.

## Model

| member | source | states |
|---|---|---|
| Threshold.ApplyThreshold | apportionment/methods.py:66-79 | the filtered votes: a party strictly below threshold × total becomes 0, every other entry is unchanged, and no threshold returns the votes as they are |
| Threshold.FilteredSum | apportionment/methods.py:66-79 | filtering never increases the vote total |
| Threshold.FilteredIdempotent | apportionment/methods.py:66-79 | applying the same threshold twice equals applying it once |
| Threshold.FilteredMonotone | apportionment/methods.py:66-79 | a stricter threshold zeroes every party that a laxer one zeroes |
| Threshold.ThresholdExample | apportionment/unittests.py:155-163 | votes 41, 56, 3: threshold 0.03 keeps all three parties, 0.031 zeroes the third |
| QuotaCheck.CheckWithinQuota | apportionment/methods.py:90-121 | the validator returns true exactly when every party holds between the floor and the ceiling of votes × seats / total, where seats is the sum of the allocation; an empty vote list is within quota |
| QuotaCheck.WithinQuotaIffNear | apportionment/methods.py:90-121 | reference definition: within quota exactly when every party is less than one seat away from its exact share |
| QuotaCheck.QuotaBoundsIffNear | apportionment/methods.py:95-109 | an integer lies between floor q and ceil q exactly when it is less than 1 away from q |
| QuotaCheck.WithinQuotaExamples | apportionment/unittests.py:145-153 | the validator's three fixtures: [51, 44, 2, 2, 1] is within quota; [52, 45, 1, 1, 1] and [52, 43, 2, 1, 2] are not |
| LargestRemainder.ComputeLargestRemainder | apportionment/methods.py:125-178 | the method's result equals the largest remainder allocation: the floors of the exact shares, plus one seat for each party whose remainder reaches the k-th largest remainder (k = seats left over), taken in list order, or a tie |
| LargestRemainder.HandOutLeftover | apportionment/methods.py:148-168 | the pass in list order adds one seat to the first k parties that reach the cutoff, and it flags a tie exactly when more than k parties reach it |
| LargestRemainder.HamiltonSumsToSeats | apportionment/methods.py:137-168 | every allocation has one entry per party and sums to the house size |
| LargestRemainder.HamiltonFloorOrNext | apportionment/methods.py:140-168 | every party gets the floor of its share, or one more only when seats were left over and its remainder reaches the cutoff |
| LargestRemainder.HamiltonTieIff | apportionment/methods.py:156-173 | a tie is reported exactly when ties are not allowed, seats were left over and more parties reach the cutoff than seats are left; with ties allowed the method always allocates |
| LargestRemainder.HamiltonEarlierWins | apportionment/methods.py:156-168 | ties break in list order: if a later party at the cutoff gets the extra seat, so does every earlier party that reaches the cutoff |
| LargestRemainder.HamiltonZeroVotes | apportionment/methods.py:137-168 | a party without votes gets no seat |
| LargestRemainder.HamiltonWithinQuota | apportionment/methods.py:125-178 | the largest remainder allocation is always within quota |
| LargestRemainder.LeftoverBound | apportionment/methods.py:140-150 | the floors never exceed the house, and the seats left over are no more than the parties with a positive remainder |
| LargestRemainder.HamiltonListOrderExample | apportionment/methods.py:150-168 | votes 5, 5, 9, 21 for 4 seats: the cutoff is 1/2, and the first two parties take the two leftover seats ahead of the party with remainder 9/10; with ties disallowed this is a tie |
| LargestRemainder.HamiltonExactExample | apportionment/unittests.py:39-50 | votes 14, 28, 7, 35 for 12 seats give [2, 4, 1, 5] |
| LargestRemainder.HamiltonTieExample | apportionment/unittests.py:191-202 | votes 11, 11, 11 for 4 seats: a tie, which the first party wins when ties are allowed |
| Divisors.DivisorNamesComplete | apportionment/methods.py:193-248 | each of the fourteen divisor-method names and aliases selects its own method, and the names "quota" and "largest_remainder" select none |
| Divisors.DivisorNamesExactly | apportionment/methods.py:193-248 | a name selects a divisor method exactly when it is one of the fourteen divisor names; every other string selects none |
| Divisors.DenominatorIncreasing | apportionment/methods.py:196-246 | every method's divisor sequence is strictly increasing (for Huntington-Hill, the sequence of squared divisors) |
| Divisors.WeightDecreasing | apportionment/methods.py:252-257 | a party with votes has strictly decreasing weights, so no party holds one weight twice |
| Divisors.WeightMonotone | apportionment/methods.py:252-257 | more votes never give a smaller weight for the same seat |
| Divisors.SainteLagueFirstDivisor | apportionment/unittests.py:178-189 | with 6 and 1 votes the small party's first claim beats the large party's fourth under Sainte-Laguë but not under the modified method (first divisor 7/5) |
| FewerSeats.FewerSeatsThanParties | apportionment/methods.py:296-322 | the result equals the fewer-seats allocation: one seat each for the first `seats` parties in list order whose votes reach the `seats`-th largest count, or a tie |
| FewerSeats.PassOverStrongest | apportionment/methods.py:307-317 | the pass gives one seat to each of the first `seats` parties that reach the cutoff, and it flags a tie exactly when more parties reach it |
| FewerSeats.FewerSeatsShape | apportionment/methods.py:296-322 | at most one seat per party and exactly `seats` in total; a party gets one exactly when it reaches the cutoff and fewer than `seats` earlier parties do |
| FewerSeats.FewerSeatsTieIff | apportionment/methods.py:312-319 | a tie is reported exactly when ties are not allowed and more parties reach the cutoff than there are seats |
| FewerSeats.FewerSeatsBelowCutoff | apportionment/methods.py:306-311 | a party below the cutoff gets no seat |
| FewerSeats.FewerSeatsExample | apportionment/unittests.py:66-78 | votes 10, 9, 8, 8, 11, 12 for 3 seats give [1, 0, 0, 0, 1, 1] |
| FewerSeats.FewerSeatsListOrderExample | apportionment/methods.py:306-317 | votes 8, 8, 12 for 2 seats give [1, 1, 0] (list order beats strength at the cutoff); votes 5, 0, 0 give [1, 1, 0]; both are ties when disallowed |
| DivisorEngine.ComputeDivisor | apportionment/methods.py:182-292 | the method's result equals the divisor allocation, computed as follows. Seeded methods with fewer seats than parties use the fewer-seats rule. Otherwise the seed (one seat per party with votes for Huntington-Hill, Adams and Dean) is taken first. Each party then gets one seat per weight strictly above the cutoff, the (seats − seed)-th largest weight. The holders of the cutoff follow in list order, or a tie is reported |
| DivisorEngine.AddCountsAbove | apportionment/methods.py:259-261 | every party gains its number of weights strictly above the cutoff |
| DivisorEngine.HandOutAtCutoff | apportionment/methods.py:263-287 | the tie pass gives one seat to each of the first holders of the cutoff while seats remain, and it reports a tie exactly when a holder is left over |
| DivisorEngine.DivisorSumsToSeats | apportionment/methods.py:249-282 | with votes cast, every allocation has one entry per party and sums to the house size |
| DivisorEngine.DivisorTieIff | apportionment/methods.py:263-287 | outside the fewer-seats rule, a tie is reported exactly when ties are not allowed and more weights reach the cutoff than seats are left after the seed; with ties allowed the method allocates |
| DivisorEngine.DivisorPartySeats | apportionment/methods.py:249-282 | each party receives its seed, plus one seat per weight strictly above the cutoff, plus one more exactly when it holds the cutoff and is reached in list order while seats remain |
| DivisorEngine.DivisorCutoffSeparates | apportionment/methods.py:249-282 | the weights a party used for its seats are all at least the cutoff, and its unused weights are all at most the cutoff |
| DivisorEngine.DivisorMinMax | apportionment/methods.py:249-282 | the max-min inequality: no party's next weight exceeds the weight with which any party won its last seat |
| DivisorEngine.DivisorZeroVotes | apportionment/methods.py:213-282 | outside the fewer-seats rule, a party without votes gets no seat |
| DivisorEngine.DivisorWinsAtCutoff | apportionment/methods.py:271-282 | a party wins its last seat at the cutoff exactly when it holds the cutoff and fewer holders before it than seats left over were served |
| DivisorEngine.DivisorEarlierWins | apportionment/methods.py:271-282 | ties break in list order: when a party wins a seat at the cutoff, every earlier holder of the cutoff wins one too |
| DivisorEngine.CutoffPositive | apportionment/methods.py:259 | with votes cast the cutoff is positive, and no party holds it twice |
| DivisorEngine.TableFills | apportionment/methods.py:259-282 | when no party holds the cutoff twice, the holders cover every free seat: the allocation sums to the house size, and a tie is reported exactly when more weights reach the cutoff than seats are free |
| DivisorExamples.NoTiesExample | apportionment/unittests.py:204-215 | D'Hondt, votes 12, 12, 11, 12 for 3 seats: [1, 1, 0, 1] even with ties disallowed |
| DivisorExamples.TieExample | apportionment/unittests.py:191-202 | D'Hondt, votes 11, 11, 11 for 4 seats: a tie, won by the first party when ties are allowed |
| DivisorExamples.SainteLagueExample | apportionment/unittests.py:178-189 | Sainte-Laguë, votes 6, 1 for 4 seats: [3, 1] |
| DivisorExamples.ModifiedSainteLagueExample | apportionment/unittests.py:178-189 | modified Sainte-Laguë, votes 6, 1 for 4 seats: [4, 0] |
| DivisorExamples.ZeroPartiesExample | apportionment/unittests.py:52-64 | D'Hondt, votes 0, 14, 28, 0, 0 for 6 seats: [0, 2, 4, 0, 0] |
| DivisorExamples.ZeroPartiesHillExample | apportionment/unittests.py:52-64 | Huntington-Hill on the same fixture: [0, 2, 4, 0, 0] |
| DivisorExamples.TieBreakExample | apportionment/unittests.py:131-142 | D'Hondt, votes 2, 1, 1, 2, 2 for 2 seats: [1, 0, 0, 1, 0], a tie when disallowed |
| QuotaMethod.ComputeQuota | apportionment/methods.py:325-385 | the method refuses ties-disallowed; otherwise its result is the allocation after `seats` rounds of the quota method |
| QuotaMethod.NextRecipient | apportionment/methods.py:351-364 | one round: each party's claim v / (a + 1), set to 0 when the party already holds its upper quota ceil(v × (seats so far + 1) / total); the first party with the largest claim is picked |
| QuotaMethod.QuotaStep | apportionment/methods.py:350-380 | one round hands out exactly one seat and moves the allocation after t rounds to the one after t + 1 |
| QuotaMethod.QuotaAfterSum | apportionment/methods.py:350-380 | after t rounds exactly t seats are handed out |
| QuotaMethod.FirstMaxIsMax | apportionment/methods.py:362-364 | the picked claim is a largest one, and every earlier claim is strictly smaller |
| QuotaMethod.SomeoneEligible | apportionment/methods.py:359-361 | in every round some party with votes is below its upper quota, because the next round's upper quotas add up to at least the seats it will have handed out |
| QuotaMethod.NextPartyEligible | apportionment/methods.py:357-364 | the seat of each round goes to a party with votes below its upper quota; no claim exceeds its claim, and every earlier party's claim is smaller |
| QuotaMethod.UpperQuotaGrows | apportionment/methods.py:359-360 | a party's upper quota never shrinks from one round to the next |
| QuotaMethod.QuotaUpperBound | apportionment/methods.py:350-380 | after t rounds no party holds more than its upper quota ceil(v × t / total) |
| QuotaMethod.QuotaZeroVotes | apportionment/methods.py:350-380 | with votes cast, a party without votes never gets a seat |
| QuotaMethod.QuotaHouseMonotone | apportionment/methods.py:350-380 | house monotonicity: with more seats no party gets fewer |
| QuotaMethod.QuotaAllocationShape | apportionment/methods.py:340-385 | `Unsupported` exactly when ties are not allowed; otherwise one entry per party summing to the seats, each within its upper quota, and zero for a party without votes |
| QuotaExamples.UpperQuotaBindsExample | apportionment/methods.py:358-361 | votes 2, 1, 1 for 2 seats give [1, 1, 0]: the cap of the first party's upper quota hands the second seat to the runner-up |
| QuotaExamples.BalinskiYoungExample | apportionment/unittests.py:108-128 | the quota method on votes 9061, 7179, 5259, 3319, 1182 for 26 seats gives [10, 7, 5, 3, 1], round by round; with ties disallowed it is refused |
| Apportionment.Compute | apportionment/methods.py:26-63 | compute filters the votes and then returns what the method the name selects returns on the filtered votes, or an unknown method |
| Apportionment.RuleNamesComplete | apportionment/methods.py:37-63 | each of the eighteen accepted names and aliases selects its own method, and "Quota" and the empty string select none |
| Apportionment.RuleNamesExactly | apportionment/methods.py:37-63 | a name selects a method exactly when it is one of the eighteen accepted names; every other string is an unknown method |
| Apportionment.ComputeOutcomeKinds | apportionment/methods.py:26-63 | unknown method exactly for unknown names; not supported exactly for quota with ties disallowed; a tie only with ties disallowed; with ties allowed every known name allocates |
| Apportionment.ComputeFillsHouse | apportionment/methods.py:26-63 | with votes left after the filter, every allocation has one entry per party and hands out exactly the seats asked for |
| Apportionment.ComputeZeroVotes | apportionment/methods.py:26-63 | a party zeroed by the filter, or without votes, gets no seat, except under the fewer-seats rule |
| Apportionment.ZeroVotePartySeated | apportionment/methods.py:296-311 | Huntington-Hill, votes 5, 0, 0 for 2 seats: a party without votes takes the second seat, or a tie is reported when ties are disallowed |
| Apportionment.ComputeQuotaBounds | apportionment/methods.py:26-63 | the largest remainder names stay within quota, and "quota" never exceeds a party's upper quota |
| Apportionment.FilterBeforeDispatch | apportionment/methods.py:36 | the outcome depends on the votes only through the filtered votes: filtering them again first changes nothing |
| Apportionment.SinglePartyGetsAll | apportionment/unittests.py:9-36 | a single party with votes takes every seat under every known method (ties allowed) |
| Legacy.LegacyMethod | apportionment.py:7-21 | method filters the votes, then returns what the selected method returns with ties allowed, or an unknown method |
| Legacy.LegacyNames | apportionment.py:10-21 | the older interface knows exactly the package's names except "modified_saintelague", and they select the same methods |
| Legacy.LegacyAlwaysAllocates | apportionment.py:7-21 | the older interface never reports a tie or refuses a method: every known name allocates |
| Legacy.LegacyAgreesWithCompute | apportionment.py:7-21 | for every name it knows, the older interface returns what compute returns with ties allowed |
| Legacy.LegacyFillsHouse | apportionment.py:7-21 | with votes left after the filter, the older interface hands out exactly the seats asked for |
| Legacy.LegacyLargestRemainder | apportionment.py:70-102 | the older largest remainder, with votes cast and at least one seat, always allocates, hands out exactly the seats and stays within quota |
| Legacy.LegacyDivisor | apportionment.py:106-187 | the older divisor methods, with votes cast, always allocate and hand out exactly the seats, and outside the fewer-seats rule a party without votes gets no seat |
| Legacy.LegacyFewerSeats | apportionment.py:191-212 | the older fewer-seats rule always allocates: at most one seat per party and exactly the seats asked for |
| Legacy.LegacyQuota | apportionment.py:219-258 | the older quota loop always allocates exactly the seats; with votes cast no party exceeds its upper quota and a party without votes gets no seat |

## Left out

- Threshold.ApplyThreshold takes the threshold as an exact rational, as a
  `Fraction` threshold would be. The source multiplies the vote total by a
  float threshold in floating point, and the rounded product can decide a
  party exactly at the boundary differently. For votes 93, 7 and threshold
  0.07, the double product is slightly above 7, so the source zeroes the
  second party. The model computes exactly 7 and keeps it.
- QuotaCheck.CheckWithinQuota requires votes cast when the vote list is not
  empty, and an allocation at least as long as the vote list. The source
  fails with a division by zero when every vote is zero. It fails with an
  index error when the allocation is shorter. An empty vote list is modelled
  and is within quota, as in the source.
- Floating point. The package's default `fractions=False` path, numpy float
  division and the older interface's float Huntington-Hill weights are not
  modelled. Neither are the float upper quota of `quota` and the float
  quotas of `within_quota`. The model computes all of them exactly.
- Modified Sainte-Laguë's first divisor is the float `1.4` in the source. The
  model uses the exact 7/5.
- Huntington-Hill's `sqrt` divisors are replaced by their squares, which rank
  and tie the same.
- With `fractions=True`, `equalproportions` divides a `Fraction` by a float
  and fails with a type error. The older interface does the same for
  `equalproportions`. The model treats these names like `huntington`.
- Verbose output is not modelled: printed results, party labels and the tie
  messages. This includes the older quota method's tie message, which joins
  integers to strings and fails.
- numpy array mechanics (`argsort`, `np.where`, `tolist`) are modelled by
  their values.
- The example scripts and the election data files are not part of this
  model.
- Empty vote vectors: every method requires at least one party.
- LargestRemainder.ComputeLargestRemainder requires votes cast and at least
  one seat. The source divides by both and fails otherwise.
- Legacy.LegacyMethod requires votes left after the filter for "quota" with
  at least one seat. The older quota loop divides by the vote total.
- QuotaMethod.QuotaAllocationShape: the quota method's lower quota is not
  proved, only its upper quota.
- QuotaMethod.NextRecipient computes each claim inline, rather than as a
  numpy vector.
- The 100-seat Balinski–Young fixtures (apportionment/unittests.py:85-105)
  and the 26-seat fixtures of the methods other than quota are not restated.
  They are too large to evaluate in the verifier. The 26-seat quota fixture
  is proved.
- Apportionment.ComputeZeroVotes excludes the fewer-seats rule. That rule
  can seat a party without votes (see Apportionment.ZeroVotePartySeated).
