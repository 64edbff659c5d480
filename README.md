# Market-data aggregation and stability scoring

This project is a Dafny model of the engine of a token watch-list dashboard. The dashboard reads trading pairs from the DexScreener API. The model covers three parts of that engine:

- **Pair selection.** The feed may list one token on many venues. The batch lookup keeps one pair per base-token address, compared case-insensitively. It keeps the first pair of greatest USD liquidity, and a missing liquidity ranks as 0. The single-address lookup sorts all pairs by liquidity, descending and stably, and takes the first one. No pairs at all is an error there.
- **Stability scoring.** The score starts at 100. Fixed penalties are deducted for thin liquidity, for deviation from the price implied one hour ago, for a crash or pump in the last hour, for stagnant turnover and for abnormal movement. The result is clamped to [0, 100] and mapped to one of four statuses. The scorer also derives three categorical factors, an abnormal flag and one of five descriptions.
- **Strategy band.** The buy price is 1% above the current price, the sell price 0.3% below it, and the spread is their difference.

A fourth piece comes from the page: the thirty-day "4x volume" window of a newly created pair, with the days left rounded up.

Files, one module each:

- `types.dfy` (`MarketTypes`): the pair record, the analysis record and its enumerations, the strategy record.
- `pair_selection.dfy` (`PairSelection`): both selections. The batch lookup is a loop that fills an insertion-ordered map, modelled on the JavaScript `Map`. The single lookup is a stable sort.
- `stability_scoring.dfy` (`StabilityScoring`): the scorer and its properties.
- `alpha_strategy.dfy` (`AlphaStrategy`): the strategy band.
- `volume_bonus.dfy` (`VolumeBonus`): the bonus window.

Modelling choices:

- Prices, changes, volumes and liquidities are exact `real`s, not IEEE doubles.
- The deviation is the one quantity where the JavaScript code can produce NaN: a zero price, or an hourly change of exactly -100%. The model represents it as `Option<real>`, with `None` standing for NaN. Every threshold comparison with `None` is false, as it is with NaN.
- The optional JSON fields are `Option`s. The `x || d` defaults of the source are written out. The scorer defaults liquidity to 1 (`ScoringLiquidity`) and the selection defaults it to 0 (`RankLiquidity`); the two are kept separate.
- The description texts are an enumeration of the five messages, not the literal strings.
- The current time is a parameter of `Get4xVolumeStatus`.

Two behaviours of the code deserve a note:

- **An hourly change of -100%.** One might expect such a collapse to count as the largest deviation and take the 40-point deviation penalty. In the code, the implied one-hour-ago price divides by zero, the deviation becomes NaN and no deviation penalty applies (`UndefinedDeviationIsIgnored`).
- **Ties in the batch lookup.** When two listings of one token have equal liquidity, the earlier one wins, because only a strictly greater liquidity replaces the kept pair. The kept pair therefore depends on input order when the top liquidity is shared. When it is held by one pair, any reordering of the input keeps the same pair for that token (`UniqueMaximumIgnoresOrder`). For two listings, `TwoListingsOfOneToken` spells out which one wins. The order of the returned list always follows the first appearance of each address in the input, so it does depend on input order.

## Model

| member | source | states |
|---|---|---|
| PairSelection.ToLower | src/services/binanceService.ts:49 | the key is the address with every ASCII capital lowered and its length unchanged |
| PairSelection.ToLowerIdempotent | src/services/binanceService.ts:49 | lowering an already lowered address changes nothing, so keys are canonical |
| PairSelection.KeyIsCanonical | src/services/binanceService.ts:49 | the grouping key is the base-token address lower-cased: as long as the address and already in lower case |
| PairSelection.RankLiquidityDefaultsToZero | src/services/binanceService.ts:51 | both selections compare the reported USD liquidity with 0 as its default: a missing or zero liquidity ranks as 0, any other reported value as itself |
| PairSelection.KeysUpToSpec | src/services/binanceService.ts:48-52 | a lower-cased address is a key of the map exactly when some pair has it, and no key is listed twice |
| PairSelection.DistinctKeysPrefix | src/services/binanceService.ts:52-59 | keys appear in order of first appearance: the keys of any prefix of the input are a prefix of all keys |
| PairSelection.OrderedMap.Get | src/services/binanceService.ts:50 | `get` returns the stored pair, or nothing for an address not yet seen |
| PairSelection.OrderedMap.Set | src/services/binanceService.ts:52-55 | `set` replaces the entry; a new key goes to the end of the iteration order and an existing key keeps its place |
| PairSelection.OrderedMap.Values | src/services/binanceService.ts:59 | the values are returned in the insertion order of their keys |
| PairSelection.TrackedValuesAreBest | src/services/binanceService.ts:59 | after the whole feed is read, the map's values in key order are the best listings of the distinct addresses, in order of first appearance |
| PairSelection.SelectBestPairs | src/services/binanceService.ts:44-59 | a missing `pairs` field gives no result; otherwise one pair per distinct lower-cased address, in order of first appearance, and each is the first pair of greatest liquidity (absent counts as 0) among those with its address |
| PairSelection.BestListingUnique | src/services/binanceService.ts:51 | the strict `>` comparison leaves exactly one candidate per address: at most one pair satisfies the best-listing condition |
| PairSelection.MissingLiquidityNeverWins | src/services/binanceService.ts:51 | a pair with missing or zero liquidity is never kept when its group holds a pair with positive liquidity |
| PairSelection.UniqueMaximumIgnoresOrder | src/services/binanceService.ts:48-57 | when one pair holds a token's top liquidity, every reordering of the input keeps that same pair for the token |
| PairSelection.TwoListingsOfOneToken | src/services/binanceService.ts:50-52 | for two listings of one token, the second is kept only when strictly more liquid, so ties go to the first |
| PairSelection.MixedCaseListingsShareGroup | src/services/binanceService.ts:49-52 | listings under "0xAA" (liquidity 5) and "0xaa" (liquidity 50) form the single group "0xaa", won by the second |
| PairSelection.InsertByLiquidity | src/services/binanceService.ts:21 | one insertion step of the stable descending sort grows the sequence by one and puts the new pair first only when it is strictly more liquid than the current head |
| PairSelection.InsertPermutes | src/services/binanceService.ts:21 | an insertion step adds the pair and loses nothing |
| PairSelection.InsertStaysBelow | src/services/binanceService.ts:21 | an insertion step brings in no pair more liquid than a bound that the sequence and the new pair both respect |
| PairSelection.InsertKeepsDescending | src/services/binanceService.ts:21 | an insertion step keeps the sequence in descending liquidity |
| PairSelection.SortByLiquidityDesc | src/services/binanceService.ts:21 | the sort by liquidity keeps the number of pairs; `SortIsDescendingPermutation` proves that it returns a descending permutation |
| PairSelection.SortIsDescendingPermutation | src/services/binanceService.ts:21 | the sort returns a permutation of the pairs in descending liquidity |
| PairSelection.SortedHeadIsFirstMaximal | src/services/binanceService.ts:21-22 | because the sort is stable, its first element is the first pair of greatest liquidity |
| PairSelection.SelectOne | src/services/binanceService.ts:19-22 | a missing or empty `pairs` list is the "no pairs found" error; otherwise the result is the first pair of greatest liquidity |
| StabilityScoring.ScoringLiquidity | src/services/binanceService.ts:79 | the scoring liquidity is never zero, so the turnover division is always defined |
| StabilityScoring.SignalsOf | src/services/binanceService.ts:75-97 | missing fields default as the code does (hourly change and volume to 0, liquidity to 1); liquidity is never 0 and turnover times liquidity is the volume; the deviation is the one computed from the price and the defaulted hourly change |
| StabilityScoring.DeviationPct | src/services/binanceService.ts:81-82 | the deviation is NaN exactly when the price is zero or the hourly change is -100% |
| StabilityScoring.DeviationIsAbsH1 | src/services/binanceService.ts:81-82 | for a nonzero price and an hourly change other than -100%, the deviation from the implied one-hour-ago price is the absolute hourly change |
| StabilityScoring.Clamp | src/services/binanceService.ts:103 | the clamped score lies in [0, 100], equals its input inside that range, and is 0 below it and 100 above it |
| StabilityScoring.LiquidityPenalty | src/services/binanceService.ts:86-88 | the liquidity penalty is 0, 10, 25 or 50; it is 0 exactly from 500,000 up and 50 exactly below 20,000 |
| StabilityScoring.DeviationPenalty | src/services/binanceService.ts:90-92 | the deviation penalty is 0, 10, 25 or 40; it is 0 exactly when the deviation does not exceed 2% (NaN included) and 40 exactly when it exceeds 10% |
| StabilityScoring.MomentumPenalty | src/services/binanceService.ts:94-95 | the one-hour move costs 0 or 20 points, 20 exactly for a crash below -3% or a pump above 15% |
| StabilityScoring.TurnoverPenalty | src/services/binanceService.ts:100 | turnover costs 0 or 20 points, 20 exactly when it is below 0.05 |
| StabilityScoring.IsAbnormal | src/services/binanceService.ts:98 | a movement is never abnormal with a deviation of at most 15% and a turnover of at most 20; an abnormal one has a deviation above 10% or a turnover above 5 |
| StabilityScoring.AbnormalPenalty | src/services/binanceService.ts:101 | abnormal movement costs 0 or 20 points, 20 exactly when it is abnormal |
| StabilityScoring.TotalPenalty | src/services/binanceService.ts:84-101 | the deductions together come to between 0 and 150 points |
| StabilityScoring.ScoreOf | src/services/binanceService.ts:84-103 | the score lies in [0, 100]; it is 100 minus the deductions when they total at most 100, and 0 otherwise |
| StabilityScoring.StatusOf | src/services/binanceService.ts:105-108 | the status is EXTREME exactly below 40, VOLATILE exactly in [40, 60), MODERATE exactly in [60, 80) and STABLE exactly from 80 up |
| StabilityScoring.PriceVolatilityOf | src/services/binanceService.ts:110 | volatility is HIGH exactly above 3% deviation, MEDIUM exactly above 1% up to 3%, LOW otherwise (NaN included) |
| StabilityScoring.VolumeTrendOf | src/services/binanceService.ts:111 | the volume trend is SPIKE exactly for a turnover above 5; otherwise it is LOW_LIQ exactly below 50,000 liquidity, and NORMAL from there up |
| StabilityScoring.TrendOf | src/services/binanceService.ts:112 | the trend is UP exactly above +0.5%, DOWN exactly below -0.5%, SIDEWAYS in between, bounds included |
| StabilityScoring.DescriptionOf | src/services/binanceService.ts:114-118 | the severe-deviation warning appears exactly for abnormal movement; otherwise each status has its own message, and the entry note appears exactly for STABLE |
| StabilityScoring.AnalyzeStability | src/services/binanceService.ts:74-131 | the score is in [0, 100] and is 100 minus the bracket penalties, clamped; the status is the band of the score; the factors come from the raw signals; abnormal movement caps the score at 80; the description follows the abnormal-first priority |
| StabilityScoring.PenaltyBrackets | src/services/binanceService.ts:84-101 | each bracket deducts one of its fixed penalties at most, the crash and pump penalties never both apply, and the total penalty lies in [0, 150] |
| StabilityScoring.StatusBoundaries | src/services/binanceService.ts:105-108 | scores 0 and 39 are EXTREME, 40 and 59 VOLATILE, 60 and 79 MODERATE, 80 and 100 STABLE |
| StabilityScoring.StatusMonotone | src/services/binanceService.ts:105-108 | a higher score never has a more severe status |
| StabilityScoring.UndefinedDeviationIsIgnored | src/services/binanceService.ts:81-112 | with a zero price or a -100% hour, no deviation penalty applies, volatility is LOW, and only turnover can make the movement abnormal |
| StabilityScoring.AbnormalCapsScore | src/services/binanceService.ts:98-103 | an abnormal movement leaves a score of at most 80 |
| StabilityScoring.SevereDeviationIsExtreme | src/services/binanceService.ts:86-108 | a deviation above 15% means an hourly move above 15% either way, so the score is at most 20 and the status EXTREME |
| StabilityScoring.MissingLiquidityDefaults | src/services/binanceService.ts:79-111 | a missing or zero liquidity scores as 1: turnover equals volume, the score is at most 50 and the volume trend is never NORMAL; for selection it ranks as 0 |
| StabilityScoring.SpikeOverridesLowLiquidity | src/services/binanceService.ts:111 | a turnover above 5 is SPIKE whatever the liquidity |
| StabilityScoring.EntryNoteGuarantees | src/services/binanceService.ts:84-118 | the stable "fit for entry" note implies no abnormal movement, a score of at least 80, at most 20 points of penalty, liquidity of at least 100,000 and a deviation of at most 5% |
| StabilityScoring.DeepFlatPoolScoresFull | src/services/binanceService.ts:74-131 | price 1, no hourly change, liquidity 1,000,000 and volume 50,000 score 100, STABLE, not abnormal |
| StabilityScoring.ThinPumpScoresZero | src/services/binanceService.ts:74-131 | price 1, a 20% hourly pump, liquidity 10,000 and volume 300,000 lose 130 points, score 0, EXTREME, abnormal |
| AlphaStrategy.CalculateAlphaStrategy | src/services/binanceService.ts:66-72 | the buy price is 1% above the current price and the sell price 0.3% below it; the spread is buy minus sell, which is 1.3% of the price; for a positive price, sell < price < buy |
| AlphaStrategy.StrategyScales | src/services/binanceService.ts:66-72 | scaling the price scales buy, sell and spread alike |
| AlphaStrategy.StrategyAtTwo | src/services/binanceService.ts:66-72 | at price 2 the band is buy 2.02, sell 1.994, spread 0.026 |
| VolumeBonus.CeilDiv | src/app/page.tsx:28 | the rounded-up quotient q satisfies (q - 1)·b < a ≤ q·b |
| VolumeBonus.Get4xVolumeStatus | src/app/page.tsx:21-32 | no bonus for a missing or zero creation time or once 30 days have passed; otherwise the flag is set and the days remaining are the remaining time rounded up to whole days |
| VolumeBonus.RemainingDaysInRange | src/app/page.tsx:26-29 | for a pair created 0 to 30 days ago, between 1 and 30 days remain |
| VolumeBonus.CeilDivMonotone | src/app/page.tsx:28 | rounding up to whole days is monotone in the remaining time |
| VolumeBonus.RemainingDaysNonIncreasing | src/app/page.tsx:24-31 | as the current time advances, the days remaining never grow, and a closed window stays closed |
| VolumeBonus.WindowEnds | src/app/page.tsx:21-32 | a pair created this instant has 30 days left, one a millisecond short of 30 days has 1, and one exactly 30 days old has none |

## Left out

- The HTTP requests, the proxy agent and the address list built for the batch request are not modelled. Error logging and the `catch` blocks are left out too: the batch lookup's `catch` returns an empty list and the single lookup's rethrows. Both selections take the already-decoded `pairs` field.
- `parseFloat(priceUsd)` is not modelled: the price is taken as an already parsed real, so an unparsable price is not represented.
- IEEE-754 arithmetic is not modelled: rounding of the products in the strategy band, of the deviation and of the day division. The only NaN case kept is the deviation's. Infinities and a NaN volume or liquidity coming from the feed are not represented.
- `Math.round` on the score is not modelled: every penalty is a whole number, so rounding leaves the score unchanged.
- `ToLower` lowers ASCII letters only; JavaScript's `toLowerCase` also folds non-ASCII capitals.
- PairSelection.SortByLiquidityDesc: the model proves that the sort returns a descending permutation and that its head is the first most liquid pair. It does not prove the general stability promise, that equally liquid pairs keep their input order at every position, because the source reads only element 0.
- The in-place reordering of the response's `pairs` array by the single lookup is not modelled: the model sorts a copy, and nothing else in the source reads that array.
- The unused six-hour change is carried in the record but not used, as in the source.
- The "days online" display on the page, the React state, the polling timers and the presentation components are not modelled.
- The route handlers are not modelled. Neither is the Prisma watch-list store with its seeding, which only decides which addresses are requested.
