# Cecchino pricing, signals and backtests in Dafny

This project models the computational core of the "Sniper Bet" football
betting apps (app_v64, app_v65, app_v66, app_v69 and app_v70). It also
proves properties of that model.

Every app copies the same pricing pipeline:

- `no_margin` removes the bookmaker margin from the 1X2 odds.
- `get_probs` splits the home/away win chance with the Elo logistic on a
  400-point scale.
- A dynamic home advantage (HFA) of base + 3·(away place − home place),
  clamped to [0, 200], is applied when both standings are known.
- The probabilities are blended: rem = 1 − fx, fin = rem·p, EV = odds·fin − 1.

On top of the pipeline, each app applies its own policy:

- **v64**: `calc_row` emits one of five signals. Four tiers are tried in a
  fixed order, away first, and the first match wins.
- **v65**: `calc_signal` adds the bet (Pick and Odds_Play). The validator
  joins each signalled fixture to its final score with a normalised MatchID
  key. It books every bet at stake 10 and reports the win rate and the ROI.
- **v70**: a single "golden" away rule. The standings are looked up with a
  Python `or` chain.
- **v66**: the results file is settled (Real_Res) and every row is priced
  and booked at unit stake on both sides. Fixed strategy masks, odds buckets
  and a league table then sum the results.
- **v69**: the same settled rows, selected by user EV and odds ranges. It
  reports P&L, bet count, ROI and the better side.

Modules:

| file | module | what it holds |
|---|---|---|
| common.dfy | `Common` | cells (`Field`, `Cell`), 1X2 tags, sides |
| pricing.dfy | `Pricing` | `NoMargin`, `GetProbs`, `Price`, `PriceSides` |
| home_advantage.dfy | `HomeAdvantage` | clamp, the HFA, int() truncation, the three standings lookups |
| tiers.dfy | `Tiers` | the four-tier chain and a rule table it is proved to scan |
| outcomes.dfy | `Outcomes` | the 1X2 result and the MatchID key |
| sniper_v64.dfy | `SniperV64` | `calc_row` |
| validator_v65.dfy | `ValidatorV65` | `calc_signal`, res_map, the verification loop, the report |
| golden_v70.dfy | `GoldenV70` | `calc_sniper` |
| backtest.dfy | `Backtest` | what app_v66 and app_v69 share: `load_data` and the per-row pricing |
| optimizer_v66.dfy | `OptimizerV66` | `run_optimization`, masks, buckets, leagues |
| range_v69.dfy | `RangeV69` | `calculate_all_metrics`, range masks, totals, best strategy |

Modelling choices:

- **Reals.** Odds, ratings, EVs and P&L are exact reals.
- **The exponential.** `10**x` is a function parameter `pow10`. Results
  that need its laws require `IsPow10(pow10)`: pow10(0) = 1, it is
  positive, and it is strictly increasing. `get_probs`' except branch is
  the guard 1 + pow10(x) = 0, which gives (0, 0). Under `IsPow10` this
  guard never fires.
- **Parsed inputs.** A text field read with `to_f(row.get(col, default))`
  is a `Field`:
  - `Absent` gives the default;
  - `Present(None)` is an unparseable value and gives 0;
  - `Present(Some x)` gives x.
- **Standings cells.** They are a `Cell`: `Missing` (None), `Blank` (NaN),
  `Num` or `Text`. This carries pandas' `isna`, Python truthiness and
  `float()` exactly as the three lookups need them.
- **Imperative code.** Code that updates state step by step is a `method`,
  proved equal to a specification function:
  - `calc_row`, `calc_signal` and `calc_sniper`;
  - the masked Real_Res assignment, on an `array`;
  - `run_optimization` and `calculate_all_metrics`, as loops;
  - the v65 verification loop, with its accumulators.
- **Whole-column code.** Masks, cuts, group sums, ROI and best strategy are
  functions.

Behaviour of the code worth knowing:

- **An absent draw column or a 0 draw odd (v64, v65, v70).** These
  versions read the odds with `to_f(row.get(col, 0))`, so an absent column
  reads as 0. A 0 draw odd does not drive the EVs to −1. Instead `no_margin` returns zeros, so fx = 0 and both sides are priced
  on the whole rating split. A home-only quote can then signal '💎 HOME'
  (`Pricing.ZeroDrawOddKeepsFullEv`, `SniperV64.HomeOnlyOddsCanSignal`). A
  blank draw cell is different: `to_f` turns it into NaN, every EV is NaN
  and the row is SKIP. NaN is outside the model (see "Left out"). v66 and
  v69 index `row['cotae']`, `row['elohomeo']` and `row['eloawayo']`
  directly, so there a missing column raises instead (see "Left out").
- **v65 SKIP rows keep their EVs.** The EVs are assigned before the rules,
  so a SKIP row keeps the computed EV_1 and EV_2, not the 0 defaults. Only
  Pick and Odds_Play keep their defaults.
- **Which rows v66 and v69 skip.** `dropna(subset=[..., 'Real_Res'])`
  removes nothing because of Real_Res, since '-' is not NA. The rows with
  '-' are skipped by the loops' `continue`.
- **The v70 `or` chain.** It returns its last alias even when that alias is
  falsy. A 0 in the last alias therefore still counts as a present standing
  and adjusts the advantage (`HomeAdvantage.LastAliasZeroStillCounts`). A 0
  in an earlier alias is skipped.
- **Repeated MatchIDs.** `to_dict('index')` refuses a repeated MatchID and
  raises, which stops the page. The model reports this as the verdict
  `Crashed`.
- **A v65 analysis file with a header but no rows.** The row-wise `apply`
  over no rows yields no `Signal` column, so the filter
  `df_main['Signal'] != 'SKIP'` raises `KeyError` and the page stops. v65
  has no emptiness guard there. The model reports this as `Crashed`
  (`ValidatorV65.Report`).
- **A MatchID collision.** The key can collide when a team name contains
  '-' (`Outcomes.MatchIdCanCollide`). When the home names contain no '-',
  two fixtures share a key exactly when both squashed names agree
  (`Outcomes.MatchIdSeparates`).
- **A results file with no settled row.** When no row of a loaded v66 or
  v69 file gets a Real_Res other than '-', `run_optimization` and
  `calculate_all_metrics` return an empty frame without columns. The masks
  on `EV_2` then raise `KeyError` and the page stops. The model reports
  this as `Crashed` (`OptimizerV66.PageOf`, `RangeV69.PageOf`).

## Model

| member | source | states |
|---|---|---|
| `Pricing.NoMargin` | app_v64.py:19-25 | any odd <= 0 gives exactly (0, 0, 0); otherwise the three probabilities are positive and sum to 1 |
| `Pricing.NoMarginIsProportional` | app_v64.py:22-24 | the margin is removed proportionally: p1·o1 = px·ox = p2·o2 |
| `Pricing.GetProbs` | app_v64.py:11-17 | p_h + p_a = 1, or the (0, 0) fallback of the except branch |
| `Pricing.ProbsAreASplit` | app_v64.py:11-17 | under the exponential's laws p_h and p_a lie strictly in (0, 1) and sum to 1 |
| `Pricing.ProbsEvenAtZeroGap` | app_v64.py:13-15 | a rating gap elo_a − (elo_h + hfa) of 0 gives (1/2, 1/2) |
| `Pricing.ProbsDecreaseWithGap` | app_v64.py:13-15 | p_h is strictly decreasing in the rating gap |
| `Pricing.PriceSides` | app_v64.py:65-72 | the step-by-step rem, fin and EV computation equals the blended price of both sides |
| `Pricing.BlendSharesNonDrawMass` | app_v64.py:65-72 | the price of a fixture: fin1 + fin2 = 1 − fx with 0 <= fx < 1, both fin positive, and EV_i = o_i·fin_i − 1 |
| `Pricing.ZeroDrawOddKeepsFullEv` | app_v64.py:21 | a zero draw odd gives fx = 0 and EVs priced on the whole rating split |
| `Pricing.AwayEvSeesHomeOddOnlyViaDraw` | app_v70.py:62-67 | the away EV depends on the home odd only through the draw share fx |
| `HomeAdvantage.Clamp` | app_v64.py:59 | max(0, min(x, 200)) lies in [0, 200] and is the identity inside the range |
| `HomeAdvantage.EffectiveHfa` | app_v64.py:42-60 | the HFA is the base unless the flag is on and both standings are present and numeric; then it is base + 3·(r2 − r1) when that lies in [0, 200], 0 below the range and 200 above it |
| `HomeAdvantage.HfaFallsAsAwayImproves` | app_v64.py:53-58 | a better (lower) away place never raises the home advantage |
| `HomeAdvantage.Trunc` | app_v64.py:62 | int() truncates toward zero |
| `HomeAdvantage.ReportedHfa` | app_v64.py:62 | the reported HFA is the base when not adjusted; when adjusted it is in [0, 200]: int(base + 3·(r2 − r1)) inside the range, 0 below it, 200 above it |
| `HomeAdvantage.FirstPresent` | app_v64.py:45-51 | the isna chain takes the first non-NA alias, else the last one |
| `HomeAdvantage.FirstTruthy` | app_v70.py:50-51 | the `or` chain takes the first truthy alias, else the last one |
| `HomeAdvantage.FirstOfTwo` | app_v66.py:74-75 | the plain alias if it is not NA, else the titled one |
| `HomeAdvantage.ZeroStandingFallsThrough` | app_v70.py:50-51 | a first alias of 0 is read past, like a missing one |
| `HomeAdvantage.BlankCellSeparatesLookups` | app_v70.py:50-53 | an empty (NaN) first cell ends the `or` chain with no adjustment, while the isna chain moves on to the next alias |
| `HomeAdvantage.LastAliasZeroStillCounts` | app_v70.py:50-57 | a 0 in the last alias is a present standing and adjusts the HFA |
| `Tiers.Classify` | app_v64.py:81-91 | '💎 AWAY' iff EV2% > 4.0 and 1.70 <= o2 <= 3.50; '💎 HOME' implies EV1% > 4.0 and 1.50 <= o1 <= 2.50; away tiers imply EV2% > 1.5 and 1.50 <= o2 <= 4.00; home tiers imply EV1% > 1.5 and 1.40 <= o1 <= 3.00 and that neither away rule fires |
| `Tiers.ClassifyIsFirstMatch` | app_v64.py:81-91 | the chain is a first-match scan of the rule table |
| `Tiers.FirstMatchIsUnique` | app_v64.py:81-91 | a first-match scan has one result: at most one signal per fixture |
| `Outcomes.Resolve` | app_v65.py:185-187 | '1' iff s1 > s2, '2' iff s2 > s1, 'X' iff equal |
| `Outcomes.Lower` | app_v65.py:117 | str.lower keeps the length and folds each character |
| `Outcomes.DropSpaces` | app_v65.py:117 | replace(' ', '') leaves no space, never lengthens the name and leaves a name without spaces unchanged |
| `Outcomes.DropSpacesKeepsOthers` | app_v65.py:117 | every other character is kept as often as it occurs; the name loses exactly one character per space |
| `Outcomes.DropSpacesAppend` | app_v65.py:117 | spaces are dropped piece by piece, so the order of the kept characters is unchanged |
| `Outcomes.SquashKeepsDashFree` | app_v65.py:117 | a name without '-' has none after lower-casing and dropping spaces |
| `Outcomes.DashSplits` | app_v65.py:117 | x + "-" + y splits back at its first '-' into x and y when x has no '-' |
| `Outcomes.MatchIdSplits` | app_v65.py:117 | when the home name has no '-', the MatchID splits at its first '-' into the two squashed names |
| `Outcomes.MatchIdSeparates` | app_v65.py:117 | when the home names have no '-', two fixtures share a MatchID iff both squashed names agree |
| `Outcomes.CanonicalKeysAreInjective` | app_v65.py:117 | on lower-case names without spaces, and home names without '-', the MatchID is injective |
| `Outcomes.MatchIdHasNoSpace` | app_v65.py:117 | the MatchID contains no space |
| `Outcomes.LowerIdempotent` | app_v65.py:117 | lower-casing twice is lower-casing once |
| `Outcomes.LowerKeepsSpaces` | app_v65.py:117 | removing spaces before lower-casing gives the same key |
| `Outcomes.MatchIdIgnoresCase` | app_v65.py:117 | names that differ only in letter case give the same key |
| `Outcomes.MatchIdIgnoresSpaces` | app_v65.py:117 | names that differ only in spaces give the same key |
| `Outcomes.MatchIdCanCollide` | app_v65.py:117 | two different fixtures can share one key when a name contains '-' |
| `SniperV64.DynamicHfa` | app_v64.py:42-60 | the alias chain and clamped adjustment compute the effective HFA of the row |
| `SniperV64.ApplyTiers` | app_v64.py:81-91 | the if/elif chain on ev·100 yields the first-match tier |
| `SniperV64.CalcRow` | app_v64.py:27-94 | EV_1, EV_2 are 100× the blended EVs priced with the un-truncated HFA; Signal is the first-match tier of those EVs; EV_X stays −1; HFA is int(curr_hfa) |
| `SniperV64.HomeOnlyOddsCanSignal` | app_v64.py:65-89 | a 2.20 home quote with no draw or away odds and an even split prices at +10% and signals '💎 HOME' |
| `ValidatorV65.Signal65` | app_v65.py:27-93 | EV_1, EV_2 are 100× the blended EVs of the row priced with its HFA; the signal is the first-match tier of those EVs; away tiers pick '2' at o2, home tiers pick '1' at o1, SKIP picks nothing at odds 0 |
| `ValidatorV65.ApplyTiers65` | app_v65.py:72-90 | each branch of the chain sets Signal, Pick and Odds_Play as the tier dictates |
| `ValidatorV65.CalcSignal` | app_v65.py:27-93 | the step-by-step calc_signal yields exactly the row's signal result |
| `ValidatorV65.PlacedBetsAreSideBets` | app_v65.py:72-90 | every placed bet is on '1' or '2' at odds in [1.40, 4.00] |
| `ValidatorV65.Analyse` | app_v65.py:117 | one result per fixture, carrying its MatchID and its calc_signal result |
| `ValidatorV65.Played` | app_v65.py:148 | played_df holds exactly the non-SKIP rows |
| `ValidatorV65.PlayedSnoc` | app_v65.py:148 | played_df keeps the order of the analysis: one more row is appended iff it is not SKIP |
| `ValidatorV65.Keyed` | app_v65.py:117 | each results row is keyed by its MatchID with its two scores |
| `ValidatorV65.BuildResMap` | app_v65.py:165 | every results row's MatchID maps to its scores, and every key comes from a row |
| `ValidatorV65.ResMapIffDistinct` | app_v65.py:165 | res_map exists exactly when no two results rows share a MatchID |
| `ValidatorV65.BetOf` | app_v65.py:176-197 | no bet without a MatchID and two parsed scores; otherwise the 1X2 outcome, a win iff the pick equals it, and P&L odds·10 − 10 on a win, −10 otherwise |
| `ValidatorV65.Bets` | app_v65.py:172-210 | history never has more lines than played_df has rows |
| `ValidatorV65.Wins` | app_v65.py:194-197 | wins never exceed the number of bets |
| `ValidatorV65.Verify` | app_v65.py:167-210 | the loop's history is the bets of the played rows; valid_outcomes = len(history) <= len(played_df); wins <= valid_outcomes; profit is the sum of history's Profitto |
| `ValidatorV65.SkippedRowChangesNothing` | app_v65.py:176-183 | a row without a MatchID match or with an unparsed score changes no accumulator |
| `ValidatorV65.DrawNeverWins` | app_v65.py:185-194 | a side pick never wins a draw and then loses the whole stake |
| `ValidatorV65.BetsAreBooked` | app_v65.py:190-197 | each line of history is booked at stake 10 |
| `ValidatorV65.ProfitFromWins` | app_v65.py:190-199 | profit = 10·(sum of winning odds) − 10·valid_outcomes |
| `ValidatorV65.ProfitFloor` | app_v65.py:190-199 | with non-negative odds the profit is at least −10·valid_outcomes |
| `ValidatorV65.Summarise` | app_v65.py:213-215 | a summary only when valid_outcomes > 0; win_rate·valid = wins·100 and roi·valid·10 = profit·100 |
| `ValidatorV65.SummaryBounds` | app_v65.py:213-215 | win rate within [0, 100] and ROI at least −100% |
| `ValidatorV65.SixWinsFourLosses` | app_v65.py:213-215 | 6 wins at 2.0 and 4 losses give a 60% win rate and a 20% ROI |
| `ValidatorV65.ResultSheet` | app_v65.py:150-156 | results come from the second file when given, else from the analysis file; an unreadable second file gives none |
| `ValidatorV65.AnalyseAll` | app_v65.py:144-145 | the apply over df_main yields the analysed rows |
| `ValidatorV65.Judge` | app_v65.py:158-240 | "no bets" iff played_df is empty; "cannot verify" iff there are bets but no readable results with scor1; a crash iff scor1 is present but scor2 is missing or a MatchID repeats; a verified report has 0 < valid <= played, wins <= valid and one history line per bet |
| `ValidatorV65.Check` | app_v65.py:158-237 | the checks, res_map, loop and summary yield the report on the played rows |
| `ValidatorV65.Report` | app_v65.py:138-148 | an analysis file without rows crashes at the Signal filter; "no bets" iff the file has rows and every row's signal is SKIP |
| `ValidatorV65.Validate` | app_v65.py:138-237 | the whole validator yields the report of the two files; an analysis file without rows is a crash |
| `ValidatorV65.ResultsFallBackToAnalysis` | app_v65.py:155-156 | without a results file the report is the one with the analysis file as results file |
| `ValidatorV65.NoBetsIffAllSkip` | app_v65.py:158-240 | "no bets" is reported exactly when every row is SKIP |
| `ValidatorV65.VerifiedFigures` | app_v65.py:167-215 | a verified report has one history line per bet, wins <= valid <= played, profit = history sum >= −10·valid, win rate in [0, 100], ROI >= −100% |
| `ValidatorV65.ReportFigures` | app_v65.py:138-215 | every verified report of the validator has ROI >= −100%, win rate in [0, 100] and wins <= valid <= played |
| `ValidatorV65.PlayedOddsAreNonNegative` | app_v65.py:72-90 | every played row of an analysis carries non-negative Odds_Play |
| `GoldenV70.Sniper70` | app_v70.py:34-79 | EV_2 is 100× the blended away EV priced with the `or`-chain HFA; '💎 GOLDEN PICK' iff 11.0 <= EV2% <= 19.5 and 2.06 <= o2 <= 2.80; Pick '2 (Ospite)' iff golden, else '-'; HFA is int(curr_hfa) |
| `GoldenV70.DynamicHfa70` | app_v70.py:48-57 | the `or` chain and clamped adjustment compute the effective HFA |
| `GoldenV70.AwayEv` | app_v70.py:62-67 | the away-only steps compute the blended away EV |
| `GoldenV70.CalcSniper` | app_v70.py:34-79 | the step-by-step calc_sniper yields exactly the row's golden-rule result |
| `GoldenV70.GoldenIsDiamondAway` | app_v70.py:74-76 | every golden pick is also a '💎 AWAY' signal of the four-tier rules |
| `GoldenV70.HomeOddOnlyViaDraw` | app_v70.py:62-67 | a different home odd with the same draw share leaves the result unchanged |
| `GoldenV70.ZeroHomeStandingIsSkipped` | app_v70.py:50 | a 0 first home alias gives the same result as a missing one |
| `Backtest.BeatsIsResolve` | app_v66.py:57-59 | the three masks are the three cases of the 1X2 result |
| `Backtest.ResultOf` | app_v66.py:54-59 | Real_Res is known iff both score columns exist and both scores are present, and then it is the 1X2 result |
| `Backtest.MaskedAssign` | app_v66.py:57-59 | a masked assignment writes the tag exactly where both scores exist and the comparison holds, leaving the rest |
| `Backtest.DeriveRealRes` | app_v66.py:54-59 | the column after '-' and the three masked assignments is the row-wise Real_Res |
| `Backtest.Marks` | app_v66.py:54-59 | Real_Res has one entry per row, each the row's own result, and is all '-' without both score columns |
| `Backtest.Keep` | app_v66.py:61 | exactly the rows with both cotaa and cotad are kept |
| `Backtest.KeepSnoc` | app_v66.py:61 | the drop keeps the file's order: one more row appends its record iff both its odds are present |
| `Backtest.LoadData` | app_v66.py:53-61 | load_data yields the kept rows with their Real_Res |
| `Backtest.LoadedMarks` | app_v66.py:53-61 | every kept row carries its own Real_Res; without both score columns every row stays '-' |
| `Backtest.PnlOf` | app_v66.py:94-96 | PNL = odds − 1 iff that side won, else −1 |
| `Backtest.DrawLosesBoth` | app_v66.py:94-96 | a draw gives −1 to both sides, and at most one side is paid |
| `Backtest.PriceRecord` | app_v66.py:72-90 | the two-alias lookup and pricing compute the row's HFA and both EVs |
| `OptimizerV66.Simulate` | app_v66.py:65-109 | results never outnumber the loaded rows |
| `OptimizerV66.NoResultsIffNothingSettled` | app_v66.py:65-109 | results is empty iff no loaded row has a Real_Res other than '-' |
| `OptimizerV66.RunOptimization` | app_v66.py:65-109 | the loop yields one priced, unit-stake entry per settled row, in order |
| `OptimizerV66.UnsettledRowAddsNothing` | app_v66.py:69 | a row with Real_Res '-' adds nothing to results |
| `OptimizerV66.SettledRowAppendsEntry` | app_v66.py:65-109 | a settled row appends exactly one entry: its odds, 100 × the priced EVs at the row's HFA, PNL_1 = odds_1 − 1 iff Real_Res is '1' (else −1), PNL_2 = odds_2 − 1 iff Real_Res is '2' (else −1), its HFA and league |
| `OptimizerV66.SimulatedRowsAreUnitStake` | app_v66.py:94-96 | every entry pays odds − 1 or costs 1 per side, and never pays both |
| `OptimizerV66.MasksAreIndependent` | app_v66.py:134-138 | a row inside both masks counts in both profit sums |
| `OptimizerV66.AwayMaskIsDiamondAway` | app_v66.py:134 | the away mask is the '💎 AWAY' rule of the four-tier signals |
| `OptimizerV66.ProfitAwayIsDiamondAwayProfit` | app_v66.py:134-137 | profit_away is the sum of PNL_2 over the rows the four-tier signals mark '💎 AWAY' |
| `OptimizerV66.HomeMaskIsDiamondHome` | app_v66.py:135 | a home-mask row is '💎 HOME' for the four-tier chain iff no away rule fires |
| `OptimizerV66.Bucket` | app_v66.py:152-156 | odds fall in the right-closed bucket (b_k, b_k+1]; none iff odds <= 1.0 or > 10.0 |
| `OptimizerV66.BucketIsUnique` | app_v66.py:152-156 | the buckets do not overlap |
| `OptimizerV66.BucketPnlSnoc` | app_v66.py:152-166 | a row adds its side's P&L to bucket k iff that side's EV is above 2.0 and its odds lie in (b_k, b_k+1] |
| `OptimizerV66.BucketsPartition` | app_v66.py:161-166 | the six bucket sums of the EV > 2 rows add up to their bucketed total |
| `OptimizerV66.LeagueTotalIsRowSum` | app_v66.py:174-175 | a league's Total is PNL_1 + PNL_2 summed over all its rows |
| `OptimizerV66.LeagueTotalIgnoresEv` | app_v66.py:174-175 | the league table applies no EV filter: changing EVs keeps every Total |
| `OptimizerV66.PageOf` | app_v66.py:121-182 | a read error iff no record was loaded; a crash iff records were loaded but none is settled; otherwise the two strategy profits of the results |
| `RangeV69.AllMetrics` | app_v69.py:63-100 | data never outnumbers the loaded rows |
| `RangeV69.CalculateAllMetrics` | app_v69.py:63-100 | the loop yields one priced, unit-stake entry per settled row, in order |
| `RangeV69.SettledRowAppendsEntry` | app_v69.py:63-100 | a settled row appends exactly one entry: its odds, 100 × the priced EVs at the row's HFA, PNL_1 = odds_1 − 1 iff Real_Res is '1' (else −1), PNL_2 = odds_2 − 1 iff Real_Res is '2' (else −1), and its league |
| `RangeV69.EntriesAreUnitStake` | app_v69.py:87-88 | every entry pays odds − 1 or costs 1 per side |
| `RangeV69.UnsettledRowIsExcluded` | app_v69.py:66 | rows with Real_Res '-' are left out of data |
| `RangeV69.NoDataIffNothingSettled` | app_v69.py:63-100 | data is empty iff no loaded row has a Real_Res other than '-' |
| `RangeV69.AwaySet` | app_v69.py:132-135 | a row is in the away set iff min_ev <= EV_2 <= max_ev and min_odds <= Odds_2 <= max_odds |
| `RangeV69.HomeSet` | app_v69.py:138-141 | a row is in the home set iff EV_1 and Odds_1 lie in the same ranges |
| `RangeV69.AwaySetSnoc` | app_v69.py:132-143 | df_away keeps the order of data: one more entry is appended iff it is inside the away ranges |
| `RangeV69.HomeSetSnoc` | app_v69.py:138-144 | df_home keeps the order of data in the same way |
| `RangeV69.Roi` | app_v69.py:152-154 | roi·bets_count = total_pnl·100 when there are bets, else 0 |
| `RangeV69.MeasureSnoc` | app_v69.py:143-151 | no data gives all zeros; each entry adds PNL_2 and one bet iff inside the away ranges, and PNL_1 and one bet iff inside the home ranges |
| `RangeV69.BetsCountBound` | app_v69.py:143-154 | bets_count is at most two per entry, total_pnl = pnl_away + pnl_home, and without bets the ROI is 0 |
| `RangeV69.MeasureRoi` | app_v69.py:150-154 | with bets, roi·bets_count = total_pnl·100 |
| `RangeV69.BothSidesCountTwice` | app_v69.py:143-151 | one more entry in both ranges adds two bets and both P&Ls |
| `RangeV69.RoiHasSignOfTotal` | app_v69.py:152-154 | the ROI has the sign of total_pnl |
| `RangeV69.RoiFloor` | app_v69.py:147-154 | with a non-negative odds floor the ROI is at least −100% |
| `RangeV69.BestStrat` | app_v69.py:164-166 | "CASA (1)" iff pnl_home > pnl_away and pnl_home > 0; "OSPITE (2)" iff pnl_away > pnl_home and pnl_away > 0; otherwise "NESSUNA" |
| `RangeV69.BestStratIsTheBetterSide` | app_v69.py:164-166 | ties and non-positive P&Ls pick none; a chosen side has the larger, positive P&L |
| `RangeV69.PageOf` | app_v69.py:112-200 | a read error iff no record was loaded; a crash iff records were loaded but none is settled; otherwise the range figures of data and the best strategy for them |

## Left out

- The Streamlit user interface is not modelled: widgets, uploads, caching,
  metrics, charts, styling, balloons, display sorting and `head(15)`.
- CSV reading is not modelled: `read_csv`, column stripping and the rename
  maps. Files enter as already-parsed rows. `to_f`, `float()` and
  `to_numeric` enter as their parsed results via `Field`, `Cell` and
  `Option`.
- An upload that fails to load is not part of the model for the analysis
  file of v65. It is modelled only for the optional results file.
- The `round(x, 2)` of the displayed EVs is left out. EVs are kept exact,
  and the rules compare the unrounded values, as the code does.
- IEEE-754 behaviour is left out:
  - NaN propagation through comparisons, including a NaN cotae or Elo in
    the v66/v69 files;
  - the `OverflowError` of `10**x`;
  - the binary inexactness of the thresholds.
- `10**x` is abstract: any function with the laws of `IsPow10`. Concrete
  probabilities such as 0.696 are therefore outside the model.
- The original code wraps `calc_row`, `calc_signal` and `calc_sniper` in
  try/except. No modelled step raises, so that path is not modelled.
- A `Text` standing cell is always truthy. Empty-string cells are not
  modelled.
- `str.lower` folds ASCII letters only.
- The `Match` display strings and `int(s1)` in 'Risultato' are left out,
  since they are display only. A team-name cell that is NaN is not
  modelled either.
- The `dropna(subset=['cotaa'])` of app_v70's `load_data` and app_v64's
  `load_file` are not modelled, being ingestion.
- pandas' `groupby`/`cut` internals are not modelled beyond the interval
  and sum rules. The set of league names is also not modelled: league
  sums are per given name.
- `OptimizerV66.Simulate`, `RangeV69.AllMetrics`: their own contracts only
  bound the length. What they compute is stated by the loops' methods and
  by the settled-row, unit-stake, exclusion and emptiness lemmas.
- `Backtest.RawRow`: a v66 or v69 results file without a cotae, elohomeo or
  eloawayo column raises `KeyError` in the row loop and stops the page
  (app_v66.py:83-84, app_v69.py:78-79). These fields are plain reals, so
  the model does not represent a missing column.
- `OptimizerV66.PageOf`: the modelled page carries only the two strategy
  profits. The heat map and the league table are `BucketPnl` and
  `LeagueTotal` of the same results, modelled on their own.
- Load failures of the v66 and v69 files (`load_data` returning None) are
  not modelled: a file enters as parsed rows, so the read error is the
  empty record list.
