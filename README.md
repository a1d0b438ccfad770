# Colour prediction and backtesting engine

A Dafny model of the prediction core of a bot for the three-colour "Double"
game. Each round draws one of red (rolls 1-7), black (rolls 8-14) or white
(roll 0). The repository predicts the next colour from the history of past
colours. It does this in two places:

- in the live server (`backend/server.py`): five simple heuristics
  (tendência, reversão, alternância, fibonacci, estatística), plus the
  optimised filter, three strategies and a weighted vote
  (`get_optimized_prediction`), the martingale probability ladder and the
  per-strategy win/loss record;
- in five offline backtests (`backend/backtest*.py`). Each backtest combines
  its own heuristics through a weighted vote behind a skip filter. It then
  simulates games in which a bet is repeated on the same colour for up to
  `max_mg` extra rounds (the martingale) and tallies wins, losses, skips and
  rates.

The model is organised as follows:

| module | contents |
|---|---|
| `Hist` (history.dfy) | colours, bets and signals; counting, windows (`history[-n:]`), the trailing-run loops and the alternation counter |
| `Generator` (generator.dfy) | the probability slices of the simulated draw and the roll-to-colour table |
| `Martingale` (martingale.dfy) | the martingale ladder as a function, the loop that plays it over a stream of draws, and draw bookkeeping |
| `Voting` (voting.dfy) | the weighted vote loop shared by every combiner, as a fold with a proved loop method, and its properties |
| `Backtest`, `BacktestV2`, `Ultra`, `Final`, `Premium` | one module per backtest file: heuristics, filter, combiner and simulator |
| `LiveServer` (server.dfy) | the server heuristics, the optimised prediction, the martingale levels and the `Performance` record class |

Randomness is a parameter. Every simulator takes a sequence `draws` of
values in `[0, 1)` and maps each one through `Generator.BlazeResult`, the
model of `generate_blaze_result`. `Martingale.Drawn(history, draws)` states
that the history is exactly the colours of the first `|history|` draws. The
simulators prove that this stays true. Each loop of the source is a method
proved equal to a function that specifies it; the properties are proved
about those functions.

## Model

| member | source | states |
|---|---|---|
| Generator.BlazeSlices | backend/backtest.py:24-32 | a draw is red iff below 0.4667, black iff in [0.4667, 0.9334), white iff at or above 0.9334; on [0, 1) white is exactly the top 0.0666 |
| Generator.SlicesAreTheProbabilities | backend/backtest.py:24-32 | the three slices are ordered (white on top, red at the bottom) and their probabilities sum to 1 |
| Generator.ParseBlazeColor | backend/server.py:1003-1010 | roll 0 iff white; rolls 1-7 iff red; every other roll, negative or above 7, iff black |
| Generator.RedWheelShare | backend/server.py:1003-1010 | of the 15 wheel rolls 0-14 exactly {1..7} are red, and the simulator's 0.4667 is 7/15 to four places |
| Generator.BlackAndWhiteWheelShares | backend/server.py:1003-1010 | exactly {8..14} are black and {0} white; 0.0666 is 1/15 to four places |
| Hist.CountStreak | backend/server.py:305-310 | the backward loop counts exactly the trailing run of the last colour, white included |
| Hist.CountColourStreak | backend/backtest.py:76-81 | the loop that stops at white counts the trailing run of the last colour; after a white it is 1 |
| Hist.CountNonWhiteStreak | backend/backtest_final.py:126-133 | the loop that skips whites counts the trailing run of the last non-white colour, and never exceeds the number of non-white outcomes |
| Hist.ColourStreak | backend/backtest.py:76-81 | the run is between 1 and the history length, and every position in it holds the last colour |
| Hist.RunOf | backend/server.py:305-310 | the trailing run is maximal: all its positions hold the colour and the one before it does not |
| Hist.NonWhite | backend/backtest_final.py:121 | filtering out white keeps every red and black and their counts, and leaves no white |
| Hist.NonWhiteAppend | backend/backtest_final.py:121 | filtering out white distributes over concatenation |
| Hist.CountTotal | backend/backtest.py:40-64 | the red, black and white counts of a window add up to its length |
| Hist.CountAppend | backend/backtest.py:40-64 | counting distributes over concatenation |
| Hist.WindowCounts | backend/backtest_ultra.py:98-103 | a shorter recent window never counts more of a colour than a longer one |
| Hist.OppositeAgreesOffWhite | backend/backtest_v2.py:178 | the two ways the source writes "the other colour" agree on red and black |
| Martingale.Ladder | backend/backtest.py:300-307 | a win at level k means the bet colour came up at round k and at no earlier round; a loss means it came up at none of the rounds |
| Martingale.LadderFirstHit | backend/backtest.py:300-307 | conversely, if round k is the first hit within the allowed levels, the ladder wins at level k |
| Martingale.LadderNoHit | backend/backtest.py:300-307 | conversely, if no round hits, the ladder is lost |
| Martingale.Play | backend/backtest.py:300-307 | the martingale loop returns the ladder's outcome and appends exactly the draws it consumed to the history |
| Martingale.PlayNext | backend/backtest.py:300-307 | played from the current end of the history, the loop consumes one draw at least and `levels` at most, and keeps the history equal to the drawn prefix |
| Martingale.DrawOne | backend/backtest.py:284-290 | a skipped round appends the colour of the next draw and keeps the history equal to the drawn prefix |
| Martingale.ConsumedAtMostLevels | backend/backtest.py:300-307 | an entry never consumes more than max_mg + 1 draws, and a loss consumes exactly that many |
| Martingale.WorkedExamples | backend/backtest.py:300-307 | betting red on black, black, red with max_mg 2 wins at MG2 after three draws; on three blacks it loses after three draws |
| Martingale.PerGame | backend/backtest.py:300-307 | a game draws at least once and at most max_mg + 1 times |
| Voting.Fold | backend/backtest_final.py:208-214 | the recorded confidences are exactly those of the red and black voters; the best strategy is the initial one or a strictly more confident colour vote among them, and it dominates every recorded confidence |
| Voting.CastVotes | backend/backtest.py:225-235 | the vote loop computes the fold |
| Voting.FoldVotesPositive | backend/backtest_v2.py:270-279 | with positive weights and confidences, vote totals are non-negative and a colour's total is positive iff some strategy voted for it |
| Voting.FoldAllVote | backend/backtest.py:225-235 | when every strategy names red or black (as all five do in this file), every one of them is counted |
| Voting.FoldSilent | backend/backtest_ultra.py:218-228 | nobody votes iff no strategy clears the bar, and then the tally is empty |
| Voting.FoldIgnoresIneligible | backend/backtest_v2.py:270-279 | replacing a strategy whose signal does not clear the bar by another such signal leaves the whole tally unchanged |
| Voting.FoldConfidenceBounds | backend/backtest_final.py:208-214 | if every eligible signal lies in [lo, hi], so does every recorded confidence and the best one |
| Voting.TallySound | backend/backtest_final.py:208-214 | positive weights and bounded signals give a tally whose votes are positive exactly when confidences were recorded |
| Voting.FoldRedIsSum | backend/backtest.py:225-235 | the red total is the sum of (confidence/100)·weight over the red voters |
| Voting.FoldMonotone | backend/backtest.py:225-235 | raising one strategy's confidence for red never lowers the red total |
| Voting.MeanBounds | backend/backtest.py:326 | the mean of values in [lo, hi] lies in [lo, hi] |
| Backtest.Tendencia | backend/backtest.py:40-64 | a colour bet in [50, 90]; (red, 50) below 15 outcomes; a confident bet follows the strict majority of the last 15 |
| Backtest.Reversao | backend/backtest.py:66-91 | (red, 50) below 5 outcomes, (red, 55) after a white; confidence ≥ 60 iff the trailing run reaches min_streak, and then the bet is the opposite colour |
| Backtest.ComputeReversao | backend/backtest.py:66-91 | the loop version computes the same signal |
| Backtest.PadraoDuplo | backend/backtest.py:93-119 | 72 iff the last six form AABBCC with alternating pairs, 75 iff instead the last nine form a 3-3-3 block; either way the bet is opposite to the last colour |
| Backtest.Equilibrio | backend/backtest.py:121-148 | (red, 50) below 30 outcomes; a lead of more than 10 in the last 30 gives a bet above 65 on the trailing colour, and a black bet or a raised confidence happens only then |
| Backtest.AntiPadrao | backend/backtest.py:150-168 | skip iff fewer than 10 outcomes, two or more whites in the last 10, or red and black within one of each other there |
| Backtest.Momentum | backend/backtest.py:170-187 | 68 iff the last three are the same colour, betting on it; 65 iff they alternate, betting against the last |
| Backtest.BallotsBounded | backend/backtest.py:204-220 | the five strategies always name red or black with confidence in [50, 90], and every weight is positive |
| Backtest.CombinedOnSkip | backend/backtest.py:197-201 | when the anti-pattern check says skip, the combiner returns the equilibrium colour at 55 as "equilibrio_conservador" |
| Backtest.VoteFacts | backend/backtest.py:222-235 | the vote always has a positive total and its best strategy is a colour bet of at most 90 |
| Backtest.VotedDecision | backend/backtest.py:237-257 | every decision on such a vote is a colour bet in [50, 92] |
| Backtest.Combined | backend/backtest.py:189-257 | the combined prediction is always a colour bet in [50, 92], and (red, 50, "default") below 10 outcomes |
| Backtest.Voted | backend/backtest.py:203-257 | the vote-and-decide part yields a colour bet in [50, 92] |
| Backtest.CombinedStrategy | backend/backtest.py:189-257 | the loop version computes the same prediction |
| Backtest.Record | backend/backtest.py:292-318 | an entry adds one entry, one win iff the ladder won, the strategy name and the confidence |
| Backtest.RecordConsistent | backend/backtest.py:292-318 | recording keeps the counters consistent: wins plus losses equal entries, per-level wins add up, one name and one confidence per entry, every confidence in [min_confidence, 92] |
| Backtest.Choice | backend/backtest.py:281-290 | an entered game bets a colour with confidence in [min_confidence, 92]; a threshold of at most 50 always enters and one above 92 never does |
| Backtest.ChoiceAtCapped | backend/backtest.py:281-290 | the chooser of the simulation, combined_strategy_v2 behind the min_confidence test, only enters with a confidence in [min_confidence, 92] |
| Backtest.Round | backend/backtest.py:279-320 | one pass of the loop keeps the history it was given as a prefix and adds at most `levels` outcomes (one when there are no levels) |
| Backtest.RoundShape | backend/backtest.py:279-320 | a pass is either a skip that adds one skip and one outcome, or an entry that adds one entry and between one and `levels` outcomes; with no levels nothing is won |
| Backtest.RoundConsistent | backend/backtest.py:279-320 | a pass keeps the counters consistent (wins plus losses equal entries, per-level wins add up, one name and one confidence in [min_confidence, 92] per entry) |
| Backtest.Rounds | backend/backtest.py:279-320 | n passes of the loop never shrink the history and never draw past the stream |
| Backtest.RoundsGrowAtLeast | backend/backtest.py:279-320 | after n passes entries plus skips went up by exactly n, and the history grew by at least one outcome per skip and per entry |
| Backtest.RoundAtMost | backend/backtest.py:279-320 | one pass adds exactly one outcome per skip and at most `levels` per entry |
| Backtest.RoundsGrowAtMost | backend/backtest.py:279-320 | n passes add exactly one outcome per skip and at most `levels` per entry |
| Backtest.RoundsConsistent | backend/backtest.py:279-320 | n passes keep the counters consistent |
| Backtest.RoundsFromStart | backend/backtest.py:263-320 | from empty consistent counters, n passes count every game once, stay consistent and grow the history by one per skip and one to `levels` per entry |
| Backtest.RoundsReport | backend/backtest.py:259-332 | the results dict after n games: entries + skipped = n, wins + losses = entries, per-level wins add up, confidences in [min_confidence, 92], the rates are the source's ratios (0 with no entries) and the average confidence lies in [min_confidence, 92] |
| Backtest.Settle | backend/backtest.py:284-320 | a skip counts a skip and appends one draw; an entry records the prediction and the ladder's result and appends exactly the draws consumed |
| Backtest.PlayGame | backend/backtest.py:279-320 | one pass of the loop computes exactly Round |
| Backtest.RoundsStep | backend/backtest.py:279-320 | n passes are one pass followed by n - 1 passes from where it left off |
| Backtest.Advance | backend/backtest.py:279-320 | a pass with k games left leaves k - 1 games that end where the k would |
| Backtest.Run | backend/backtest.py:278-320 | the while loop over n games computes exactly Rounds |
| Backtest.Simulate | backend/backtest.py:259-332 | the report is Finish of Rounds over the first 50 draws' history, hence entries + skipped = n_games, wins + losses = entries, per-level wins add up, every recorded confidence is in [min_confidence, 92], the rates are the source's ratios (0 with no entries) and the history is the drawn prefix of the stream |
| BacktestV2.SkipEntry | backend/backtest_v2.py:30-67 | below 15 outcomes it skips with "histórico insuficiente"; a pass means at most one white in the last 15 and a colour run shorter than 7 |
| BacktestV2.SkipEntryReasons | backend/backtest_v2.py:30-67 | each skip reason holds iff its test is the first to fail, in the source's order; "ok" iff no skip |
| BacktestV2.ShouldSkipEntry | backend/backtest_v2.py:30-67 | the loop version computes the same verdict |
| BacktestV2.PassedHasColours | backend/backtest_v2.py:225-227 | a history that passes the filter has at least 14 non-white outcomes among its last 30, so the division at line 227 is defined |
| BacktestV2.Bonus | backend/backtest_v2.py:69-94 | the bonus is 0 below 20 outcomes and one of 0, 3, 4, 5, 7, 8, 9, 12; the trend part (5) is present iff red_20 ≥ 12 for red, or red_20 ≤ 8 for black, over the last 20 |
| BacktestV2.ConfidenceBonus | backend/backtest_v2.py:69-94 | the accumulating version computes the same bonus |
| BacktestV2.SmartTrend | backend/backtest_v2.py:98-124 | (red, 50) below 30 outcomes; otherwise 52 when the weighted score is within (0.42, 0.58), else a bet of at least 69.6 following the score's side |
| BacktestV2.ReversalBase | backend/backtest_v2.py:149-150 | the run-length confidence table gives between 62 and 80 |
| BacktestV2.SmartReversal | backend/backtest_v2.py:126-160 | (red, 50) below 8 outcomes, (red, 52) after a white; ≥ 62 iff the run reaches 4, then betting the opposite colour at the table value plus 5 when that colour is under 35% of the last 30 |
| BacktestV2.ComputeSmartReversal | backend/backtest_v2.py:126-160 | the loop version computes the same signal |
| BacktestV2.PatternRecognition | backend/backtest_v2.py:162-197 | 75 iff the last six form an alternating 2-2-2, 70 iff instead the recent colours strictly alternate, 68 only on 9+ or 3- reds in the last 12 (against the dominant colour) |
| BacktestV2.Dominance | backend/backtest_v2.py:190-197 | 68 iff 9+ or at most 3 reds of 12, betting black on 9+ and red on at most 3 |
| BacktestV2.LastSixColours | backend/backtest_v2.py:171-179 | in the 2-2-2 case the colour after the fifth equals the opposite of the last outcome |
| BacktestV2.StatisticalEdge | backend/backtest_v2.py:199-236 | (red, 50) below 50 outcomes; 65 iff the red deviation exceeds two standard deviations, then betting against the colour in excess |
| BacktestV2.Decide | backend/backtest_v2.py:281-311 | no votes gives "sem_consenso"; a red share of at least 0.65 bets red (or skips for low confidence), at most 0.35 bets black; in between only the best strategy at 70 or more enters; every entry is at least 65 |
| BacktestV2.UltraCombined | backend/backtest_v2.py:238-311 | a filtered history skips with the filter's reason; every entry is a colour bet in [65, 92] |
| BacktestV2.Voted | backend/backtest_v2.py:248-311 | after the filter passes, the vote yields a colour bet in [65, 92] or a skip |
| BacktestV2.BallotsBounded | backend/backtest_v2.py:249-254 | no strategy signals above 88 |
| BacktestV2.VoteBounds | backend/backtest_v2.py:270-279 | every counted confidence lies in (55, 88] and so does the best |
| BacktestV2.UltraCombinedStrategy | backend/backtest_v2.py:238-311 | the loop version computes the same decision |
| BacktestV2.RecordSkip | backend/backtest_v2.py:334-340 | a skip adds one skip and its reason, and keeps the counters consistent |
| BacktestV2.RecordEntry | backend/backtest_v2.py:342-369 | an entry adds one entry, a win iff the ladder won, and the strategy name |
| BacktestV2.Settle | backend/backtest_v2.py:334-369 | a skip records a skip and appends one draw; an entry records the ladder over the next draws and appends exactly the draws consumed |
| BacktestV2.FinishRates | backend/backtest_v2.py:373-376 | the rates exist iff something was entered, and then are the wins and principal wins over the entries times 100 |
| BacktestV2.Game | backend/backtest_v2.py:332-371 | one pass of the loop keeps the history it was given as a prefix and adds at most `levels` outcomes (one when there are no levels) |
| BacktestV2.GameShape | backend/backtest_v2.py:332-371 | a pass is a skip (one skip, one outcome) or an entry (one entry, one to `levels` outcomes), keeps the counters consistent, and wins nothing without levels |
| BacktestV2.GamesGrowAtLeast | backend/backtest_v2.py:331-371 | after n passes entries plus skips went up by exactly n, the counters stay consistent, and the history grew by at least one outcome per skip and per entry |
| BacktestV2.GameAtMost | backend/backtest_v2.py:332-371 | one pass adds exactly one outcome per skip and at most `levels` per entry |
| BacktestV2.GamesGrowAtMost | backend/backtest_v2.py:331-371 | n passes add exactly one outcome per skip and at most `levels` per entry |
| BacktestV2.GamesFromStart | backend/backtest_v2.py:317-371 | from empty consistent counters, n passes count every game once, stay consistent and grow the history by one per skip and one to `levels` per entry |
| BacktestV2.GamesReport | backend/backtest_v2.py:313-371 | the results after n games: entries + skipped = n, wins + losses = entries, per-level wins add up, one skip reason per skip and one strategy per entry |
| BacktestV2.PlayGame | backend/backtest_v2.py:332-371 | one pass of the loop computes exactly Game |
| BacktestV2.GamesStep | backend/backtest_v2.py:331-371 | n passes are one pass followed by n - 1 passes from where it left off |
| BacktestV2.Advance | backend/backtest_v2.py:331-371 | a pass with k games left leaves k - 1 games that end where the k would |
| BacktestV2.Run | backend/backtest_v2.py:330-371 | the while loop over n games computes exactly Games |
| BacktestV2.Simulate | backend/backtest_v2.py:313-378 | the report is Finish of Games over the first 100 draws' history, hence entries + skipped = n_games, wins + losses = entries, per-level wins add up, the rates exist only when something was entered and then are the source's ratios, and the history is the drawn prefix of the stream |
| Ultra.TrendOf | backend/backtest_ultra.py:78-87 | red iff the red count reaches the upper mark, black iff it is at or below the lower one |
| Ultra.ContradictoryExactly | backend/backtest_ultra.py:78-87 | the short-term trend is always defined, and the trends contradict iff 3+ reds in the last 5 with at most 4 in the last 10, or the reverse |
| Ultra.UltraFilter | backend/backtest_ultra.py:28-89 | below 30 outcomes it skips; a pass means no white in the last 15, a non-white run under 6 and no contradictory trend |
| Ultra.UltraFilterReasons | backend/backtest_ultra.py:28-89 | each of the six skip reasons holds iff its test is the first to fail; "ok" iff no skip |
| Ultra.ComputeUltraFilter | backend/backtest_ultra.py:28-89 | the loop version computes the same verdict |
| Ultra.UltraTrend | backend/backtest_ultra.py:93-122 | no bet below 50 outcomes; red iff the score is at least 0.65 and the 5/10/20 red shares reach 0.6/0.55/0.52, black symmetrically; confidence in [85, 92] |
| Ultra.UltraReversal | backend/backtest_ultra.py:124-157 | a bet iff the reversal conditions hold, always against the trailing non-white colour, with confidence in (76, 90] |
| Ultra.ComputeUltraReversal | backend/backtest_ultra.py:124-157 | the loop version computes the same signal |
| Ultra.UltraPattern | backend/backtest_ultra.py:159-193 | 85 iff the last 8 recent colours form a 2-2-2-2 block, 88 iff instead the last 9 form 3-3-3; always against the last recent colour |
| Ultra.Decide | backend/backtest_ultra.py:226-254 | no valid strategy gives "sem_sinal_forte"; a red share of 0.75+ with two red signals or a best at 85+ bets red at min(mean + 3, 95), a share of 0.25 or less with two black signals or a best at 85+ bets black at the same confidence, otherwise "consenso_insuficiente"; a middle share enters only the best strategy at 85+ |
| Ultra.UltraCombined | backend/backtest_ultra.py:195-254 | a filtered history skips with the filter's reason; every entry is a colour bet in [70, 95] |
| Ultra.LongRunNeverEnters | backend/backtest_ultra.py:57-68 | a non-white run of 6 or more is always skipped with the filter's reason |
| Ultra.Voted | backend/backtest_ultra.py:203-254 | the vote yields a colour bet in [70, 95] or a skip |
| Ultra.VoteFacts | backend/backtest_ultra.py:218-225 | every counted confidence lies in [70, 92] and some valid strategy means a positive vote total |
| Ultra.Silent | backend/backtest_ultra.py:218-228 | nothing is counted iff none of the three strategies reaches 70, and then an unfiltered history skips with "sem_sinal_forte" |
| Ultra.BallotsSound | backend/backtest_ultra.py:204-211 | the three weights are positive and eligible signals are in [70, 92] |
| Ultra.VotedDecision | backend/backtest_ultra.py:231-254 | on such a tally every entry is a colour bet in [70, 95] |
| Ultra.UltraCombinedStrategy | backend/backtest_ultra.py:195-254 | the loop version computes the same decision |
| Ultra.RecordSkip | backend/backtest_ultra.py:270-274 | a skip adds one skip and its reason |
| Ultra.RecordEntry | backend/backtest_ultra.py:276-296 | an entry adds one entry, a win iff the ladder won, and the strategy name |
| Ultra.Settle | backend/backtest_ultra.py:270-296 | a skip appends one draw; an entry plays the three-round ladder and appends exactly the draws consumed |
| Ultra.Game | backend/backtest_ultra.py:268-296 | one iteration keeps the counters consistent, keeps the history it was given as a prefix, and is a skip (one skip, one outcome) or an entry (one entry, one to three outcomes) |
| Ultra.FinishRates | backend/backtest_ultra.py:298-303 | with entries, the win rate is wins over entries and the entry rate entries over all games, times 100; without entries both are 0 |
| Ultra.GamesShape | backend/backtest_ultra.py:267-296 | over n iterations entries plus skips go up by exactly n, the counters stay consistent, and the history grows by exactly one per skip and by one to three per entry |
| Ultra.GamesFromStart | backend/backtest_ultra.py:260-296 | from consistent counters with nothing recorded, n games count every game once, stay consistent and grow the history by one per skip and one to three per entry |
| Ultra.GamesReport | backend/backtest_ultra.py:256-296 | the stats after n games: entries + skipped = n, wins + losses = entries, per-level wins add up, one strategy per entry and one skip reason per skip |
| Ultra.PlayGame | backend/backtest_ultra.py:268-296 | one iteration of the loop computes exactly Game |
| Ultra.GamesStep | backend/backtest_ultra.py:267-296 | n iterations are one followed by n - 1 from where it left off |
| Ultra.Advance | backend/backtest_ultra.py:267-296 | an iteration with k games left leaves k - 1 games that end where the k would |
| Ultra.Run | backend/backtest_ultra.py:267-296 | the for loop over n games computes exactly Games |
| Ultra.Simulate | backend/backtest_ultra.py:256-305 | the stats are Finish of Games over the first 100 draws' history, hence entries + skipped = n_games, wins + losses = entries, per-level wins add up, win rate and entry rate are the source's ratios (0 with no entries) |
| Final.AdvancedFilter | backend/backtest_final.py:28-75 | below 20 outcomes it skips; a pass means at most one white and fewer than 14 changes in the last 20 and a non-white run under 6 |
| Final.AdvancedFilterReasons | backend/backtest_final.py:28-75 | each of the five skip reasons holds iff its test is the first to fail; "ok" iff no skip |
| Final.ComputeAdvancedFilter | backend/backtest_final.py:28-75 | the loop version computes the same verdict |
| Final.FinalTrend | backend/backtest_final.py:79-113 | no bet below 40 outcomes; red iff each of the last 5, 10, 20 and 40 holds a non-white outcome and the weighted score is at least 0.62, black iff that holds and the score is at most 0.38; confidence in [78, 90] |
| Final.FinalReversal | backend/backtest_final.py:115-151 | a bet iff 15+ outcomes, 10+ non-white and a non-white run of 4+; always against the run's colour; above 69 when that colour is under 40% recently, otherwise in [60, 80] |
| Final.ComputeFinalReversal | backend/backtest_final.py:115-151 | the loop version computes the same signal |
| Final.FinalPattern | backend/backtest_final.py:153-182 | 78 iff the last six recent colours form an alternating 2-2-2, 80 iff instead the last nine form 3-3-3; always against the last recent colour |
| Final.PeriodTwoExample | backend/backtest_final.py:153-182 | on RRBBRRBBRRBB the pattern strategy bets red at 78 |
| Final.Decide | backend/backtest_final.py:216-234 | no votes gives "sem_sinal"; a red share of 0.70+ bets red, 0.30 or less black, both at most 92; in between only a best strategy at 75+ enters |
| Final.FinalCombined | backend/backtest_final.py:184-234 | a filtered history skips with the filter's reason; every entry is a colour bet in [65, 92] |
| Final.LongRunNeverEnters | backend/backtest_final.py:56-66 | a non-white run of 6 or more is always skipped with the filter's reason |
| Final.Voted | backend/backtest_final.py:194-234 | the vote yields a colour bet in [65, 92] or a skip |
| Final.VoteFacts | backend/backtest_final.py:208-214 | every counted confidence lies in [60, 90] and a positive total means some strategy was counted |
| Final.Silent | backend/backtest_final.py:208-218 | the vote total is zero iff none of the three strategies reaches 60, and then an unfiltered history skips with "sem_sinal" |
| Final.BallotsSound | backend/backtest_final.py:195-202 | the three weights are positive and eligible signals are in [60, 90] |
| Final.VotedDecision | backend/backtest_final.py:216-234 | on such a tally every entry is a colour bet in [65, 92] |
| Final.FinalCombinedStrategy | backend/backtest_final.py:184-234 | the loop version computes the same decision |
| Final.SumNatIncrement | backend/backtest_final.py:266 | bumping one win-level slot raises the sum of the slots by one |
| Final.RecordSkip | backend/backtest_final.py:250-254 | a skip adds one skip and its reason |
| Final.RecordEntry | backend/backtest_final.py:256-270 | an entry adds one entry and, on a win at level k, one to slot k only; a loss adds one loss and leaves the slots alone |
| Final.RecordKeepsConsistent | backend/backtest_final.py:250-269 | recording a skip or an entry keeps the counters consistent: five slots adding up to the wins, wins plus losses equal entries |
| Final.Settle | backend/backtest_final.py:250-270 | a skip appends one draw; an entry plays the ladder and appends exactly the draws consumed |
| Final.Game | backend/backtest_final.py:248-270 | one iteration keeps five slots, keeps the history it was given as a prefix and adds at most `levels` outcomes (one when there are no levels) |
| Final.GameShape | backend/backtest_final.py:248-270 | an iteration is a skip (one skip, one outcome) or an entry (one entry, one to `levels` outcomes); with no levels nothing is won |
| Final.GameAtMost | backend/backtest_final.py:248-270 | one iteration adds exactly one outcome per skip and at most `levels` per entry |
| Final.GameConsistent | backend/backtest_final.py:248-270 | an iteration with at most five levels keeps the counters consistent |
| Final.GamesStep | backend/backtest_final.py:247-270 | n iterations are one followed by n - 1 from where it left off |
| Final.Advance | backend/backtest_final.py:247-270 | an iteration with k games left leaves k - 1 games that end where the k would |
| Final.GamesGrowAtLeast | backend/backtest_final.py:247-270 | after n games entries plus skips went up by exactly n and the history grew by at least one outcome per skip and per entry |
| Final.GamesGrowAtMost | backend/backtest_final.py:247-270 | n games add exactly one outcome per skip and at most `levels` per entry |
| Final.StartConsistent | backend/backtest_final.py:240-245 | the initial counters, with five zero slots, are consistent |
| Final.GamesConsistent | backend/backtest_final.py:247-270 | n games with at most five levels keep the counters consistent |
| Final.GamesFromStart | backend/backtest_final.py:240-270 | from the initial counters, n games count every game once, stay consistent and grow the history by one per skip and one to `levels` per entry |
| Final.GamesReport | backend/backtest_final.py:236-270 | the stats after n games: entries + skipped = n, wins + losses = entries, the five slots add up to the wins, one skip reason per skip and one strategy per entry |
| Final.PlayGame | backend/backtest_final.py:248-270 | one iteration of the loop computes exactly Game |
| Final.Run | backend/backtest_final.py:247-270 | the for loop over n games computes exactly Games |
| Final.Simulate | backend/backtest_final.py:236-277 | the stats are Finish of Games over the first 100 draws' history, hence entries + skipped = n_games, wins + losses = entries, the five win-level slots add up to the wins, the win rate is the source's ratio (0 with no entries) |
| Premium.HighConfidencePattern | backend/backtest_premium.py:28-129 | skips below 30 outcomes or 25 non-white; a strong reversal bets against the run above 87.6, then the 2-2-2-2 block at 88, then 3-3-3 at 90; every bet is in [80, 95] |
| Premium.Detect | backend/backtest_premium.py:41-129 | the pattern checks in the source's order on the non-white outcomes |
| Premium.Reversal | backend/backtest_premium.py:56-66 | a strong reversal bets against the run's colour with confidence in (87.6, 95] |
| Premium.TrendOrCorrection | backend/backtest_premium.py:102-129 | in order: red at 85 when red dominates every timeframe, black at 85 when black does, red at 80 when red_30/30 < 0.33 with 2+ reds in the last 5, black at 80 when red_30/30 > 0.67 with at most 3 reds in the last 5, otherwise the "sem_padrão_forte" skip |
| Premium.DetectPattern | backend/backtest_premium.py:28-129 | the loop version computes the same detection |
| Premium.PremiumFilter | backend/backtest_premium.py:131-146 | skip iff below 25 outcomes, any white in the last 10, or 11+ changes in the last 15; each reason iff its test is the first to fail |
| Premium.PremiumStrategy | backend/backtest_premium.py:148-162 | enters iff the filter passes and a pattern is found, betting its colour in [80, 95] under its name; a filtered skip carries the filter's reason |
| Premium.ComputePremiumStrategy | backend/backtest_premium.py:148-162 | the method computes the same decision |
| Premium.RecordSkip | backend/backtest_premium.py:177-180 | a skip adds one skip only |
| Premium.RecordEntry | backend/backtest_premium.py:182-203 | an entry adds one entry and its pattern name to the wins or to the losses |
| Premium.Game | backend/backtest_premium.py:175-203 | one iteration keeps the counters consistent, keeps the history it was given as a prefix, and is a skip (one skip, one outcome) or an entry (one entry, one to three outcomes) |
| Premium.GamesShape | backend/backtest_premium.py:174-203 | over n iterations entries plus skips go up by exactly n, the counters stay consistent, and the history grows by exactly one per skip and by one to three per entry |
| Premium.GamesFromStart | backend/backtest_premium.py:168-203 | from consistent counters with nothing recorded, n games count every game once, stay consistent and grow the history by one per skip and one to three per entry |
| Premium.GamesReport | backend/backtest_premium.py:164-203 | the stats after n games: entries + skipped = n, wins + losses = entries, per-level wins add up, per-pattern wins and losses match the totals |
| Premium.PlayGame | backend/backtest_premium.py:175-203 | one iteration of the loop computes exactly Game: a skip appends one draw, an entry plays the three-round ladder and appends the draws consumed |
| Premium.GamesStep | backend/backtest_premium.py:174-203 | n iterations are one followed by n - 1 from where it left off |
| Premium.Advance | backend/backtest_premium.py:174-203 | an iteration with k games left leaves k - 1 games that end where the k would |
| Premium.Run | backend/backtest_premium.py:174-203 | the for loop over n games computes exactly Games |
| Premium.Simulate | backend/backtest_premium.py:164-210 | the stats are Finish of Games over the first 100 draws' history, hence entries + skipped = n_games, wins + losses = entries, per-level wins add up, per-pattern wins and losses match the totals |
| LiveServer.Tendencia | backend/server.py:282-296 | (red, 50) below 10 outcomes; bets red iff red leads in the last 20; 50 iff tied; 85 iff the lead is 14 or more |
| LiveServer.Reversao | backend/server.py:298-326 | (red, 50) below 5 outcomes; ≥ 60 iff the run is 4+, then against the last colour, 90 iff the run is 8+; otherwise 55 against the colour in excess in the last 10 |
| LiveServer.ComputeReversao | backend/server.py:298-326 | the loop version computes the same signal |
| LiveServer.CheckPairs | backend/server.py:350-356 | the loop decides exactly whether the window is made of equal pairs |
| LiveServer.Alternancia | backend/server.py:328-364 | (red, 50) below 6 outcomes; ≥ 70 iff 6+ changes in the last 8, betting against the last; otherwise 65 on paired windows by parity, else 50 |
| LiveServer.ComputeAlternancia | backend/server.py:328-364 | the loop version computes the same signal |
| LiveServer.CollectFibColours | backend/server.py:374-380 | the loop collects the outcomes 1, 2, 3, 5, 8, 13 and 21 places back |
| LiveServer.FibSampleFull | backend/server.py:374-380 | the sample is exactly those seven outcomes |
| LiveServer.Fibonacci | backend/server.py:366-391 | (red, 50) below 21 outcomes; a colour ahead by 2+ in the sample gets a bet of 70+, otherwise 52 |
| LiveServer.ComputeFibonacci | backend/server.py:366-391 | the loop version computes the same signal |
| LiveServer.Estatistica | backend/server.py:393-429 | (red, 50) below 30 outcomes; a deficit of more than 3 bets that colour above 59.5, red first; otherwise the last-30 test at 62, then 51 |
| LiveServer.OptimizedFilter | backend/server.py:598-636 | below 20 outcomes it skips; passes iff at most one white, not balanced, fewer than 14 changes in the last 20 and a non-white run under 6 |
| LiveServer.OptimizedFilterReasons | backend/server.py:598-636 | each skip reason holds iff its test is the first to fail |
| LiveServer.ComputeOptimizedFilter | backend/server.py:598-636 | the loop version computes the same verdict |
| LiveServer.FilterAgreesWithAdvanced | backend/server.py:598-636 | the live filter is the backtest filter without its alternation test: they differ only on long alternations |
| LiveServer.OptimizedStrategies | backend/server.py:638-735 | the live trend, reversal and pattern strategies keep the final backtest's guarantees (ranges, thresholds, direction) |
| LiveServer.Predict | backend/server.py:765-801 | no votes is the "sem_sinal" fallback; 0.70+ red share is "consenso_alto_vermelho", 0.30 or less "consenso_alto_preto", in between the best strategy at 75+ or the "consenso_baixo" fallback |
| LiveServer.PredictBounds | backend/server.py:765-801 | every entered prediction is red or black with confidence in [65, 92] |
| LiveServer.PredictMatchesDecide | backend/server.py:765-801 | the live decision enters exactly when the backtest decision does, on the same colour and confidence |
| LiveServer.OptimizedPrediction | backend/server.py:737-801 | a filtered history never enters; every entry is red or black in [65, 92] |
| LiveServer.SilentPrediction | backend/server.py:757-767 | when no strategy reaches 60 the live prediction is the "sem_sinal" fallback |
| LiveServer.PredictionAgreesWithFinal | backend/server.py:737-801 | past the backtest filter the live and final predictions agree; they differ only on long alternations |
| LiveServer.GetOptimizedPrediction | backend/server.py:737-801 | the loop version computes the same prediction |
| LiveServer.MartingaleLevels | backend/server.py:922-955 | max_levels + 2 pending levels: Principal at the base, each martingale at the running share, Loss at the remainder; probabilities sum to 100 |
| LiveServer.RemainingBounds | backend/server.py:936-945 | the remainder and each martingale's share stay within [0, 100 − base], each share 0.6 times the one before |
| LiveServer.Recorded | backend/server.py:219-228 | a win adds a win and makes the streak positive, a loss adds a loss and makes it negative; the streak grows when it continues and restarts at one otherwise |
| LiveServer.ReplayMeaning | backend/server.py:215-235 | after a sequence of results, wins count the wins, the streak is the signed trailing run, and the last-loss count equals the losses |
| LiveServer.Performance.constructor | backend/server.py:200-213 | every strategy starts with a zero record and the total loss streak at 0 |
| LiveServer.Performance.Update | backend/server.py:215-235 | only the played strategy's record changes; the total loss streak resets on a win and grows on a loss; an unknown strategy changes nothing |

## Left out

- The web and database layer of `backend/server.py`: the endpoints, authentication, settings, MongoDB reads and writes (including `select_best_strategy`, `update_predictions_with_result`, `get_statistics`, `get_chart_data`). `LiveServer.Performance` keeps the performance record in memory instead of loading and saving it.
- The live feed, client broadcast, websocket endpoint and simulator task: networking and concurrency.
- `analyze_with_ia_profunda` and `analyze_pattern_with_ai`: calls to an external language model, the database and `random.uniform`.
- `detect_all_patterns` and `generate_fallback_analysis`: they only build display text.
- `LiveServer.MartingaleLevels`: the timestamp strings and the `round(…, 2)` display rounding are not modelled; probabilities are exact.
- `backend/blaze_scraper.py` and `backend_test.py` are not part of this model (HTML scraping and an HTTP test client).
- The drivers `optimize_parameters`, `run_full_test`, `run_optimization_test`, every `main`, and all printing.
- Randomness: `random.random()` is replaced by the parameter `draws`; `generate_history(n)` is the first n draws. No statistical claim about win rates is modelled.
- Floating point: confidences and ratios are exact reals; `statistics.mean` is sum divided by length; the square root in `strategy_statistical_edge` is compared by squaring both non-negative sides.
- BacktestV2.StatisticalEdge: requires `EdgeDefined` (some non-white outcome among the last 30), because line 227 divides by that count and would raise otherwise; `BacktestV2.PassedHasColours` shows that every history reaching it from the combiner meets this.
- Final.Simulate: requires max_mg ≤ 4. The source raises an index error only when an entry actually wins at level 5 or higher (backtest_final.py:259-266), which a larger max_mg makes possible but not certain; the model rejects every larger max_mg rather than modelling that crash.
- The simulators need `draws` long enough for the worst case (every game an entry that uses every level); a shorter stream is a precondition failure rather than more random numbers.

## Notes on the source

- `backend/backtest_ultra.py:242` and `:247` bind `_` twice in one comprehension; the condition then reads the colour, so the mean runs over every valid confidence. `Ultra.Decide` follows that reading.
- `backend/backtest_premium.py:118` divides the red count by 30 even when fewer than 30 non-white outcomes are in the window; `Premium.TrendOrCorrection` does the same.
- `backend/backtest_v2.py:158` caps the reversal at 85, but the table plus the bonus never exceeds 85, so the cap never changes the result.
- `backend/backtest_v2.py:374-377` sets the rates only when something was entered; `BacktestV2.Simulate` reports them as optional values.
- The live server's `optimized_filter` is the final backtest's `advanced_filter` without the alternation test. Its three strategies are line for line those of the final backtest, and the model reuses them (`LiveServer.FilterAgreesWithAdvanced`, `LiveServer.PredictionAgreesWithFinal`).
