# Football betting analytics, modelled in Dafny

This project models the analytics core of a football-statistics web service.
The core estimates team strength from match records and turns those
estimates into betting advice aimed at decimal odds of 1.25.

It has the following parts:

- **Team estimators.** An Elo rating loop, a recency-weighted form index,
  attacking and defensive rates, a home/away split, a head-to-head tally and
  the league-level team statistics counter.
- **Probability and value layer.** A logistic match-probability model with a
  fixed 25% draw share, and a value-bet filter at a target price.
- **The 1.25-odds scenario scanner.** Five threshold rules, a first-maximum
  selection and a sorted opportunity list. It includes the corrected form of
  a defect in the scanner (see Findings).
- **Allocation and tracking.** Daily staking of the top three opportunities at
  5% of the bankroll with a portfolio risk label, and the in-memory
  prediction/result history class with its metrics.
- **Rule bodies of the HTTP handlers, after their database reads:**
  - the bet calculator with its Kelly clamp;
  - market-pattern detection;
  - the simulated performance report;
  - the probability calculator;
  - the league table;
  - the deep-analysis trend and per-venue rates;
  - the simple odds prediction.

Modelling choices:

- All arithmetic is exact `real`; scores are `nat` and dates are ordinal
  integers.
- Elo's `1/(1+10**(-d/400))` and the logistic `1/(1+exp(-d/400))` are
  function parameters. All the model assumes of them is `Curves.IsLogistic`:
  values in (0, 1), strictly increasing. Some lemmas also assume
  `Curves.PointSymmetric`.
- Python's `sorted` and `list.sort` are one insertion sort, `Sorting.SortBy`.
  Python's `max(..., key=...)` is `Sorting.ArgMax`, the first maximal
  position.
- The intermediate Python dictionaries are sequences whose order is the
  dictionary's insertion order. Grouping by a key is `Grouping.GroupByKey`.
- Loops in the source are `method`s with loop invariants, each proved equal to
  a prefix-recursive specification function. The properties are proved about
  those functions.
- `PerformanceTracking.PerformanceTracker` is a class whose two history fields
  are sequences that its methods append to.

Modules and files:

| module | file | source |
|---|---|---|
| `Wrappers` | wrappers.dfy | `Option` and `Result` |
| `Sorting` | sorting.dfy | the sorting and `max` calls |
| `Records`, `Curves` | records.dfy | the match dictionaries and shared counters |
| `Grouping` | grouping.dfy | the dictionary tallies |
| `AdvancedStats` | advanced_stats.dfy | `AdvancedStatsCalculator` |
| `PredictionEngine` | prediction_engine.dfy | `PredictionEngine` |
| `OddsTargetSystem` | odds_target_system.dfy | `OddsTargetSystem` |
| `BettingStrategy` | betting_strategy.dfy | `BettingStrategy` |
| `PerformanceTracking` | performance_tracker.dfy | `PerformanceTracker` |
| `StatsCalculator` | team_stats.dfy | `StatsCalculator.calculate_team_stats` |
| `OddsRoutes` | odds_routes.dfy | the 1.25-odds handlers |
| `AdvancedRoutes` | advanced_routes.dfy | the advanced-analysis handlers |
| `FootballRoutes` | football_routes.dfy | `predict_odds` |

## Model

| member | source | states |
|---|---|---|
| Records.ForTeam | football-analysis/src/services/advanced_analytics.py:310-317 | the team is the home side iff it is the match's home team id; goals for and against are taken from that side and add up to the match total |
| Records.PrepareMatchData | football-analysis/src/services/advanced_analytics.py:307-318 | one team-perspective record per match, in input order |
| Records.MatchesOf | football-analysis/src/services/advanced_analytics.py:303-304 | exactly the matches in which the team plays on either side, in input order |
| Records.LastN | football-analysis/src/services/advanced_analytics.py:324 | `s[-n:]`: the last `min(n, \|s\|)` elements of the list |
| Records.FirstN | football-analysis/src/routes/advanced.py:322 | `s[:n]`: the first `min(n, \|s\|)` elements of the list |
| Records.FinishedOnly | football-analysis/src/services/advanced_analytics.py:96-97 | exactly the matches whose status is 'finalizado' |
| Records.ResultsPartition | football-analysis/src/services/advanced_analytics.py:192-194 | every match is exactly one of a win, a draw and a loss |
| Records.CleanSheetsBound | football-analysis/src/services/advanced_analytics.py:119 | there is at most one clean sheet per match |
| Sorting.SortBy | football-analysis/src/services/advanced_analytics.py:296 | the sorted list is a permutation of the input |
| Sorting.SortBySorted | football-analysis/src/services/odds_125_system.py:52-54 | under a total preorder, the result is sorted and is a permutation of the input |
| Sorting.SortByMembers | football-analysis/src/routes/advanced.py:312 | sorting keeps exactly the same members |
| Sorting.ArgMax | football-analysis/src/services/odds_125_system.py:370-371 | the position of the first maximal element: no element is larger, and every earlier one is smaller |
| Grouping.Keys | football-analysis/src/routes/odds_125.py:278-282 | the distinct keys in first-occurrence order: exactly the keys of the items, without repetition |
| Grouping.CountOfPositive | football-analysis/src/routes/odds_125.py:281-283 | a key has a positive count iff it occurs |
| Grouping.CountsCoverItems | football-analysis/src/routes/odds_125.py:278-284 | the per-key counts add up to the number of items |
| Grouping.GroupStep | football-analysis/src/routes/odds_125.py:279-284 | one more item adds its key if new, and raises exactly that key's count and sum |
| Grouping.GroupByKey | football-analysis/src/routes/odds_125.py:278-284 | the loop's dictionary: keys in insertion order, and each key's count and sum over the items |
| AdvancedStats.EloStep | football-analysis/src/services/advanced_analytics.py:20-42 | an unfinished match leaves the rating unchanged; a finished one moves it by less than K = 32, up on a win, down on a loss, and by less than 16 on a draw |
| AdvancedStats.CalculateEloRating | football-analysis/src/services/advanced_analytics.py:11-44 | the loop over the date-ascending sort of the matches; the initial rating is returned when no match is finished |
| AdvancedStats.EloFrom | football-analysis/src/services/advanced_analytics.py:19-44 | the rating after folding the per-match update over the matches in order; without a finished match it is the initial rating |
| AdvancedStats.EloFromStep | football-analysis/src/services/advanced_analytics.py:19-42 | folding one more match is one more update step applied to the rating so far |
| AdvancedStats.EloTurn | football-analysis/src/services/advanced_analytics.py:20-42 | the body of the per-match loop computes exactly one Elo update step |
| AdvancedStats.EloDrift | football-analysis/src/services/advanced_analytics.py:42 | after n finished matches the rating is within 32·n of its start, strictly when n > 0 |
| AdvancedStats.EloWinsRaise | football-analysis/src/services/advanced_analytics.py:34-42 | if every finished match is a win, the rating never falls, and it rises strictly when some match is finished |
| AdvancedStats.MatchScore | football-analysis/src/services/advanced_analytics.py:73-83 | a loss scores 0 and a draw 0.5; a win scores 1 + min(0.2, 0.05·margin), which lies in (1, 1.2] |
| AdvancedStats.AccumulateWindow | football-analysis/src/services/advanced_analytics.py:63-86 | the weighted score and weight sums over the window; skipped matches still consume their position |
| AdvancedStats.WindowSumsStep | football-analysis/src/services/advanced_analytics.py:63-86 | adding one more window position adds its weighted score and weight only when that match is finished |
| AdvancedStats.WindowTurn | football-analysis/src/services/advanced_analytics.py:64-86 | an unfinished match leaves both sums unchanged; a finished one adds the weight times its result score to the score sum and the weight to the weight sum |
| AdvancedStats.CalculateFormIndex | football-analysis/src/services/advanced_analytics.py:47-88 | the weighted form over the ten most recent matches, in [0, 1.2] for a non-negative decay |
| AdvancedStats.FormIndexOf | football-analysis/src/services/advanced_analytics.py:47-88 | with matches and a positive total weight, the form times the total weight is the weighted score; otherwise the neutral form 0.5 |
| AdvancedStats.WindowSumsBounds | football-analysis/src/services/advanced_analytics.py:85-86 | the total weight is non-negative, and the score is at most 1.2 times the weight |
| AdvancedStats.FormIndexBounds | football-analysis/src/services/advanced_analytics.py:88 | the form index lies in [0, 1.2]; it is not clamped to 1 |
| AdvancedStats.FormNeutralWithoutFinished | football-analysis/src/services/advanced_analytics.py:52-53 | on empty input, or when none of the ten most recent matches is finished, the form is 0.5 |
| AdvancedStats.WindowWeightPositive | football-analysis/src/services/advanced_analytics.py:63-86 | with a positive decay and a finished match in the window, the total weight is positive |
| AdvancedStats.FormZeroOnLosses | football-analysis/src/services/advanced_analytics.py:73-88 | if every finished recent match is a loss and at least one exists, the form is 0 |
| AdvancedStats.Mean | football-analysis/src/services/advanced_analytics.py:99 | a rate that divides by the match count when it is positive, and is 0 otherwise |
| AdvancedStats.AttackingEfficiency | football-analysis/src/services/advanced_analytics.py:91-109 | all zero without finished matches; otherwise the mean goals scored; shots conversion is min(0.3, 0.15·goal rate), in [0, 0.3]; attacking-third entries are 8·goal rate |
| AdvancedStats.DefensiveSolidity | football-analysis/src/services/advanced_analytics.py:112-131 | zeros on empty input, and 20 defensive actions with no finished match; the conceded rate and clean-sheet ratio are means; on non-empty input the actions are max(0, 20 − 5·conceded rate), in [0, 20]; the ratio lies in [0, 1] |
| AdvancedStats.VenuePerformance | football-analysis/src/services/advanced_analytics.py:188-208 | wins, draws, losses, goals for and goals against are the counts and sums over the venue's matches; w + d + l is the number of matches; points per match is the mean of 3w + d, in [0, 3]; all zeros without matches |
| AdvancedStats.AtVenue | football-analysis/src/services/advanced_analytics.py:185-186 | exactly the finished matches at that venue |
| AdvancedStats.HomeAwayPerformance | football-analysis/src/services/advanced_analytics.py:183-213 | the two venue blocks together count every finished match once |
| AdvancedStats.VenueSplit | football-analysis/src/services/advanced_analytics.py:185-186 | the home and away lists partition the finished matches |
| AdvancedStats.Pairings | football-analysis/src/services/advanced_analytics.py:136-141 | exactly the finished matches between the two teams, in either orientation |
| AdvancedStats.PairingTally | football-analysis/src/services/advanced_analytics.py:146-164 | team1 wins + team2 wins + draws equals the number of pairings |
| AdvancedStats.HeadToHeadOf | football-analysis/src/services/advanced_analytics.py:134-180 | the counts are exactly the team1 wins, team2 wins and draws among the pairings of the two teams, and they add up to the total; no pairing gives the neutral zero record; the advantage is team1 (team2) iff that side has strictly more wins |
| AdvancedStats.CalculateHeadToHead | football-analysis/src/services/advanced_analytics.py:134-180 | the counting loop computes the head-to-head record |
| AdvancedStats.PairingsSymmetric | football-analysis/src/services/advanced_analytics.py:138-139 | the pairing filter does not depend on the order of the two ids |
| AdvancedStats.WinsSwap | football-analysis/src/services/advanced_analytics.py:150-164 | exchanging the ids exchanges the two win counts |
| AdvancedStats.HeadToHeadSwap | football-analysis/src/services/advanced_analytics.py:134-180 | exchanging the ids swaps the win counts and flips the advantage between team1 and team2 |
| PredictionEngine.MatchProbability | football-analysis/src/services/advanced_analytics.py:221-269 | draw is exactly 0.25 and the outcomes sum to 1, so the normalisation is the identity; home and away lie in (0, 0.75) |
| PredictionEngine.StrengthDiff | football-analysis/src/services/advanced_analytics.py:229-252 | home Elo + 50 + 100·(home form − away form) − away Elo; +25 (−25) only when the head-to-head record has matches and team1 (team2) holds the advantage; 50 for a team against itself without a head-to-head record |
| PredictionEngine.EmptyHeadToHeadIgnored | football-analysis/src/services/advanced_analytics.py:245 | a head-to-head record with no match changes nothing |
| PredictionEngine.HomeSideFavoured | football-analysis/src/services/advanced_analytics.py:233-234 | for two identical teams the 50-point home advantage makes a home win likelier than an away win |
| PredictionEngine.HomeWinMonotone | football-analysis/src/services/advanced_analytics.py:229-255 | a higher home Elo rating strictly raises the home-win probability |
| PredictionEngine.ValueBetGains | football-analysis/src/services/advanced_analytics.py:284 | a kept bet has expected value p·O − 1 > 0 |
| PredictionEngine.ValueCandidates | football-analysis/src/services/advanced_analytics.py:279-294 | every kept bet is built from an input outcome with p > 1/odds, and every such outcome yields a kept bet |
| PredictionEngine.NoCandidates | football-analysis/src/services/advanced_analytics.py:282 | no outcome above the implied probability gives no value bet |
| PredictionEngine.CollectValueBets | football-analysis/src/services/advanced_analytics.py:276-294 | the append loop computes the candidate list |
| PredictionEngine.FindValueBets | football-analysis/src/services/advanced_analytics.py:271-296 | the candidates sorted by expected value descending; each bet comes from one of the three outcomes with p > 1/odds, and no such outcome is missing |
| PredictionEngine.MakeValueBet | football-analysis/src/services/advanced_analytics.py:283-292 | outcome, probability and odds are copied; the expected value is p·odds − 1; the confidence is that value in percent; recommended iff p·odds > 1.05 |
| PredictionEngine.Recommendation | football-analysis/src/services/advanced_analytics.py:370 | a recommendation iff the list is non-empty and its head is recommended, and then it is the head |
| PredictionEngine.RecommendationExact | football-analysis/src/services/advanced_analytics.py:370 | the recommendation is the head of the list iff some bet is recommended, and it has the largest expected value |
| PredictionEngine.NoValueAtDefaultOdds | football-analysis/src/services/advanced_analytics.py:362 | at odds 1.25 no outcome of the probability model is a value bet: home and away stay below 0.75 and draw is 0.25, all at most 0.8 |
| PredictionEngine.ComprehensiveAnalysis | football-analysis/src/services/advanced_analytics.py:298-371 | the composition of the estimators on the last 20 and last 10 matches of each side, the head-to-head and the probabilities; the value bets are the candidates of those probabilities at 1.25, sorted by EV descending, and the recommendation is taken from them; with a logistic curve the value list is always empty |
| OddsTargetSystem.MakeScenario | football-analysis/src/services/odds_125_system.py:88-96 | a scenario's probability equals its confidence, and its expected value is 1.25·c − 1 |
| OddsTargetSystem.TeamStrengthShape | football-analysis/src/services/odds_125_system.py:179-195 | the home bonus is exactly 50, and strength is monotone in rating, goal rate and win percentage |
| OddsTargetSystem.TeamStrength | football-analysis/src/services/odds_125_system.py:179-195 | an average team (equal goal rates, 50% wins, form 0.5) has its rating plus 50 at home; a team at or above those figures is at least its rating |
| OddsTargetSystem.StrengthDiff | football-analysis/src/services/odds_125_system.py:83-86 | the home strength (with its 50-point home bonus) minus the away strength; 50 between a team and itself |
| OddsTargetSystem.GoalsExpectation | football-analysis/src/services/odds_125_system.py:197-208 | non-negative for non-negative goal rates; zero when neither side scores |
| OddsTargetSystem.BothTeamsScoreProbability | football-analysis/src/services/odds_125_system.py:210-216 | for non-negative goal rates the probability lies in [0, 0.81] |
| OddsTargetSystem.HomeOrDrawProbability | football-analysis/src/services/odds_125_system.py:218-230 | lies in (0.25, 1.25), and exceeds 1 iff the logistic value exceeds 0.75 |
| OddsTargetSystem.DominantHome | football-analysis/src/services/odds_125_system.py:83-96 | proposed iff the strength gap is at least 200, and then always with confidence exactly 0.9 |
| OddsTargetSystem.GoalLine | football-analysis/src/services/odds_125_system.py:99-121 | over 2.5 iff the goal expectation is at least 2.8, with confidence in [0.63, 0.85]; under 2.5 iff it is at most 1.8, with confidence in [0.67, 0.83]; never both |
| OddsTargetSystem.BothTeams | football-analysis/src/services/odds_125_system.py:124-146 | each branch fires iff its threshold holds; any emitted scenario has confidence ≥ 0.82 |
| OddsTargetSystem.BothTeamsScoreNeverProposed | football-analysis/src/services/odds_125_system.py:125-134 | for non-negative goal rates the both-teams-score scenario is never emitted |
| OddsTargetSystem.DoubleChance | football-analysis/src/services/odds_125_system.py:149-159 | proposed iff the home-or-draw probability is at least 0.82 |
| OddsTargetSystem.ExtremeForm | football-analysis/src/services/odds_125_system.py:162-175 | proposed iff home form ≥ 0.8 and away form ≤ 0.3, with confidence always exactly 0.85 |
| OddsTargetSystem.IdentifyScenarios | football-analysis/src/services/odds_125_system.py:76-177 | the five rules' proposals in order, at most five |
| OddsTargetSystem.Propose | football-analysis/src/services/odds_125_system.py:88 | appends a proposal when there is one |
| OddsTargetSystem.BestSoFar | football-analysis/src/services/odds_125_system.py:66-72 | the running maximum is at least every confidence, starts at 0, and belongs to the first scenario that reaches it |
| OddsTargetSystem.SelectBest | football-analysis/src/services/odds_125_system.py:66-74 | None iff every confidence is below 0.82; otherwise the first scenario of maximal confidence |
| OddsTargetSystem.PickBest | football-analysis/src/services/odds_125_system.py:66-74 | the selection loop computes the selection |
| OddsTargetSystem.AnalyzeMatch | football-analysis/src/services/odds_125_system.py:56-74 | the best scenario of a fixture, qualifying and priced at 1.25 |
| OddsTargetSystem.OpportunitiesQualify | football-analysis/src/services/odds_125_system.py:26-49 | every opportunity has confidence ≥ 0.82, both teams known, probability equal to confidence, and EV equal to 1.25·c − 1 |
| OddsTargetSystem.FixtureBestQualifies | football-analysis/src/services/odds_125_system.py:30-38 | a fixture yields a scenario only when both teams are known, and that scenario qualifies |
| OddsTargetSystem.OpportunitiesEmpty | football-analysis/src/services/odds_125_system.py:26-49 | there is no opportunity iff no fixture has a qualifying scenario |
| OddsTargetSystem.ScenarioPriced | football-analysis/src/services/odds_125_system.py:76-177 | every proposed scenario is priced at 1.25 |
| OddsTargetSystem.FindHighConfidenceBets | football-analysis/src/services/odds_125_system.py:18-54 | the opportunities sorted descending by (confidence, EV); all qualify; empty iff no fixture qualifies |
| OddsTargetSystem.CollectOpportunities | football-analysis/src/services/odds_125_system.py:26-49 | the fixture loop computes the opportunity list |
| OddsTargetSystem.AsWrittenNeverReports | football-analysis/src/services/odds_125_system.py:38 | the code as written fails exactly when there is something to report, and otherwise returns [] |
| OddsTargetSystem.AsWrittenFailsOnDominantHome | football-analysis/src/services/odds_125_system.py:38 | a concrete fixture on which the code as written raises |
| BettingStrategy.Qualifying | football-analysis/src/services/odds_125_system.py:246-247 | exactly the bets with confidence ≥ 0.82 |
| BettingStrategy.TopBets | football-analysis/src/services/odds_125_system.py:246-247 | the first min(n, 3) qualifying bets, each an input bet with confidence ≥ 0.82 |
| BettingStrategy.ToRecommendation | football-analysis/src/services/odds_125_system.py:254-267 | ids, bet, risk and factors are copied; confidence in percent; stake is 5% of the bankroll; profit is 0.25 of the stake; expected value scales with the stake |
| BettingStrategy.StakeSumUniform | football-analysis/src/services/odds_125_system.py:269 | equal stakes sum to n times the stake |
| BettingStrategy.AssessPortfolioRisk | football-analysis/src/services/odds_125_system.py:284-297 | 'Sem apostas' iff there are no recommendations; 'Baixo' iff the average confidence is ≥ 85 and the low-risk count is ≥ 0.7·n; 'Alto' iff the average is < 82 |
| BettingStrategy.ConfidentPortfolioNotHighRisk | football-analysis/src/services/odds_125_system.py:294-297 | a portfolio whose every confidence is ≥ 82 is never 'Alto' |
| BettingStrategy.LowRiskPortfolio | football-analysis/src/services/odds_125_system.py:292-293 | all low-risk recommendations at ≥ 85 are rated 'Baixo' |
| BettingStrategy.StakeBets | football-analysis/src/services/odds_125_system.py:253-270 | the staking loop: one recommendation per top bet, with the totals as their sums |
| BettingStrategy.StakedBetsShape | football-analysis/src/services/odds_125_system.py:254-255 | each stake is 5% of the bankroll, its profit 25% of the stake, and its confidence at least 82 |
| BettingStrategy.GenerateDailyRecommendations | football-analysis/src/services/odds_125_system.py:241-282 | at most three recommendations, those of the first qualifying bets; total stake is n·stake; ROI is expected profit over max(1, total stake) as a percentage; risk is the portfolio label and never 'Alto' |
| BettingStrategy.ScannedBetsGain | football-analysis/src/services/odds_125_system.py:256 | with a positive bankroll every staked scanner bet has positive expected value |
| PerformanceTracking.WonCount | football-analysis/src/services/odds_125_system.py:326 | the wins are at most the number of results |
| PerformanceTracking.MetricsOf | football-analysis/src/services/odds_125_system.py:320-343 | an error with 'Sem dados suficientes' iff there are no results; otherwise totals with wins + losses = total |
| PerformanceTracking.WinRateWithin | football-analysis/src/services/odds_125_system.py:327 | the win rate is the win percentage, in [0, 100] |
| PerformanceTracking.ProfitPerOutcome | football-analysis/src/services/odds_125_system.py:330-331 | profit/loss is 125·wins − 100·total, that is 25 per win and −100 per loss |
| PerformanceTracking.BreakEven | football-analysis/src/services/odds_125_system.py:332 | ROI ≥ 0 iff at least 80% of the results are wins |
| PerformanceTracking.AverageConfidenceOf | football-analysis/src/services/odds_125_system.py:345-351 | 0 without predictions; otherwise the mean confidence, as a percentage |
| PerformanceTracking.AverageConfidenceWithin | football-analysis/src/services/odds_125_system.py:350-351 | confidences in [0, 1] give an average in [0, 100] |
| PerformanceTracking.BetTypeItems | football-analysis/src/services/odds_125_system.py:357-358 | one key per prediction, with 'unknown' when the bet type is absent |
| PerformanceTracking.SimulatedWinsExact | football-analysis/src/services/odds_125_system.py:365 | the truncated 80% is at most 4/5 of the total, with equality iff the total is a multiple of 5 |
| PerformanceTracking.SuccessRateCeiling | football-analysis/src/services/odds_125_system.py:365-371 | each type's simulated rate is at most 0.8, with equality iff its count is a multiple of 5 |
| PerformanceTracking.BestBetTypeOf | football-analysis/src/services/odds_125_system.py:353-373 | 'N/A' without predictions; otherwise one of the bet types |
| PerformanceTracking.BestBetTypeIsFirstMaximal | football-analysis/src/services/odds_125_system.py:370-371 | the chosen type has the largest simulated rate, and every type before it a smaller one |
| PerformanceTracking.BestBetTypeReachesCeiling | football-analysis/src/services/odds_125_system.py:365-371 | if some type's count is a multiple of 5, the chosen type's rate is exactly 0.8 |
| PerformanceTracking.SimulateWins | football-analysis/src/services/odds_125_system.py:364-365 | the second loop: each type's simulated wins |
| PerformanceTracking.PerformanceTracker.constructor | football-analysis/src/services/odds_125_system.py:302-304 | both histories start empty |
| PerformanceTracking.PerformanceTracker.AddPrediction | football-analysis/src/services/odds_125_system.py:306-309 | appends exactly the timestamped prediction; the results are unchanged |
| PerformanceTracking.PerformanceTracker.AddResult | football-analysis/src/services/odds_125_system.py:311-318 | appends exactly one result entry; the predictions are unchanged |
| PerformanceTracking.PerformanceTracker.FindBestBetType | football-analysis/src/services/odds_125_system.py:353-373 | the two loops and the max compute the best bet type of the history |
| PerformanceTracking.PerformanceTracker.CalculatePerformanceMetrics | football-analysis/src/services/odds_125_system.py:320-343 | the metrics of the two histories, an error iff there are no results |
| StatsCalculator.Counted | football-analysis/src/services/football_api.py:144-151 | exactly the team-perspective records of the input matches that are counted, and at most as many as the input |
| StatsCalculator.CountMatch | football-analysis/src/services/football_api.py:144-170 | a skipped match leaves the counters unchanged; a counted one adds its result and its goals from the team's side |
| StatsCalculator.TallyStep | football-analysis/src/services/football_api.py:153-170 | the counters of a list extended by one match are the old counters plus that match |
| StatsCalculator.CountMatches | football-analysis/src/services/football_api.py:143-170 | the loop computes the counters of the finished matches involving the team |
| StatsCalculator.CalculateTeamStats | football-analysis/src/services/football_api.py:129-178 | w + d + l = played; all rates 0 without matches; otherwise goal rates are means and the win percentage lies in [0, 100] |
| StatsCalculator.PlayedPartition | football-analysis/src/services/football_api.py:153-170 | wins + draws + losses equals the matches played |
| StatsCalculator.WinPercentageWithin | football-analysis/src/services/football_api.py:172-176 | the win percentage lies in [0, 100] and is the share of wins |
| StatsCalculator.IgnoredMatch | football-analysis/src/services/football_api.py:144-151 | an unfinished match, or one not involving the team, changes nothing |
| StatsCalculator.HomeMatchGoals | football-analysis/src/services/football_api.py:155-163 | a finished home match adds its home score to goals for and its away score to goals against |
| StatsCalculator.AwayMatchGoals | football-analysis/src/services/football_api.py:158-163 | a finished away match adds the away score to goals for and the home score to goals against |
| OddsRoutes.ExpectedValueAt | football-analysis/src/routes/odds_125.py:191-192 | expected value is stake·(1.25·p − 1) |
| OddsRoutes.ClampedProbability | football-analysis/src/routes/odds_125.py:204 | the decimal probability is clamped to [0.01, 0.99] and is exact inside it |
| OddsRoutes.ScenarioRoi | football-analysis/src/routes/odds_125.py:205-209 | a scenario's ROI is 125·p − 100, in [−98.75, 23.75] |
| OddsRoutes.KellyPercentage | football-analysis/src/routes/odds_125.py:196 | the Kelly percentage is clamped to [0, 25] and is exact inside it |
| OddsRoutes.BetCalculation | football-analysis/src/routes/odds_125.py:177-241 | the division error iff the stake is 0; profit 0.25·stake, return 1.25·stake, the EV formula, ROI 1.25·c − 100, the margin \|c − 80\|, Kelly in [0, 25], and the three scenarios at c − 5, c and c + 5 |
| OddsRoutes.CalculationAt | football-analysis/src/routes/odds_125.py:185-235 | for a non-zero stake: profit 0.25·stake, return 1.25·stake, the EV formula, ROI 1.25·c − 100, the margin \|c − 80\|, Kelly in [0, 25], and each scenario j the simulation at the j-th of c − 5, c, c + 5 |
| OddsRoutes.SimulateScenarios | football-analysis/src/routes/odds_125.py:202-210 | the scenario loop: three scenarios at c − 5, c and c + 5 |
| OddsRoutes.BetCalculator | football-analysis/src/routes/odds_125.py:177-241 | the handler computes the calculation |
| OddsRoutes.KellyShape | football-analysis/src/routes/odds_125.py:195-196 | Kelly is 5·c − 400 percent, positive iff c > 80; 'Conservador' iff c ≤ 81 and 'Agressivo' iff c > 83 |
| OddsRoutes.ShouldBetAboveBreakEven | football-analysis/src/routes/odds_125.py:237 | for a positive stake, should_bet iff confidence > 80 |
| OddsRoutes.NegativeStakeNeverAdvised | football-analysis/src/routes/odds_125.py:237 | a negative stake is never advised |
| OddsRoutes.CalculatorTiers | football-analysis/src/routes/odds_125.py:199-224 | 'Baixo' iff c ≥ 85 and 'Alto' iff c < 80; the scenarios are at c − 5, c and c + 5; break-even is 80 |
| OddsRoutes.OutcomesPartition | football-analysis/src/routes/odds_125.py:333-335 | home wins + draws + away wins equals the number of matches |
| OddsRoutes.Percentage | football-analysis/src/routes/odds_125.py:341 | a share as a percentage, in [0, 100] |
| OddsRoutes.HomeAdvantagePattern | football-analysis/src/routes/odds_125.py:350-357 | emitted iff the home share is ≥ 45, and 'Alta' iff it is ≥ 50 |
| OddsRoutes.HighScoringPattern | football-analysis/src/routes/odds_125.py:360-366 | emitted iff over-2.5 is ≥ 60, and 'Alta' iff it is ≥ 70 |
| OddsRoutes.BothScorePattern | football-analysis/src/routes/odds_125.py:369-375 | emitted iff BTTS is ≥ 55, and 'Alta' iff it is ≥ 65 |
| OddsRoutes.FewDrawsPattern | football-analysis/src/routes/odds_125.py:378-385 | emitted iff draws are ≤ 20, always 'Média' |
| OddsRoutes.IdentifyPatterns | football-analysis/src/routes/odds_125.py:347-385 | the pattern list, of at most four |
| OddsRoutes.BestMarketsExact | football-analysis/src/routes/odds_125.py:403-406 | the best markets are exactly the opportunities of the 'Alta' patterns |
| OddsRoutes.AltaPositions | football-analysis/src/routes/odds_125.py:403-406 | the increasing list of all and only the positions of the patterns of confidence 'Alta' |
| OddsRoutes.BestMarketsInOrder | football-analysis/src/routes/odds_125.py:403-406 | the best markets are, in order and with multiplicity, the opportunities at the 'Alta' positions |
| OddsRoutes.Efficiency | football-analysis/src/routes/odds_125.py:407 | 'Baixa' iff there are ≥ 3 patterns, 'Média' iff 2, 'Alta' iff fewer |
| OddsRoutes.MarketAnalysisOf | football-analysis/src/routes/odds_125.py:319-410 | the error iff there are no matches |
| OddsRoutes.MarketAnalysis | football-analysis/src/routes/odds_125.py:319-410 | the handler computes the report |
| OddsRoutes.MarketCounts | football-analysis/src/routes/odds_125.py:332-344 | the outcome counts add up to the total, and every percentage is in [0, 100] |
| OddsRoutes.FavourableVerdict | football-analysis/src/routes/odds_125.py:407-408 | 'favourable' iff the efficiency is not 'Alta' |
| OddsRoutes.PatternFacts | football-analysis/src/routes/odds_125.py:347-385 | at most four patterns; 'Poucos empates' is always 'Média' |
| OddsRoutes.PredictionItems | football-analysis/src/routes/odds_125.py:279-284 | one (result, confidence) item per prediction |
| OddsRoutes.OverallOf | football-analysis/src/routes/odds_125.py:268-300 | the total and wins + losses = total |
| OddsRoutes.SimulatedRoiNegative | football-analysis/src/routes/odds_125.py:269-275 | with simulated 78% wins the ROI and the profit are always negative |
| OddsRoutes.AverageTypes | football-analysis/src/routes/odds_125.py:287-289 | the averaging loop: each type's average is its mean confidence |
| OddsRoutes.FocusOf | football-analysis/src/routes/odds_125.py:311 | the first result of largest count |
| OddsRoutes.PerformanceTracking | football-analysis/src/routes/odds_125.py:247-313 | no report iff there are no predictions; otherwise the overall metrics, the per-type counts and means, the trend and advice flags, and the focus |
| OddsRoutes.TypeCountsCover | football-analysis/src/routes/odds_125.py:278-284 | the per-type counts add up to the number of predictions |
| OddsRoutes.TrackingAlwaysAdvisesAdjusting | football-analysis/src/routes/odds_125.py:303-311 | the report never shows an improvement, never advises continuing, and always advises adjusting the stake |
| AdvancedRoutes.FairOdds | football-analysis/src/routes/advanced.py:202-206 | fair odds are 1/p for p > 0, else 0 |
| AdvancedRoutes.ValueEntryOf | football-analysis/src/routes/advanced.py:214-225 | outcome, p·100, the fair odds and the target copied; EV% = (p·T − 1)·100; has_value iff p·T > 1; Kelly·(T − 1) = EV%; the grade is Alta above an EV of 0.1, Média in (0.05, 0.1] and Baixa at or below 0.05 |
| AdvancedRoutes.ValueScan | football-analysis/src/routes/advanced.py:211-225 | at most three entries; it fails only with target 1 |
| AdvancedRoutes.ValueScanExact | football-analysis/src/routes/advanced.py:212-213 | exactly the outcomes with p > 1/T have an entry |
| AdvancedRoutes.ValueScanFailsAtOne | football-analysis/src/routes/advanced.py:212-215 | with target odds 1 the scan fails iff some probability exceeds 1, the point where the Kelly division by target − 1 is reached |
| AdvancedRoutes.ValueScanHasValue | football-analysis/src/routes/advanced.py:223 | for T > 0 every entry has value and a positive EV |
| AdvancedRoutes.EntryGains | football-analysis/src/routes/advanced.py:213-223 | for positive target odds other than 1, an outcome with p > 1/T gives an entry with has_value and a positive EV% |
| AdvancedRoutes.BestBetOf | football-analysis/src/routes/advanced.py:228-236 | a best bet only if the largest EV% is > 5; it is built from the first entry of largest EV with stake min(10, Kelly); none if every EV% is ≤ 5 |
| AdvancedRoutes.RiskBuckets | football-analysis/src/routes/advanced.py:247-251 | the buckets are disjoint, and together hold all entries when every EV is positive |
| AdvancedRoutes.OddsCalculation | football-analysis/src/routes/advanced.py:182-257 | the 400 error iff the sum differs from 100 by more than 1; after a valid sum, the division error iff the target is 0, or the target is 1 and some decimal probability exceeds 1 |
| AdvancedRoutes.ScanOutcomes | football-analysis/src/routes/advanced.py:211-225 | the value loop computes the value scan |
| AdvancedRoutes.OddsCalculator | football-analysis/src/routes/advanced.py:182-257 | the handler computes the calculation |
| AdvancedRoutes.ValidRequestAnswered | football-analysis/src/routes/advanced.py:209-215 | a valid request with target other than 0 and 1 is always answered |
| AdvancedRoutes.TeamsOf | football-analysis/src/routes/advanced.py:274-277 | the teams are exactly the ids on either side of some match |
| AdvancedRoutes.RowOf | football-analysis/src/routes/advanced.py:286-309 | the row carries the team's id and name and its league counts of wins, draws and losses; points = 3w + d; played = w + d + l > 0; ppm is points per match, in [0, 3]; win% is the share of wins, in [0, 100] |
| AdvancedRoutes.Rows | football-analysis/src/routes/advanced.py:279-309 | no more rows than enumerated teams |
| AdvancedRoutes.RowsExact | football-analysis/src/routes/advanced.py:280-300 | a team has a row iff it is known by name and played a finished match |
| AdvancedRoutes.RowIdsFrom | football-analysis/src/routes/advanced.py:279-300 | every row's team is one of the enumerated teams |
| AdvancedRoutes.RowsDistinct | football-analysis/src/routes/advanced.py:279-300 | an enumeration without repeats, such as the iteration of the team set, gives at most one row per team |
| AdvancedRoutes.LeagueAnalysisOf | football-analysis/src/routes/advanced.py:266-267 | the error iff there are no matches |
| AdvancedRoutes.CollectRows | football-analysis/src/routes/advanced.py:279-309 | the team loop computes the rows |
| AdvancedRoutes.LeagueAnalysis | football-analysis/src/routes/advanced.py:260-330 | the handler computes the report; teams_count is the number of distinct teams |
| AdvancedRoutes.LeagueTableFacts | football-analysis/src/routes/advanced.py:311-322 | the table is the first min(n, 10) rows of the points-descending sort; no row left out has more points than a row kept; the table is sorted |
| AdvancedRoutes.SortedRows | football-analysis/src/routes/advanced.py:312 | the sorted rows are sorted by points descending and are rows of teams that played, with points = 3w + d and ppm in [0, 3] |
| AdvancedRoutes.TableCut | football-analysis/src/routes/advanced.py:312-322 | in a points-descending list, every row of the first ten has at least the points of every later row |
| AdvancedRoutes.LeagueTableRows | football-analysis/src/routes/advanced.py:296-327 | every table row is a row of a team that played, with points = 3w + d and an average ppm in [0, 3] |
| AdvancedRoutes.PerMatch | football-analysis/src/routes/advanced.py:319 | the total divided by max(1, n): the mean for n > 0, the total itself for n = 0 |
| AdvancedRoutes.TopTeam | football-analysis/src/routes/advanced.py:324-325 | 'N/A' for no rows; otherwise the name of the first row of largest key, as Python's max returns |
| AdvancedRoutes.AveragePpm | football-analysis/src/routes/advanced.py:326 | 0 for no rows; otherwise the mean of the rows' ppm, in [0, 3] when every ppm is |
| AdvancedRoutes.PpmSumWithin | football-analysis/src/routes/advanced.py:326 | rows whose ppm lie in [0, 3] have a ppm sum in [0, 3n] |
| AdvancedRoutes.NoFinishedNoGoals | football-analysis/src/routes/advanced.py:269-270 | without a finished match the goal total is 0 |
| AdvancedRoutes.ReportOf | football-analysis/src/routes/advanced.py:269-328 | totals and team count as given; goals per match is the mean over finished matches, else 0; the table is the first up-to-ten sorted rows; the top-points and most-consistent teams are first maxima, or 'N/A'; average ppm in [0, 3] |
| AdvancedRoutes.HighestScoringIsTop | football-analysis/src/routes/advanced.py:324 | the highest-scoring team is the table's first row |
| AdvancedRoutes.TrendOf | football-analysis/src/routes/advanced.py:128 | 'Estável' iff the two forms are equal |
| AdvancedRoutes.DeepTrend | football-analysis/src/routes/advanced.py:123-128 | 'Melhorando' iff the form of the first five matches beats that of the next five (positions 5 to 9), 'Piorando' iff it is lower, 'Estável' iff equal |
| AdvancedRoutes.TrendAntisymmetric | football-analysis/src/routes/advanced.py:128 | exchanging the windows swaps 'Melhorando' and 'Piorando' and keeps 'Estável' |
| AdvancedRoutes.IdleWindowsStable | football-analysis/src/routes/advanced.py:124-128 | a team without finished matches is 'Estável' |
| AdvancedRoutes.VenueRatesOf | football-analysis/src/routes/advanced.py:152-162 | matches = w + d + l; points per match copied from the venue block; win rate in [0, 100]; win rate 0 and goals divided by max(1, n) with no matches, else the share of wins and the goal mean |
| AdvancedRoutes.VenueRatesCover | football-analysis/src/routes/advanced.py:152-162 | the home and away match counts add up to the finished matches |
| FootballRoutes.Strength | football-analysis/src/routes/football.py:230-231 | twice the strength is win% + 10·goals per match |
| FootballRoutes.Decide | football-analysis/src/routes/football.py:236-245 | 'home' iff home > away + 10, 'away' iff away > home + 10, else 'draw'; decided confidence in (65, 85]; draw confidence 50 |
| FootballRoutes.PredictOdds | football-analysis/src/routes/football.py:220-245 | 404 iff a team is missing; 400 iff stats are missing; otherwise the decision with +5 for home |
| FootballRoutes.DecideSymmetric | football-analysis/src/routes/football.py:237-245 | swapping strengths swaps home and away and keeps the confidence |
| FootballRoutes.EqualTeamsDraw | football-analysis/src/routes/football.py:233-245 | identical statistics always predict a draw at 50 |
| FootballRoutes.StrengthOfComputedStats | football-analysis/src/routes/football.py:230-231 | for computed statistics, strength is in [0, 50 + 5·goals per match] |
| FootballRoutes.HomeAdvantageShiftsThresholds | football-analysis/src/routes/football.py:233-242 | home needs a lead of > 5 on the statistics, away one of > 15 |

## Left out

- I/O, the database, Flask routing, `request.get_json` and `jsonify` are not modelled. Each handler starts from the values its queries return. The result types carry the handlers' error answers and their messages.
- `round(...)` is not modelled; all values are exact.
- Floating-point arithmetic is exact `real` arithmetic.
- `datetime.now()` becomes the `now` parameter of `PerformanceTracker.AddPrediction` and `AddResult`.
- The 30-day and 200-match query limits are left out.
- `10**` and `math.exp` are function parameters.
- The team-snapshot builders of the 1.25-odds handlers are not modelled (odds_125.py:61-68, 156-163). Their output is the `TeamSnapshot` input.
- `.get(key, default)` on team snapshots and on match dictionaries is not modelled: every field is present. The defaults apply to predictions, through `Option`.
- PerformanceTracking.PerformanceTracker.AddPrediction: does not model `add_prediction` writing the timestamp into the caller's dictionary. The history stores its own copy.
- AdvancedRoutes.LeagueAnalysis: the in-place `list.sort` is modelled on a sequence, and the order in which the team set is iterated is a parameter.
- Sorting.SortBySorted: stability is not proved. The sort is stable, but only sortedness and permutation are stated.
- AdvancedRoutes.BestBetOf: compares exact expected values; the source compares values rounded to 2 decimals.
- AdvancedRoutes.RiskBuckets: also compares exact values, not the rounded ones.
- PerformanceTracking.BetTypeItems: an absent bet type and an explicit `None` are not distinguished.
- OddsRoutes.OverallOf: states only the totals. The simulated win count `int(n·0.78)` is modelled but shown only through `SimulatedRoiNegative`.
- The other handlers (`find_125_opportunities`, `daily_recommendations`, `analyze_match`, data sync, the team-statistics route) are not modelled.
- The other parts of `team_deep_analysis` (Elo, form and attacking metrics) reuse `AdvancedStats` and are not repeated.
- The generic `except` answer 500 is modelled only for the divisions the model can show: a zero stake in the bet calculator, and target odds 0 or 1 in the probability calculator.
- Saving the prediction in `predict_odds` is left out.

## Findings

| source | as written | input that shows it | evidently intended | confidence | as-written member | corrected member |
|---|---|---|---|---|---|---|
| football-analysis/src/services/odds_125_system.py:38 | reads `analysis['max_confidence']`, a key the best-scenario dictionary does not have, so the first qualifying fixture raises a KeyError | home (elo 1500, 2.0 scored, 0.5 conceded, 70%, form 0.8) against away (1500, 0.8, 1.5, 30%, 0.2): the strength gap is 300, so the dominant-home scenario 0.9 qualifies | take the scenario's `confidence`, and return the qualifying fixtures sorted by (confidence, EV) | not executed | OddsTargetSystem.AsWrittenFailsOnDominantHome | OddsTargetSystem.FindHighConfidenceBets |
