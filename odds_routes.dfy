/**
 * The rule bodies of the 1.25-odds HTTP handlers, after their database
 * query: the bet calculator, the market-pattern analysis of recent finished
 * matches, and the performance summary of recent predictions.
 */
module OddsRoutes {
  import opened Wrappers
  import opened Sorting
  import opened Records
  import opened Grouping

  const Odds: real := 1.25
  const DefaultStake: real := 100.0
  const DefaultConfidence: real := 80.0

  /** Python's message for `x / 0.0`. */
  const DivisionByZero: string := "float division by zero"

  // =====================================================================
  // bet_calculator
  // =====================================================================

  /** The request body; absent keys take the defaults 100 and 80. */
  datatype BetRequest = BetRequest(stake: Option<real>, confidence: Option<real>)

  function StakeOf(req: BetRequest): real
  {
    if req.stake.Some? then req.stake.value else DefaultStake
  }

  function ConfidenceOf(req: BetRequest): real
  {
    if req.confidence.Some? then req.confidence.value else DefaultConfidence
  }

  datatype KellyReading = Conservador | Moderado | Agressivo

  /** One row of the scenario simulation. */
  datatype BetScenario = BetScenario(probability: real, expectedValue: real, roi: real)

  datatype Calculation = Calculation(
    potentialProfit: real, potentialReturn: real, expectedValue: real, roi: real,
    breakEvenProbability: real,
    kellyFraction: real, kellyPercentage: real, interpretation: KellyReading,
    riskLevel: Risk, confidenceMargin: real, scenarios: seq<BetScenario>,
    shouldBet: bool, maxRecommendedStake: real)

  /** The expected value of a stake at 1.25 won with probability `p` (a fraction). */
  function ExpectedValueAt(stake: real, p: real): (ev: real)
    ensures ev == stake * (Odds * p - 1.0)
  {
    var profit := stake * (Odds - 1.0);
    ExpectedValueIdentity(stake, p);
    p * profit - (1.0 - p) * stake
  }

  lemma ExpectedValueIdentity(stake: real, p: real)
    ensures p * (stake * (Odds - 1.0)) - (1.0 - p) * stake == stake * (Odds * p - 1.0)
  {
    calc {
      p * (stake * 0.25) - (1.0 - p) * stake;
      == stake * (p * 0.25) - stake * (1.0 - p);
      == stake * (p * 0.25 - (1.0 - p));
      == stake * (1.25 * p - 1.0);
    }
  }

  /** `max(0.01, min(0.99, prob / 100))`. */
  function ClampedProbability(prob: real): (p: real)
    ensures 0.01 <= p <= 0.99
    ensures 1.0 <= prob <= 99.0 ==> p == prob / 100.0
  {
    Max(0.01, Min(0.99, prob / 100.0))
  }

  /** One simulated scenario; it divides by the stake. */
  function ScenarioAt(stake: real, prob: real): BetScenario
    requires stake != 0.0
  {
    var ev := ExpectedValueAt(stake, ClampedProbability(prob));
    BetScenario(prob, ev, ev / stake * 100.0)
  }

  /** The ROI of a scenario does not depend on the stake: it is 125 p - 100 for the clamped p. */
  lemma ScenarioRoi(stake: real, prob: real)
    requires stake != 0.0
    ensures ScenarioAt(stake, prob).roi == 125.0 * ClampedProbability(prob) - 100.0
    ensures -98.75 <= ScenarioAt(stake, prob).roi <= 23.75
  {
    var p := ClampedProbability(prob);
    var gain := Odds * p - 1.0;
    var ev := ExpectedValueAt(stake, p);
    assert ev == stake * gain;
    DivCancel(stake, gain);
    assert ev / stake == gain;
    assert ScenarioAt(stake, prob) == BetScenario(prob, ev, ev / stake * 100.0);
  }

  lemma DivCancel(s: real, a: real)
    requires s != 0.0
    ensures (s * a) / s == a
  {
    var q := (s * a) / s;
    assert q * s == s * a;
    assert s * (q - a) == 0.0;
  }

  /** `kelly_fraction * 100` clamped to [0, 25]. */
  function KellyPercentage(kellyFraction: real): (k: real)
    ensures 0.0 <= k <= 25.0
    ensures kellyFraction * 100.0 <= 0.0 ==> k == 0.0
    ensures 0.0 <= kellyFraction * 100.0 <= 25.0 ==> k == kellyFraction * 100.0
    ensures kellyFraction * 100.0 >= 25.0 ==> k == 25.0
  {
    Max(0.0, Min(25.0, kellyFraction * 100.0))
  }

  function Interpret(kellyPercentage: real): KellyReading
  {
    if kellyPercentage <= 5.0 then Conservador
    else if kellyPercentage <= 15.0 then Moderado
    else Agressivo
  }

  /** The risk tier of a confidence given in percent. */
  function ConfidenceRisk(confidence: real): Risk
  {
    if confidence >= 85.0 then Baixo else if confidence >= 80.0 then Medio else Alto
  }

  /** The three confidences the simulation tries: five points either side. */
  function ScenarioProbabilities(confidence: real): seq<real>
  {
    [confidence - 5.0, confidence, confidence + 5.0]
  }

  /** `bet_calculator`: every figure, or the division error of a zero stake. */
  function BetCalculation(req: BetRequest): (r: Result<Calculation, string>)
    ensures r.Err? <==> StakeOf(req) == 0.0
    ensures r.Err? ==> r.error == DivisionByZero
    ensures r.Ok? ==>
      var c := r.value; var stake := StakeOf(req); var conf := ConfidenceOf(req);
      && c.potentialProfit == 0.25 * stake
      && c.potentialReturn == Odds * stake
      && c.expectedValue == stake * (Odds * conf / 100.0 - 1.0)
      && 0.0 <= c.kellyPercentage <= 25.0
      && |c.scenarios| == 3
    ensures r.Ok? ==>
      var c := r.value; var stake := StakeOf(req); var conf := ConfidenceOf(req);
      && c.roi == 1.25 * conf - 100.0
      && c.confidenceMargin == (if conf >= 80.0 then conf - 80.0 else 80.0 - conf)
      && forall j :: 0 <= j < 3 ==> c.scenarios[j] == ScenarioAt(stake, ScenarioProbabilities(conf)[j])
  {
    var stake, conf := StakeOf(req), ConfidenceOf(req);
    if stake == 0.0 then Err(DivisionByZero)
    else Ok(CalculationAt(stake, conf))
  }

  /** The figures of `bet_calculator` for a non-zero stake and a confidence in percent. */
  function CalculationAt(stake: real, conf: real): (c: Calculation)
    requires stake != 0.0
    ensures c.potentialProfit == 0.25 * stake
    ensures c.potentialReturn == Odds * stake
    ensures c.expectedValue == stake * (Odds * conf / 100.0 - 1.0)
    ensures 0.0 <= c.kellyPercentage <= 25.0
    ensures |c.scenarios| == 3
    ensures c.roi == 1.25 * conf - 100.0
    ensures c.confidenceMargin == (if conf >= 80.0 then conf - 80.0 else 80.0 - conf)
    ensures forall j :: 0 <= j < 3 ==> c.scenarios[j] == ScenarioAt(stake, ScenarioProbabilities(conf)[j])
  {
    var potentialProfit := stake * (Odds - 1.0);
    var potentialReturn := stake * Odds;
    var expectedValue := ExpectedValueAt(stake, conf / 100.0);
    assert expectedValue / stake * 100.0 == 1.25 * conf - 100.0 by {
      var gain := Odds * (conf / 100.0) - 1.0;
      assert expectedValue == stake * gain;
      DivCancel(stake, gain);
      assert expectedValue / stake == gain;
    }
    var kellyFraction := ((conf / 100.0) * Odds - 1.0) / (Odds - 1.0);
    var kellyPercentage := KellyPercentage(kellyFraction);
    var probs := ScenarioProbabilities(conf);
    var scenarios := seq(3, j requires 0 <= j < 3 => ScenarioAt(stake, probs[j]));
    Calculation(
      potentialProfit, potentialReturn, expectedValue, expectedValue / stake * 100.0,
      (1.0 / Odds) * 100.0,
      kellyFraction, kellyPercentage, Interpret(kellyPercentage),
      ConfidenceRisk(conf), if conf >= 80.0 then conf - 80.0 else 80.0 - conf, scenarios,
      expectedValue > 0.0 && conf >= 80.0,
      if kellyPercentage > 0.0 then stake * kellyPercentage / 100.0 else 0.0)
  }

  /** The scenario loop of `bet_calculator`. */
  method SimulateScenarios(stake: real, confidence: real) returns (scenarios: seq<BetScenario>)
    requires stake != 0.0
    ensures |scenarios| == 3
    ensures forall j :: 0 <= j < 3 ==> scenarios[j] == ScenarioAt(stake, ScenarioProbabilities(confidence)[j])
  {
    var probs := ScenarioProbabilities(confidence);
    scenarios := [];
    for j := 0 to 3
      invariant |scenarios| == j
      invariant forall i :: 0 <= i < j ==> scenarios[i] == ScenarioAt(stake, probs[i])
    {
      var probDecimal := Max(0.01, Min(0.99, probs[j] / 100.0));
      var scenarioEv := (probDecimal * (stake * (Odds - 1.0))) - ((1.0 - probDecimal) * stake);
      ExpectedValueIdentity(stake, probDecimal);
      scenarios := scenarios + [BetScenario(probs[j], scenarioEv, scenarioEv / stake * 100.0)];
    }
  }

  method BetCalculator(req: BetRequest) returns (r: Result<Calculation, string>)
    ensures r == BetCalculation(req)
  {
    var stake, conf := StakeOf(req), ConfidenceOf(req);
    if stake == 0.0 {
      return Err(DivisionByZero);
    }
    var scenarios := SimulateScenarios(stake, conf);
    var spec := BetCalculation(req);
    assert scenarios == spec.value.scenarios;
    r := Ok(spec.value.(scenarios := scenarios));
  }

  /** The Kelly percentage is `5 c - 400` clamped to [0, 25]: positive exactly above the 80% break-even. */
  lemma KellyShape(req: BetRequest)
    requires StakeOf(req) != 0.0
    ensures var c := BetCalculation(req).value; var conf := ConfidenceOf(req);
      && c.kellyFraction * 100.0 == 5.0 * conf - 400.0
      && (c.kellyPercentage > 0.0 <==> conf > 80.0)
      && (c.interpretation == Conservador <==> conf <= 81.0)
      && (c.interpretation == Agressivo <==> conf > 83.0)
      && (c.maxRecommendedStake == StakeOf(req) * c.kellyPercentage / 100.0)
  {
  }

  /** With a positive stake the calculator advises the bet exactly above the break-even 80%. */
  lemma ShouldBetAboveBreakEven(req: BetRequest)
    requires StakeOf(req) > 0.0
    ensures BetCalculation(req).value.shouldBet <==> ConfidenceOf(req) > 80.0
  {
    var stake, conf := StakeOf(req), ConfidenceOf(req);
    var ev := stake * (Odds * conf / 100.0 - 1.0);
    assert ev > 0.0 <==> Odds * conf / 100.0 - 1.0 > 0.0 by {
      var g := Odds * conf / 100.0 - 1.0;
      if g > 0.0 { assert stake * g > 0.0; }
      if g <= 0.0 { assert stake * g <= 0.0; }
    }
  }

  /** A negative stake is never advised. */
  lemma NegativeStakeNeverAdvised(req: BetRequest)
    requires StakeOf(req) < 0.0
    ensures !BetCalculation(req).value.shouldBet
  {
    var stake, conf := StakeOf(req), ConfidenceOf(req);
    var g := Odds * conf / 100.0 - 1.0;
    if conf >= 80.0 {
      assert g >= 0.0;
      assert stake * g <= 0.0;
    }
  }

  /** The risk tiers follow the 85 and 80 thresholds, and the scenarios sit 5 points either side. */
  lemma CalculatorTiers(req: BetRequest)
    requires StakeOf(req) != 0.0
    ensures var c := BetCalculation(req).value; var conf := ConfidenceOf(req);
      && (c.riskLevel == Baixo <==> conf >= 85.0)
      && (c.riskLevel == Alto <==> conf < 80.0)
      && c.scenarios[0].probability == conf - 5.0
      && c.scenarios[1].probability == conf
      && c.scenarios[2].probability == conf + 5.0
      && c.breakEvenProbability == 80.0
  {
  }

  // =====================================================================
  // market_analysis
  // =====================================================================

  /** The final score of one recent finished match. */
  datatype Score = Score(home: nat, away: nat)

  const InsufficientData: string := "Dados insuficientes para análise"

  function HomeWins(ms: seq<Score>): nat
  {
    if ms == [] then 0 else HomeWins(ms[..|ms| - 1]) + (if ms[|ms| - 1].home > ms[|ms| - 1].away then 1 else 0)
  }

  function DrawCount(ms: seq<Score>): nat
  {
    if ms == [] then 0 else DrawCount(ms[..|ms| - 1]) + (if ms[|ms| - 1].home == ms[|ms| - 1].away then 1 else 0)
  }

  function AwayWins(ms: seq<Score>): nat
  {
    if ms == [] then 0 else AwayWins(ms[..|ms| - 1]) + (if ms[|ms| - 1].home < ms[|ms| - 1].away then 1 else 0)
  }

  function TotalGoals(ms: seq<Score>): nat
  {
    if ms == [] then 0 else TotalGoals(ms[..|ms| - 1]) + ms[|ms| - 1].home + ms[|ms| - 1].away
  }

  /** Matches with more than 2.5 goals, that is at least three. */
  function Over25Count(ms: seq<Score>): (n: nat)
    ensures n <= |ms|
  {
    if ms == [] then 0 else Over25Count(ms[..|ms| - 1]) + (if ms[|ms| - 1].home + ms[|ms| - 1].away >= 3 then 1 else 0)
  }

  function BothScored(ms: seq<Score>): (n: nat)
    ensures n <= |ms|
  {
    if ms == [] then 0 else BothScored(ms[..|ms| - 1]) + (if ms[|ms| - 1].home > 0 && ms[|ms| - 1].away > 0 then 1 else 0)
  }

  /** Home wins, draws and away wins share out the sample. */
  lemma {:induction false} OutcomesPartition(ms: seq<Score>)
    ensures HomeWins(ms) + DrawCount(ms) + AwayWins(ms) == |ms|
  {
    if ms != [] {
      OutcomesPartition(ms[..|ms| - 1]);
    }
  }

  /** `(count / total) * 100`. */
  function Percentage(count: nat, total: nat): (p: real)
    requires total > 0
    ensures count <= total ==> 0.0 <= p <= 100.0
    ensures IsPercentOf(p, count as real, total as real)
  {
    PercentOfRatio(count as real, total as real);
    ShareWithin(count, total);
    (count as real) / (total as real) * 100.0
  }

  lemma ShareWithin(count: nat, total: nat)
    requires total > 0
    ensures count <= total ==> 0.0 <= (count as real) / (total as real) * 100.0 <= 100.0
  {
    if count <= total {
      PercentWithin(count as real, total as real);
    }
  }

  datatype MarketPattern = MarketPattern(pattern: string, percentage: real, opportunity: string, confidence: Grade)

  datatype MarketStatistics = MarketStatistics(
    homeWins: nat, draws: nat, awayWins: nat,
    homeWinPercentage: real, drawPercentage: real, awayWinPercentage: real,
    averageGoalsPerMatch: real, over25Percentage: real, bttsPercentage: real)

  datatype MarketReport = MarketReport(
    sampleSize: nat, statistics: MarketStatistics, patterns: seq<MarketPattern>,
    bestMarkets: seq<string>, efficiency: Grade, favourable: bool)

  /** Pattern 1: home wins in at least 45% of the matches; 'Alta' from 50%. */
  function HomeAdvantagePattern(homePct: real): (r: Option<MarketPattern>)
    ensures r.Some? <==> homePct >= 45.0
    ensures r.Some? ==> (r.value.confidence == Alta <==> homePct >= 50.0) && r.value.confidence != Baixa
  {
    if homePct >= 45.0 then
      Some(MarketPattern("Forte vantagem de casa", homePct,
                         "Apostas em vitória da casa ou dupla hipótese (1X)",
                         if homePct >= 50.0 then Alta else Media))
    else None
  }

  /** Pattern 2: over 2.5 goals in at least 60%; 'Alta' from 70%. */
  function HighScoringPattern(overPct: real): (r: Option<MarketPattern>)
    ensures r.Some? <==> overPct >= 60.0
    ensures r.Some? ==> (r.value.confidence == Alta <==> overPct >= 70.0) && r.value.confidence != Baixa
  {
    if overPct >= 60.0 then
      Some(MarketPattern("Tendência de jogos com muitos golos", overPct, "Apostas em Over 2.5 golos",
                         if overPct >= 70.0 then Alta else Media))
    else None
  }

  /** Pattern 3: both teams scored in at least 55%; 'Alta' from 65%. */
  function BothScorePattern(bttsPct: real): (r: Option<MarketPattern>)
    ensures r.Some? <==> bttsPct >= 55.0
    ensures r.Some? ==> (r.value.confidence == Alta <==> bttsPct >= 65.0) && r.value.confidence != Baixa
  {
    if bttsPct >= 55.0 then
      Some(MarketPattern("Ambas equipas tendem a marcar", bttsPct, "Apostas em ambas equipas marcam",
                         if bttsPct >= 65.0 then Alta else Media))
    else None
  }

  /** Pattern 4: at most 20% draws; always graded 'Média'. */
  function FewDrawsPattern(drawPct: real): (r: Option<MarketPattern>)
    ensures r.Some? <==> drawPct <= 20.0
    ensures r.Some? ==> r.value.confidence == Media
  {
    if drawPct <= 20.0 then
      Some(MarketPattern("Poucos empates", drawPct,
                         "Evitar apostas em empate, focar em resultado definido", Media))
    else None
  }

  function WithPattern(patterns: seq<MarketPattern>, p: Option<MarketPattern>): seq<MarketPattern>
  {
    if p.Some? then patterns + [p.value] else patterns
  }

  /** The patterns in rule order. */
  function PatternList(st: MarketStatistics): seq<MarketPattern>
  {
    var afterHome := WithPattern([], HomeAdvantagePattern(st.homeWinPercentage));
    var afterGoals := WithPattern(afterHome, HighScoringPattern(st.over25Percentage));
    var afterBoth := WithPattern(afterGoals, BothScorePattern(st.bttsPercentage));
    WithPattern(afterBoth, FewDrawsPattern(st.drawPercentage))
  }

  /** The pattern appends of `market_analysis`. */
  method IdentifyPatterns(st: MarketStatistics) returns (patterns: seq<MarketPattern>)
    ensures patterns == PatternList(st)
    ensures |patterns| <= 4
  {
    patterns := AddPattern([], HomeAdvantagePattern(st.homeWinPercentage));
    patterns := AddPattern(patterns, HighScoringPattern(st.over25Percentage));
    patterns := AddPattern(patterns, BothScorePattern(st.bttsPercentage));
    patterns := AddPattern(patterns, FewDrawsPattern(st.drawPercentage));
  }

  /** One `if ...: patterns.append(...)`. */
  method AddPattern(patterns: seq<MarketPattern>, p: Option<MarketPattern>) returns (r: seq<MarketPattern>)
    ensures r == WithPattern(patterns, p)
    ensures |r| <= |patterns| + 1
  {
    r := patterns;
    if p.Some? {
      r := r + [p.value];
    }
  }

  /** The opportunities of the patterns graded 'Alta', in order. */
  function BestMarkets(patterns: seq<MarketPattern>): (r: seq<string>)
    ensures |r| <= |patterns|
  {
    if patterns == [] then []
    else
      var p := patterns[|patterns| - 1];
      BestMarkets(patterns[..|patterns| - 1]) + (if p.confidence == Alta then [p.opportunity] else [])
  }

  /** Each listed market comes from an 'Alta' pattern, and each 'Alta' pattern's market is listed. */
  lemma {:induction false} BestMarketsExact(patterns: seq<MarketPattern>)
    ensures forall o :: o in BestMarkets(patterns) ==> exists p :: p in patterns && p.confidence == Alta && p.opportunity == o
    ensures forall p :: p in patterns && p.confidence == Alta ==> p.opportunity in BestMarkets(patterns)
  {
    if patterns != [] {
      var init := patterns[..|patterns| - 1];
      BestMarketsExact(init);
      assert patterns == init + [patterns[|patterns| - 1]];
    }
  }

  /** The positions of the 'Alta' patterns, increasing: the order the comprehension visits them. */
  function AltaPositions(patterns: seq<MarketPattern>): (ix: seq<nat>)
    ensures forall k :: 0 <= k < |ix| ==> ix[k] < |patterns| && patterns[ix[k]].confidence == Alta
    ensures forall k, l :: 0 <= k < l < |ix| ==> ix[k] < ix[l]
    ensures forall i :: 0 <= i < |patterns| && patterns[i].confidence == Alta ==> i in ix
  {
    if patterns == [] then []
    else
      var init := patterns[..|patterns| - 1];
      var rest := AltaPositions(init);
      assert forall i :: 0 <= i < |init| ==> init[i] == patterns[i];
      if patterns[|patterns| - 1].confidence == Alta then rest + [|patterns| - 1] else rest
  }

  /** The k-th listed market is the opportunity of the k-th 'Alta' pattern: order and multiplicity kept. */
  lemma {:induction false} BestMarketsInOrder(patterns: seq<MarketPattern>)
    ensures |BestMarkets(patterns)| == |AltaPositions(patterns)|
    ensures forall k :: 0 <= k < |AltaPositions(patterns)| ==>
      BestMarkets(patterns)[k] == patterns[AltaPositions(patterns)[k]].opportunity
  {
    if patterns != [] {
      var init := patterns[..|patterns| - 1];
      BestMarketsInOrder(init);
      var p := patterns[|patterns| - 1];
      var tail := if p.confidence == Alta then [p.opportunity] else [];
      var ms, ix := BestMarkets(init), AltaPositions(init);
      assert BestMarkets(patterns) == ms + tail;
      assert AltaPositions(patterns) == ix + (if p.confidence == Alta then [|patterns| - 1] else []);
      forall k | 0 <= k < |ix| ensures (ms + tail)[k] == patterns[ix[k]].opportunity {
        assert init[ix[k]] == patterns[ix[k]];
      }
    }
  }

  /** 'Baixa' from three patterns, 'Média' with two, else 'Alta'. */
  function Efficiency(patternCount: nat): (g: Grade)
    ensures g == Baixa <==> patternCount >= 3
    ensures g == Media <==> patternCount == 2
    ensures g == Alta <==> patternCount < 2
  {
    if patternCount >= 3 then Baixa else if patternCount >= 2 then Media else Alta
  }

  function MarketStatisticsOf(ms: seq<Score>): MarketStatistics
    requires ms != []
  {
    var n := |ms|;
    MarketStatistics(
      HomeWins(ms), DrawCount(ms), AwayWins(ms),
      Percentage(HomeWins(ms), n), Percentage(DrawCount(ms), n), Percentage(AwayWins(ms), n),
      (TotalGoals(ms) as real) / (n as real),
      Percentage(Over25Count(ms), n), Percentage(BothScored(ms), n))
  }

  /** `market_analysis`: an error for an empty sample, else the statistics and patterns. */
  function MarketAnalysisOf(ms: seq<Score>): (r: Result<MarketReport, string>)
    ensures r.Err? <==> ms == []
    ensures r.Err? ==> r.error == InsufficientData
  {
    if ms == [] then Err(InsufficientData)
    else
      var st := MarketStatisticsOf(ms);
      var patterns := PatternList(st);
      Ok(MarketReport(|ms|, st, patterns, BestMarkets(patterns), Efficiency(|patterns|), |patterns| >= 2))
  }

  method MarketAnalysis(ms: seq<Score>) returns (r: Result<MarketReport, string>)
    ensures r == MarketAnalysisOf(ms)
  {
    if ms == [] {
      return Err(InsufficientData);
    }
    var st := MarketStatisticsOf(ms);
    var patterns := IdentifyPatterns(st);
    r := Ok(MarketReport(|ms|, st, patterns, BestMarkets(patterns), Efficiency(|patterns|), |patterns| >= 2));
  }

  /** The outcome counts share out the sample, the goal counts fit in it, and all percentages are in [0, 100]. */
  lemma MarketCounts(ms: seq<Score>)
    requires ms != []
    ensures var st := MarketStatisticsOf(ms);
      && st.homeWins + st.draws + st.awayWins == |ms|
      && 0.0 <= st.homeWinPercentage <= 100.0
      && 0.0 <= st.drawPercentage <= 100.0
      && 0.0 <= st.awayWinPercentage <= 100.0
      && 0.0 <= st.over25Percentage <= 100.0
      && 0.0 <= st.bttsPercentage <= 100.0
  {
    OutcomesPartition(ms);
  }

  /** The market is called favourable exactly when its efficiency is not graded 'Alta'. */
  lemma FavourableVerdict(ms: seq<Score>)
    requires ms != []
    ensures var rep := MarketAnalysisOf(ms).value; rep.favourable <==> rep.efficiency != Alta
  {
  }

  /** At most four patterns, and the few-draws pattern is never 'Alta'. */
  lemma PatternFacts(ms: seq<Score>)
    requires ms != []
    ensures var rep := MarketAnalysisOf(ms).value;
      && |rep.patterns| <= 4
      && (forall p :: p in rep.patterns && p.pattern == "Poucos empates" ==> p.confidence == Media)
  {
    var st := MarketStatisticsOf(ms);
    var afterHome := WithPattern([], HomeAdvantagePattern(st.homeWinPercentage));
    PatternGrades([], HomeAdvantagePattern(st.homeWinPercentage));
    var afterGoals := WithPattern(afterHome, HighScoringPattern(st.over25Percentage));
    PatternGrades(afterHome, HighScoringPattern(st.over25Percentage));
    var afterBoth := WithPattern(afterGoals, BothScorePattern(st.bttsPercentage));
    PatternGrades(afterGoals, BothScorePattern(st.bttsPercentage));
    PatternGrades(afterBoth, FewDrawsPattern(st.drawPercentage));
  }

  /** Appending keeps every few-draws pattern graded 'Média' when the new one is. */
  lemma PatternGrades(patterns: seq<MarketPattern>, p: Option<MarketPattern>)
    requires forall q :: q in patterns && q.pattern == "Poucos empates" ==> q.confidence == Media
    requires p.Some? && p.value.pattern == "Poucos empates" ==> p.value.confidence == Media
    ensures forall q :: q in WithPattern(patterns, p) && q.pattern == "Poucos empates" ==> q.confidence == Media
    ensures |WithPattern(patterns, p)| <= |patterns| + 1
  {
  }

  // =====================================================================
  // performance_tracking
  // =====================================================================

  /** A stored prediction of the last 30 days: its predicted result and its confidence. */
  datatype StoredPrediction = StoredPrediction(predictedResult: string, confidence: real)

  datatype BetTypeSummary = BetTypeSummary(count: nat, avgConfidence: real)

  datatype OverallMetrics = OverallMetrics(
    totalPredictions: nat, wins: nat, losses: nat,
    winRate: real, roi: real, profitLoss: int, averageConfidence: real)

  datatype TrackingReport =
    | NoPredictions
    | Tracking(overall: OverallMetrics,
               betTypeOrder: seq<string>, betTypes: map<string, BetTypeSummary>,
               improving: bool, consistency: Grade,
               continueStrategy: bool, adjustStake: bool, focus: string)

  /** `int(total * 0.78)`. */
  function SimulatedWins(total: nat): nat
  {
    total * 78 / 100
  }

  function PredictionItems(ps: seq<StoredPrediction>): (items: seq<(string, real)>)
    ensures |items| == |ps|
    ensures forall i :: 0 <= i < |ps| ==> items[i] == (ps[i].predictedResult, ps[i].confidence)
  {
    seq(|ps|, i requires 0 <= i < |ps| => (ps[i].predictedResult, ps[i].confidence))
  }

  function ConfidenceSum(ps: seq<StoredPrediction>): real
  {
    if ps == [] then 0.0 else ConfidenceSum(ps[..|ps| - 1]) + ps[|ps| - 1].confidence
  }

  /** The overall figures of `n > 0` predictions at the simulated 78% hit rate. */
  function OverallOf(ps: seq<StoredPrediction>): (m: OverallMetrics)
    requires ps != []
    ensures m.totalPredictions == |ps| && m.wins + m.losses == |ps|
  {
    var n := |ps|;
    var wins := SimulatedWins(n);
    var totalStake := (n * 100) as real;
    var totalReturn := (wins * 125) as real;
    OverallMetrics(n, wins, n - wins,
                   (wins as real) / (n as real) * 100.0,
                   (totalReturn - totalStake) / totalStake * 100.0,
                   (wins * 125) as int - (n * 100) as int,
                   ConfidenceSum(ps) / (n as real))
  }

  /** `'Alta'` from a 75% win rate, `'Média'` from 65%, else `'Baixa'`. */
  function Consistency(winRate: real): Grade
  {
    if winRate >= 75.0 then Alta else if winRate >= 65.0 then Media else Baixa
  }

  /**
   * The simulated figures always lose money: 78% wins at 1.25 return at
   * most 97.5 per 100 staked, so the ROI is negative for every sample.
   */
  lemma SimulatedRoiNegative(ps: seq<StoredPrediction>)
    requires ps != []
    ensures OverallOf(ps).roi < 0.0
    ensures OverallOf(ps).profitLoss < 0
  {
    var n := |ps|;
    var wins := SimulatedWins(n);
    assert 100 * wins <= 78 * n;
    var totalStake := (n * 100) as real;
    var gain := (wins * 125) as real - totalStake;
    assert gain < 0.0;
    var q := gain / totalStake;
    assert q * totalStake == gain;
    FactorSign(q, totalStake);
  }

  /** `avg` is the mean of `count` values adding up to `total`, stated without division. */
  predicate IsAverage(avg: real, total: real, count: nat)
  {
    avg * (count as real) == total
  }

  /** The per-type dictionary: the count and the mean confidence of each predicted result. */
  ghost predicate SummarisesTypes(keys: seq<string>, betTypes: map<string, BetTypeSummary>, items: seq<(string, real)>)
  {
    && keys == Keys(items)
    && (forall k :: k in betTypes <==> k in keys)
    && (forall k :: k in betTypes ==> betTypes[k].count == CountOf(items, k) && betTypes[k].count > 0)
    && (forall k :: k in betTypes ==> IsAverage(betTypes[k].avgConfidence, SumOf(items, k), betTypes[k].count))
  }

  /** The entries of `betTypes` are the averaged tallies of exactly the keys `done`. */
  ghost predicate Averaged(done: seq<string>, betTypes: map<string, BetTypeSummary>, items: seq<(string, real)>)
  {
    && (forall k :: k in betTypes <==> k in done)
    && (forall k :: k in betTypes ==> betTypes[k].count == CountOf(items, k) && betTypes[k].count > 0)
    && (forall k :: k in betTypes ==> IsAverage(betTypes[k].avgConfidence, SumOf(items, k), betTypes[k].count))
  }

  /** One turn of the averaging loop. */
  method AverageOne(keys: seq<string>, i: nat, t: Tally, betTypes: map<string, BetTypeSummary>, items: seq<(string, real)>)
    returns (next: map<string, BetTypeSummary>)
    requires i < |keys| && Averaged(keys[..i], betTypes, items)
    requires t == Tally(CountOf(items, keys[i]), SumOf(items, keys[i])) && t.count > 0
    ensures Averaged(keys[..i + 1], next, items)
  {
    var k := keys[i];
    assert keys[..i + 1] == keys[..i] + [k];
    var avg := t.total / (t.count as real);
    assert IsAverage(avg, t.total, t.count);
    next := betTypes[k := BetTypeSummary(t.count, avg)];
  }

  /** The second dictionary loop: divide each running total by its count. */
  method AverageTypes(keys: seq<string>, tallies: map<string, Tally>, items: seq<(string, real)>)
    returns (betTypes: map<string, BetTypeSummary>)
    requires keys == Keys(items)
    requires forall k :: k in tallies <==> k in keys
    requires forall k :: k in tallies ==> tallies[k] == Tally(CountOf(items, k), SumOf(items, k)) && tallies[k].count > 0
    ensures SummarisesTypes(keys, betTypes, items)
  {
    betTypes := map[];
    var i := 0;
    while i < |keys|
      invariant 0 <= i <= |keys|
      invariant Averaged(keys[..i], betTypes, items)
    {
      betTypes := AverageOne(keys, i, tallies[keys[i]], betTypes, items);
      i := i + 1;
    }
    assert keys[..|keys|] == keys;
  }

  /** The counts of the predicted results, in dictionary order. */
  function TypeCounts(keys: seq<string>, betTypes: map<string, BetTypeSummary>): (cs: seq<real>)
    requires forall k :: k in keys ==> k in betTypes
    ensures |cs| == |keys|
    ensures forall i :: 0 <= i < |keys| ==> cs[i] == betTypes[keys[i]].count as real
  {
    seq(|keys|, i requires 0 <= i < |keys| => betTypes[keys[i]].count as real)
  }

  /** `max(bet_types.keys(), key=count)`: the first result of largest count, in dictionary order. */
  function FocusOf(keys: seq<string>, betTypes: map<string, BetTypeSummary>): (f: string)
    requires keys != [] && forall k :: k in keys ==> k in betTypes
    ensures f in keys
    ensures forall j :: 0 <= j < |keys| ==> betTypes[keys[j]].count <= betTypes[f].count
    ensures exists i ::
              && 0 <= i < |keys| && keys[i] == f
              && (forall j :: 0 <= j < i ==> betTypes[keys[j]].count < betTypes[f].count)
  {
    var counts := TypeCounts(keys, betTypes);
    var best := ArgMax(counts);
    keys[best]
  }

  /** `performance_tracking`, after the query for the last 30 days. */
  method PerformanceTracking(ps: seq<StoredPrediction>) returns (r: TrackingReport)
    ensures r == NoPredictions <==> ps == []
    ensures r.Tracking? ==>
      && r.overall == OverallOf(ps)
      && SummarisesTypes(r.betTypeOrder, r.betTypes, PredictionItems(ps))
      && r.improving == (r.overall.roi > 0.0)
      && r.adjustStake == (r.overall.roi < 0.0)
      && r.consistency == Consistency(r.overall.winRate)
      && r.continueStrategy == (r.overall.winRate >= 75.0 && r.overall.roi > 0.0)
      && r.focus == FocusOf(r.betTypeOrder, r.betTypes)
  {
    if ps == [] {
      return NoPredictions;
    }
    var overall := OverallOf(ps);
    var items := PredictionItems(ps);
    var keys, tallies := GroupByKey(items);
    var betTypes := AverageTypes(keys, tallies, items);
    assert items[0].0 in keys;
    var focus := FocusOf(keys, betTypes);
    r := Tracking(overall, keys, betTypes,
                  overall.roi > 0.0, Consistency(overall.winRate),
                  overall.winRate >= 75.0 && overall.roi > 0.0, overall.roi < 0.0, focus);
  }

  /** The per-type counts add up to the number of predictions. */
  lemma TypeCountsCover(ps: seq<StoredPrediction>)
    ensures SumCounts(Keys(PredictionItems(ps)), PredictionItems(ps)) == |ps|
  {
    CountsCoverItems(PredictionItems(ps));
  }

  /** With the simulated figures the handler never reports an improvement and always advises adjusting the stake. */
  lemma TrackingAlwaysAdvisesAdjusting(ps: seq<StoredPrediction>)
    requires ps != []
    ensures var m := OverallOf(ps);
      !(m.roi > 0.0) && m.roi < 0.0 && !(m.winRate >= 75.0 && m.roi > 0.0)
  {
    SimulatedRoiNegative(ps);
  }
}
