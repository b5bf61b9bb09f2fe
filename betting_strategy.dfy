/**
 * `BettingStrategy`: the day's top three qualifying bets, each staked at 5%
 * of the bankroll, and a risk grade for the resulting portfolio.
 */
module BettingStrategy {
  import opened Records
  import opened OddsTargetSystem

  const BankrollPercentage: real := 0.05
  const MaxDailyBets: nat := 3

  /** One entry of the day's list; `confidence` is in percent. */
  datatype Recommendation = Recommendation(
    homeTeamId: int, awayTeamId: int, betType: BetKind, confidence: real,
    stake: real, potentialProfit: real, expectedValue: real,
    riskLevel: Risk, factors: seq<string>)

  /** 'Sem apostas' for an empty portfolio, otherwise one of the three risk tiers. */
  datatype PortfolioRisk = NoBets | Rated(level: Risk)

  datatype PortfolioSummary = PortfolioSummary(
    totalStake: real, expectedProfit: real, roiExpectation: real, riskAssessment: PortfolioRisk)

  datatype DailyReport = DailyReport(recommendations: seq<Recommendation>, summary: PortfolioSummary)

  /** The bets that clear the 0.82 confidence bar, in input order. */
  function Qualifying(bets: seq<Opportunity>): (r: seq<Opportunity>)
    ensures forall b :: b in r <==> b in bets && b.confidence >= MinConfidence
    ensures |r| <= |bets|
  {
    if bets == [] then []
    else
      var rest := Qualifying(bets[..|bets| - 1]);
      var b := bets[|bets| - 1];
      assert bets == bets[..|bets| - 1] + [b];
      if b.confidence >= MinConfidence then rest + [b] else rest
  }

  function TopBets(bets: seq<Opportunity>): (r: seq<Opportunity>)
    ensures |r| == if |Qualifying(bets)| < MaxDailyBets then |Qualifying(bets)| else MaxDailyBets
    ensures r == Qualifying(bets)[..|r|]
    ensures forall b :: b in r ==> b in bets && b.confidence >= MinConfidence
  {
    FirstN(Qualifying(bets), MaxDailyBets)
  }

  function ToRecommendation(b: Opportunity, bankroll: real): (r: Recommendation)
    ensures r.homeTeamId == b.homeTeamId && r.awayTeamId == b.awayTeamId && r.betType == b.recommendedBet
    ensures r.riskLevel == b.riskLevel && r.factors == b.supportingFactors
    ensures r.confidence == b.confidence * 100.0
    ensures r.stake == 0.05 * bankroll && r.potentialProfit == 0.25 * r.stake
    ensures r.expectedValue == b.expectedValue * r.stake
  {
    var stake := bankroll * BankrollPercentage;
    Recommendation(b.homeTeamId, b.awayTeamId, b.recommendedBet, b.confidence * 100.0,
                   stake, stake * (TargetOdds - 1.0), b.expectedValue * stake, b.riskLevel,
                   b.supportingFactors)
  }

  function ConfidenceSum(recs: seq<Recommendation>): real
  {
    if recs == [] then 0.0 else ConfidenceSum(recs[..|recs| - 1]) + recs[|recs| - 1].confidence
  }

  function LowRiskCount(recs: seq<Recommendation>): nat
  {
    if recs == [] then 0
    else LowRiskCount(recs[..|recs| - 1]) + (if recs[|recs| - 1].riskLevel == Baixo then 1 else 0)
  }

  function StakeSum(recs: seq<Recommendation>): real
  {
    if recs == [] then 0.0 else StakeSum(recs[..|recs| - 1]) + recs[|recs| - 1].stake
  }

  /** `total` is `n` stakes of `stake` each. */
  predicate IsUniformTotal(total: real, n: nat, stake: real)
  {
    total == (n as real) * stake
  }

  /** Equal stakes add up to their number times the stake. */
  lemma {:induction false} StakeSumUniform(recs: seq<Recommendation>, stake: real)
    requires forall i :: 0 <= i < |recs| ==> recs[i].stake == stake
    ensures IsUniformTotal(StakeSum(recs), |recs|, stake)
  {
    if recs != [] {
      var init := recs[..|recs| - 1];
      assert forall i :: 0 <= i < |init| ==> init[i] == recs[i];
      StakeSumUniform(init, stake);
      var n := |init| as real;
      assert n * stake + stake == (n + 1.0) * stake;
    }
  }

  function ExpectedValueSum(recs: seq<Recommendation>): real
  {
    if recs == [] then 0.0 else ExpectedValueSum(recs[..|recs| - 1]) + recs[|recs| - 1].expectedValue
  }

  /**
   * `_assess_portfolio_risk`, stated without division: 'Baixo' needs an
   * average of at least 85 and at least 70% low-risk bets, 'Médio' an
   * average of at least 82.
   */
  function AssessPortfolioRisk(recs: seq<Recommendation>): (r: PortfolioRisk)
    ensures r == NoBets <==> recs == []
    ensures recs != [] ==>
      var n := |recs| as real;
      && (r == Rated(Baixo) <==> ConfidenceSum(recs) >= 85.0 * n && (LowRiskCount(recs) as real) >= 0.7 * n)
      && (r == Rated(Alto) <==> ConfidenceSum(recs) < 82.0 * n)
  {
    if recs == [] then NoBets
    else
      var n := |recs| as real;
      var avgConfidence := ConfidenceSum(recs) / n;
      AverageAtLeast(ConfidenceSum(recs), n, 85.0);
      AverageAtLeast(ConfidenceSum(recs), n, 82.0);
      if avgConfidence >= 85.0 && (LowRiskCount(recs) as real) >= n * 0.7 then Rated(Baixo)
      else if avgConfidence >= 82.0 then Rated(Medio)
      else Rated(Alto)
  }

  lemma AverageAtLeast(total: real, n: real, bound: real)
    requires n > 0.0
    ensures total / n >= bound <==> total >= bound * n
  {
    var q := total / n;
    assert q * n == total;
    if q >= bound {
      assert q * n >= bound * n;
    } else {
      assert q * n < bound * n;
    }
  }

  lemma {:induction false} ConfidenceSumAtLeast(recs: seq<Recommendation>, bound: real)
    requires forall i :: 0 <= i < |recs| ==> recs[i].confidence >= bound
    ensures ConfidenceSum(recs) >= bound * (|recs| as real)
  {
    if recs != [] {
      var init := recs[..|recs| - 1];
      assert forall i :: 0 <= i < |init| ==> init[i] == recs[i];
      ConfidenceSumAtLeast(init, bound);
      var n := |init| as real;
      assert bound * n + bound == bound * (n + 1.0);
    }
  }

  lemma {:induction false} LowRiskCountAll(recs: seq<Recommendation>)
    requires forall i :: 0 <= i < |recs| ==> recs[i].riskLevel == Baixo
    ensures LowRiskCount(recs) == |recs|
  {
    if recs != [] {
      var init := recs[..|recs| - 1];
      assert forall i :: 0 <= i < |init| ==> init[i] == recs[i];
      LowRiskCountAll(init);
    }
  }

  /** A portfolio of confidences of at least 82% is never graded 'Alto'. */
  lemma ConfidentPortfolioNotHighRisk(recs: seq<Recommendation>)
    requires recs != []
    requires forall i :: 0 <= i < |recs| ==> recs[i].confidence >= 82.0
    ensures AssessPortfolioRisk(recs) != Rated(Alto)
  {
    ConfidenceSumAtLeast(recs, 82.0);
  }

  /** Only low-risk bets, each at least 85% confident: the portfolio is 'Baixo'. */
  lemma LowRiskPortfolio(recs: seq<Recommendation>)
    requires recs != []
    requires forall i :: 0 <= i < |recs| ==> recs[i].confidence >= 85.0 && recs[i].riskLevel == Baixo
    ensures AssessPortfolioRisk(recs) == Rated(Baixo)
  {
    ConfidenceSumAtLeast(recs, 85.0);
    LowRiskCountAll(recs);
  }

  /** The staking loop of `generate_daily_recommendations`. */
  method StakeBets(topBets: seq<Opportunity>, bankroll: real)
    returns (recommendations: seq<Recommendation>, totalStake: real, expectedProfit: real)
    ensures |recommendations| == |topBets|
    ensures forall j :: 0 <= j < |topBets| ==> recommendations[j] == ToRecommendation(topBets[j], bankroll)
    ensures totalStake == StakeSum(recommendations)
    ensures expectedProfit == ExpectedValueSum(recommendations)
  {
    recommendations := [];
    totalStake := 0.0;
    expectedProfit := 0.0;
    var i := 0;
    while i < |topBets|
      invariant 0 <= i <= |topBets|
      invariant |recommendations| == i
      invariant forall j :: 0 <= j < i ==> recommendations[j] == ToRecommendation(topBets[j], bankroll)
      invariant totalStake == StakeSum(recommendations)
      invariant expectedProfit == ExpectedValueSum(recommendations)
    {
      var next := ToRecommendation(topBets[i], bankroll);
      assert (recommendations + [next])[..i] == recommendations;
      assert ExpectedValueSum(recommendations + [next]) == ExpectedValueSum(recommendations) + next.expectedValue;
      assert StakeSum(recommendations + [next]) == StakeSum(recommendations) + next.stake;
      recommendations := recommendations + [next];
      totalStake := totalStake + next.stake;
      expectedProfit := expectedProfit + next.expectedValue;
      i := i + 1;
    }
  }

  lemma StakedBetsShape(bets: seq<Opportunity>, topBets: seq<Opportunity>, recs: seq<Recommendation>, bankroll: real)
    requires topBets == TopBets(bets) && |recs| == |topBets|
    requires forall j :: 0 <= j < |topBets| ==> recs[j] == ToRecommendation(topBets[j], bankroll)
    ensures forall j :: 0 <= j < |recs| ==>
      recs[j].stake == BankrollPercentage * bankroll && recs[j].potentialProfit == 0.25 * recs[j].stake && recs[j].confidence >= 82.0
  {
    forall j | 0 <= j < |recs|
      ensures recs[j].stake == BankrollPercentage * bankroll && recs[j].potentialProfit == 0.25 * recs[j].stake && recs[j].confidence >= 82.0
    {
      assert topBets[j] in Qualifying(bets);
    }
  }

  /** `generate_daily_recommendations`. */
  method GenerateDailyRecommendations(bets: seq<Opportunity>, bankroll: real) returns (report: DailyReport)
    ensures var top := TopBets(bets); var recs := report.recommendations;
      && |recs| == |top| <= MaxDailyBets
      && forall i :: 0 <= i < |recs| ==> recs[i] == ToRecommendation(top[i], bankroll)
    ensures var recs := report.recommendations; forall j :: 0 <= j < |recs| ==>
      && recs[j].stake == BankrollPercentage * bankroll
      && recs[j].potentialProfit == 0.25 * recs[j].stake
      && recs[j].confidence >= 82.0
    ensures IsUniformTotal(report.summary.totalStake, |report.recommendations|, BankrollPercentage * bankroll)
    ensures report.summary.expectedProfit == ExpectedValueSum(report.recommendations)
    ensures IsPercentOf(report.summary.roiExpectation, report.summary.expectedProfit, Max(1.0, report.summary.totalStake))
    ensures report.summary.riskAssessment == AssessPortfolioRisk(report.recommendations)
    ensures report.summary.riskAssessment != Rated(Alto)
  {
    var topBets := FirstN(Qualifying(bets), MaxDailyBets);
    var recommendations, totalStake, expectedProfit := StakeBets(topBets, bankroll);
    var roi := expectedProfit / Max(1.0, totalStake) * 100.0;
    PercentOfRatio(expectedProfit, Max(1.0, totalStake));
    StakedBetsShape(bets, topBets, recommendations, bankroll);
    StakeSumUniform(recommendations, BankrollPercentage * bankroll);
    if recommendations != [] {
      ConfidentPortfolioNotHighRisk(recommendations);
    }
    report := DailyReport(recommendations,
                          PortfolioSummary(totalStake, expectedProfit, roi, AssessPortfolioRisk(recommendations)));
  }

  /**
   * Bets from the 1.25 scan carry `expected_value = 1.25 c - 1` with `c >= 0.82`,
   * so with a positive bankroll every recommendation has a positive expected value.
   */
  lemma ScannedBetsGain(bets: seq<Opportunity>, bankroll: real, i: nat)
    requires bankroll > 0.0
    requires forall b :: b in bets ==> b.expectedValue == TargetOdds * b.confidence - 1.0
    requires i < |TopBets(bets)|
    ensures ToRecommendation(TopBets(bets)[i], bankroll).expectedValue > 0.0
  {
    var b := TopBets(bets)[i];
    assert b in Qualifying(bets);
    assert b.expectedValue >= 0.025;
    var stake := bankroll * BankrollPercentage;
    assert b.expectedValue * stake > 0.0;
  }
}
