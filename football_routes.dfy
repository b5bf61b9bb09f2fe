/**
 * The prediction rule of the `predict_odds` handler: two strengths from the
 * stored statistics of the teams, a 10-point margin for a decided result and
 * a confidence capped at 85.
 */
module FootballRoutes {
  import opened Wrappers
  import opened Records
  import opened StatsCalculator

  /** What the two database lookups found for one side. */
  datatype Lookup = TeamMissing | StatsMissing | Found(stats: TeamStats)

  /** 404 when a team is unknown, 400 when a team has no statistics. */
  datatype PredictError = TeamsNotFound | StatsUnavailable

  const TeamsNotFoundMessage: string := "Equipas não encontradas"
  const StatsUnavailableMessage: string := "Estatísticas não disponíveis para as equipas"

  /** The advantage given to the side playing at home. */
  const HomeAdvantage: real := 5.0
  const Margin: real := 10.0
  const ConfidenceCap: real := 85.0
  const DrawConfidence: real := 50.0
  const TargetOdds: real := 1.25

  datatype OddsPrediction = OddsPrediction(predictedResult: MatchOutcome, confidence: real, odds: real)

  /** The strength of one side before the home advantage. */
  function Strength(s: TeamStats): (r: real)
    ensures 2.0 * r == s.winPercentage + 10.0 * s.goalsPerMatch
  {
    (s.winPercentage + s.goalsPerMatch * 10.0) / 2.0
  }

  /** The decision on the two strengths (the home strength already raised). */
  function Decide(home: real, away: real): (p: OddsPrediction)
    ensures p.predictedResult == Home <==> home > away + Margin
    ensures p.predictedResult == Away <==> away > home + Margin
    ensures p.predictedResult == Draw <==> !(home > away + Margin) && !(away > home + Margin)
    ensures p.predictedResult == Home ==> p.confidence == Min(ConfidenceCap, 60.0 + (home - away) / 2.0)
    ensures p.predictedResult == Away ==> p.confidence == Min(ConfidenceCap, 60.0 + (away - home) / 2.0)
    ensures p.predictedResult != Draw ==> 65.0 < p.confidence <= ConfidenceCap
    ensures p.predictedResult == Draw ==> p.confidence == DrawConfidence
    ensures p.odds == TargetOdds
  {
    if home > away + Margin then OddsPrediction(Home, Min(ConfidenceCap, 60.0 + (home - away) / 2.0), TargetOdds)
    else if away > home + Margin then OddsPrediction(Away, Min(ConfidenceCap, 60.0 + (away - home) / 2.0), TargetOdds)
    else OddsPrediction(Draw, DrawConfidence, TargetOdds)
  }

  /** `predict_odds` after its lookups: both teams must exist, then both must have statistics. */
  function PredictOdds(home: Lookup, away: Lookup): (r: Result<OddsPrediction, PredictError>)
    ensures r == Err(TeamsNotFound) <==> home.TeamMissing? || away.TeamMissing?
    ensures r == Err(StatsUnavailable) <==> !home.TeamMissing? && !away.TeamMissing? && (home.StatsMissing? || away.StatsMissing?)
    ensures r.Ok? <==> home.Found? && away.Found?
    ensures r.Ok? ==> r.value == Decide(Strength(home.stats) + HomeAdvantage, Strength(away.stats))
  {
    if home.TeamMissing? || away.TeamMissing? then Err(TeamsNotFound)
    else if home.StatsMissing? || away.StatsMissing? then Err(StatsUnavailable)
    else Ok(Decide(Strength(home.stats) + HomeAdvantage, Strength(away.stats)))
  }

  /** Exchanging the strengths exchanges a home and an away verdict and keeps the confidence. */
  lemma DecideSymmetric(a: real, b: real)
    ensures Decide(a, b).predictedResult == Home <==> Decide(b, a).predictedResult == Away
    ensures Decide(a, b).predictedResult == Draw <==> Decide(b, a).predictedResult == Draw
    ensures Decide(a, b).confidence == Decide(b, a).confidence
  {
  }

  /** The home advantage alone (5 points) is below the margin: identical statistics predict a draw. */
  lemma EqualTeamsDraw(s: TeamStats)
    ensures PredictOdds(Found(s), Found(s)) == Ok(OddsPrediction(Draw, DrawConfidence, TargetOdds))
  {
  }

  /** Statistics computed from the match list keep the rule's strengths within [0, 50 + 5 * goals per match]. */
  lemma StrengthOfComputedStats(ms: seq<MatchRecord>, teamId: int)
    ensures 0.0 <= Strength(StatsOf(ms, teamId)) <= 50.0 + 5.0 * StatsOf(ms, teamId).goalsPerMatch
  {
    WinPercentageWithin(ms, teamId);
  }

  /**
   * Because of the home advantage the thresholds are uneven on the statistics:
   * the home side needs a lead of more than 5, the away side one of more than 15.
   */
  lemma HomeAdvantageShiftsThresholds(homeStats: TeamStats, awayStats: TeamStats)
    ensures PredictOdds(Found(homeStats), Found(awayStats)).value.predictedResult == Home <==> Strength(homeStats) > Strength(awayStats) + 5.0
    ensures PredictOdds(Found(homeStats), Found(awayStats)).value.predictedResult == Away <==> Strength(awayStats) > Strength(homeStats) + 15.0
  {
  }
}
