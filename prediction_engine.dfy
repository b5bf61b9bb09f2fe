/**
 * `PredictionEngine`: 1X2 probabilities from two team summaries, value bets
 * at a target price, and the comprehensive analysis that wires the
 * estimators together.
 */
module PredictionEngine {
  import opened Wrappers
  import opened Sorting
  import opened Records
  import opened Curves
  import opened AdvancedStats

  const HomeAdvantage: real := 50.0
  const HeadToHeadBonus: real := 25.0
  const DrawProbability: real := 0.25
  const DefaultTargetOdds: real := 1.25

  /** The two inputs of the probability model for one team. */
  datatype TeamData = TeamData(eloRating: real, formIndex: real)

  datatype Probabilities = Probabilities(homeWin: real, draw: real, awayWin: real)

  /** Strength of the home side minus that of the away side. */
  function StrengthDiff(home: TeamData, away: TeamData, h2h: Option<HeadToHead>): (d: real)
    ensures var base := home.eloRating - away.eloRating + HomeAdvantage + (home.formIndex - away.formIndex) * 100.0;
      && (h2h.None? || h2h.value.totalMatches == 0 || h2h.value.advantage == Neutral ==> d == base)
      && (h2h.Some? && h2h.value.totalMatches > 0 && h2h.value.advantage == Team1 ==> d == base + HeadToHeadBonus)
      && (h2h.Some? && h2h.value.totalMatches > 0 && h2h.value.advantage == Team2 ==> d == base - HeadToHeadBonus)
    ensures home == away && h2h.None? ==> d == HomeAdvantage
  {
    var homeStrength := home.eloRating + HomeAdvantage + (home.formIndex - away.formIndex) * 100.0;
    var awayStrength := away.eloRating;
    var bonus :=
      match h2h
      case Some(r) =>
        if r.totalMatches > 0 && r.advantage == Team1 then HeadToHeadBonus
        else if r.totalMatches > 0 && r.advantage == Team2 then -HeadToHeadBonus
        else 0.0
      case None => 0.0;
    homeStrength - awayStrength + bonus
  }

  /**
   * `calculate_match_probability`; `logistic(d)` stands for `1/(1+exp(-d/400))`.
   * The draw is a fixed quarter, and the home side gets three quarters of the
   * logistic share.
   */
  function MatchProbability(home: TeamData, away: TeamData, h2h: Option<HeadToHead>,
                            logistic: real -> real): (p: Probabilities)
    ensures p.draw == DrawProbability
    ensures p.homeWin + p.draw + p.awayWin == 1.0
    ensures p.homeWin == 0.75 * logistic(StrengthDiff(home, away, h2h))
    ensures IsLogistic(logistic) ==> 0.0 < p.homeWin < 0.75 && 0.0 < p.awayWin < 0.75
  {
    var raw := logistic(StrengthDiff(home, away, h2h));
    var homeWin := raw * (1.0 - DrawProbability);
    var awayWin := 1.0 - homeWin - DrawProbability;
    var total := homeWin + DrawProbability + awayWin;
    Probabilities(homeWin / total, DrawProbability / total, awayWin / total)
  }

  /** A head-to-head record without matches counts as no record at all. */
  lemma EmptyHeadToHeadIgnored(home: TeamData, away: TeamData, r: HeadToHead, logistic: real -> real)
    requires r.totalMatches == 0
    ensures MatchProbability(home, away, Some(r), logistic) == MatchProbability(home, away, None, logistic)
  {
  }

  /** Two identical teams without history: the home advantage makes the home side the favourite. */
  lemma HomeSideFavoured(t: TeamData, logistic: real -> real)
    requires IsLogistic(logistic) && PointSymmetric(logistic)
    ensures var p := MatchProbability(t, t, None, logistic); p.homeWin > p.awayWin
  {
    assert StrengthDiff(t, t, None) == HomeAdvantage;
    assert logistic(-0.0) == 1.0 - logistic(0.0);
    assert logistic(0.0) < logistic(HomeAdvantage);
  }

  /** A higher home Elo rating never lowers the home-win probability. */
  lemma HomeWinMonotone(home1: TeamData, home2: TeamData, away: TeamData, h2h: Option<HeadToHead>,
                        logistic: real -> real)
    requires IsLogistic(logistic)
    requires home1.formIndex == home2.formIndex && home1.eloRating < home2.eloRating
    ensures MatchProbability(home1, away, h2h, logistic).homeWin
            < MatchProbability(home2, away, h2h, logistic).homeWin
  {
    assert StrengthDiff(home1, away, h2h) < StrengthDiff(home2, away, h2h);
  }

  // ---------------------------------------------------------------------
  // Value bets
  // ---------------------------------------------------------------------

  datatype ValueBet = ValueBet(
    outcome: MatchOutcome, probability: real, odds: real,
    expectedValue: real, confidence: real, recommended: bool)

  /** The probabilities in the dictionary's order: home, draw, away. */
  function Items(p: Probabilities): seq<(MatchOutcome, real)>
  {
    [(Home, p.homeWin), (Draw, p.draw), (Away, p.awayWin)]
  }

  function MakeValueBet(outcome: MatchOutcome, prob: real, odds: real): (b: ValueBet)
    requires odds != 0.0
    ensures b.outcome == outcome && b.probability == prob && b.odds == odds
    ensures b.expectedValue == prob * odds - 1.0
    ensures b.recommended <==> prob * odds > 1.05
    ensures b.confidence == (prob * odds - 1.0) * 100.0
  {
    var impliedProb := 1.0 / odds;
    var expectedValue := prob * (odds - 1.0) - (1.0 - prob);
    assert (prob - impliedProb) / impliedProb == prob * odds - 1.0 by {
      assert impliedProb * odds == 1.0;
      assert (prob - impliedProb) == (prob * odds - 1.0) * impliedProb;
    }
    ValueBet(outcome, prob, odds, expectedValue, (prob - impliedProb) / impliedProb * 100.0,
             expectedValue > 0.05)
  }

  /** What every value bet at price `odds` satisfies. */
  predicate IsValueBetAt(b: ValueBet, odds: real)
    requires odds != 0.0
  {
    && b.odds == odds
    && b.probability > 1.0 / odds
    && b.expectedValue == b.probability * odds - 1.0
    && (b.recommended <==> b.expectedValue > 0.05)
  }

  /** At a positive price, beating the implied probability means a positive expected value. */
  lemma ValueBetGains(b: ValueBet, odds: real)
    requires odds > 0.0 && IsValueBetAt(b, odds)
    ensures b.expectedValue > 0.0
  {
    assert b.probability * odds > (1.0 / odds) * odds;
  }

  /** The outcomes whose probability beats the price's implied probability, in item order. */
  function ValueCandidates(items: seq<(MatchOutcome, real)>, odds: real): (r: seq<ValueBet>)
    requires odds != 0.0
    ensures forall b :: b in r ==> IsValueBetAt(b, odds)
    ensures forall i :: 0 <= i < |items| && items[i].1 > 1.0 / odds ==>
      MakeValueBet(items[i].0, items[i].1, odds) in r
    ensures forall b :: b in r ==>
      exists i :: 0 <= i < |items| && items[i].1 > 1.0 / odds && b == MakeValueBet(items[i].0, items[i].1, odds)
    ensures |r| <= |items|
  {
    if items == [] then []
    else
      var rest := ValueCandidates(items[..|items| - 1], odds);
      var last := items[|items| - 1];
      assert forall i :: 0 <= i < |items| - 1 ==> items[..|items| - 1][i] == items[i];
      if last.1 > 1.0 / odds then rest + [MakeValueBet(last.0, last.1, odds)] else rest
  }

  /** No item beats the implied probability: no candidate. */
  lemma {:induction false} NoCandidates(items: seq<(MatchOutcome, real)>, odds: real)
    requires odds != 0.0
    requires forall i :: 0 <= i < |items| ==> items[i].1 <= 1.0 / odds
    ensures ValueCandidates(items, odds) == []
  {
    if items != [] {
      NoCandidates(items[..|items| - 1], odds);
    }
  }

  const ByValueDescending: (ValueBet, ValueBet) -> bool :=
    (a: ValueBet, b: ValueBet) => a.expectedValue >= b.expectedValue

  lemma ValueOrderIsPreorder()
    ensures TotalPreorder(ByValueDescending)
  {
  }

  /** The candidate loop of `find_value_bets`. */
  method CollectValueBets(items: seq<(MatchOutcome, real)>, targetOdds: real) returns (valueBets: seq<ValueBet>)
    requires targetOdds != 0.0
    ensures valueBets == ValueCandidates(items, targetOdds)
  {
    valueBets := [];
    var impliedProb := 1.0 / targetOdds;
    var i := 0;
    while i < |items|
      invariant 0 <= i <= |items|
      invariant valueBets == ValueCandidates(items[..i], targetOdds)
    {
      assert items[..i + 1][..i] == items[..i];
      var (outcome, prob) := items[i];
      if prob > impliedProb {
        var expectedValue := prob * (targetOdds - 1.0) - (1.0 - prob);
        var confidence := (prob - impliedProb) / impliedProb * 100.0;
        valueBets := valueBets + [ValueBet(outcome, prob, targetOdds, expectedValue, confidence,
                                           expectedValue > 0.05)];
      }
      i := i + 1;
    }
    assert items[..|items|] == items;
  }

  /** `find_value_bets`. A zero price is outside the source's domain (it divides by it). */
  method FindValueBets(probabilities: Probabilities, targetOdds: real) returns (bets: seq<ValueBet>)
    requires targetOdds != 0.0
    ensures bets == SortBy(ValueCandidates(Items(probabilities), targetOdds), ByValueDescending)
    ensures SortedBy(bets, ByValueDescending)
    ensures forall b :: b in bets ==> IsValueBetAt(b, targetOdds)
    ensures forall i :: 0 <= i < 3 && Items(probabilities)[i].1 > 1.0 / targetOdds ==>
      MakeValueBet(Items(probabilities)[i].0, Items(probabilities)[i].1, targetOdds) in bets
    ensures forall b :: b in bets ==>
      exists i :: 0 <= i < 3 && Items(probabilities)[i].1 > 1.0 / targetOdds &&
                  b == MakeValueBet(Items(probabilities)[i].0, Items(probabilities)[i].1, targetOdds)
  {
    var items := Items(probabilities);
    var valueBets := CollectValueBets(items, targetOdds);
    bets := SortBy(valueBets, ByValueDescending);
    ValueOrderIsPreorder();
    SortBySorted(valueBets, ByValueDescending);
    forall b | b in bets
      ensures IsValueBetAt(b, targetOdds)
      ensures exists i :: 0 <= i < 3 && items[i].1 > 1.0 / targetOdds &&
                          b == MakeValueBet(items[i].0, items[i].1, targetOdds)
    {
      SortByMembers(valueBets, ByValueDescending, b);
    }
    forall j | 0 <= j < 3 && items[j].1 > 1.0 / targetOdds
      ensures MakeValueBet(items[j].0, items[j].1, targetOdds) in bets
    {
      SortByMembers(valueBets, ByValueDescending, MakeValueBet(items[j].0, items[j].1, targetOdds));
    }
  }

  /** The recommendation: the best value bet, when it is recommended. */
  function Recommendation(bets: seq<ValueBet>): (r: Option<ValueBet>)
    ensures r.Some? <==> bets != [] && bets[0].recommended
    ensures r.Some? ==> r.value == bets[0]
  {
    if bets != [] && bets[0].recommended then Some(bets[0]) else None
  }

  /** On a list sorted by expected value, there is no recommendation exactly when no bet is recommended. */
  lemma RecommendationExact(bets: seq<ValueBet>)
    requires SortedBy(bets, ByValueDescending)
    requires forall b :: b in bets ==> (b.recommended <==> b.expectedValue > 0.05)
    ensures Recommendation(bets).None? <==> forall b :: b in bets ==> !b.recommended
    ensures Recommendation(bets).Some? ==>
      forall b :: b in bets ==> b.expectedValue <= Recommendation(bets).value.expectedValue
  {
    if bets != [] {
      forall i | 0 < i < |bets| ensures ByValueDescending(bets[0], bets[i]) { }
    }
  }

  /**
   * At the engine's own price of 1.25 (implied 0.8) no outcome of
   * `MatchProbability` is ever a value bet: the draw is 0.25 and each win
   * probability is below 0.75.
   */
  lemma NoValueAtDefaultOdds(home: TeamData, away: TeamData, h2h: Option<HeadToHead>, logistic: real -> real)
    requires IsLogistic(logistic)
    ensures ValueCandidates(Items(MatchProbability(home, away, h2h, logistic)), DefaultTargetOdds) == []
  {
    assert 1.0 / DefaultTargetOdds == 0.8;
    NoCandidates(Items(MatchProbability(home, away, h2h, logistic)), DefaultTargetOdds);
  }

  // ---------------------------------------------------------------------
  // Comprehensive analysis
  // ---------------------------------------------------------------------

  datatype TeamAnalysis = TeamAnalysis(
    eloRating: real, formIndex: real,
    attack: AttackStats, defense: DefenseStats, venue: VenueRecord)

  datatype Analysis = Analysis(
    homeTeam: TeamAnalysis, awayTeam: TeamAnalysis, headToHead: HeadToHead,
    probabilities: Probabilities, valueBets: seq<ValueBet>, recommendation: Option<ValueBet>)

  /** The team-perspective history of one team. */
  function Prepared(allMatches: seq<MatchRecord>, teamId: int): seq<TeamMatch>
  {
    PrepareMatchData(MatchesOf(allMatches, teamId), teamId)
  }

  /**
   * `generate_comprehensive_analysis`: Elo over the last 20 prepared matches
   * (in input order), form over the last 10, the other estimators over all of
   * them, and the head-to-head over every stored match.
   */
  method ComprehensiveAnalysis(homeTeamId: int, awayTeamId: int, allMatches: seq<MatchRecord>,
                               eloCurve: real -> real, logistic: real -> real)
    returns (a: Analysis)
    ensures var hp := Prepared(allMatches, homeTeamId);
      a.homeTeam == TeamAnalysis(
        EloFrom(SortBy(LastN(hp, 20), ByDateAscending), DefaultRating, eloCurve),
        FormIndexOf(LastN(hp, 10), DefaultDecay),
        AttackingEfficiency(hp), DefensiveSolidity(hp), HomeAwayPerformance(hp).home)
    ensures var ap := Prepared(allMatches, awayTeamId);
      a.awayTeam == TeamAnalysis(
        EloFrom(SortBy(LastN(ap, 20), ByDateAscending), DefaultRating, eloCurve),
        FormIndexOf(LastN(ap, 10), DefaultDecay),
        AttackingEfficiency(ap), DefensiveSolidity(ap), HomeAwayPerformance(ap).away)
    ensures a.headToHead == HeadToHeadOf(homeTeamId, awayTeamId, allMatches)
    ensures a.probabilities == MatchProbability(
      TeamData(a.homeTeam.eloRating, a.homeTeam.formIndex),
      TeamData(a.awayTeam.eloRating, a.awayTeam.formIndex), Some(a.headToHead), logistic)
    ensures a.valueBets == SortBy(ValueCandidates(Items(a.probabilities), DefaultTargetOdds), ByValueDescending)
    ensures a.recommendation == Recommendation(a.valueBets)
    ensures IsLogistic(logistic) ==> a.valueBets == [] && a.recommendation == None
    ensures 0.0 <= a.homeTeam.formIndex <= 1.2 && 0.0 <= a.awayTeam.formIndex <= 1.2
  {
    var homePrepared := Prepared(allMatches, homeTeamId);
    var awayPrepared := Prepared(allMatches, awayTeamId);
    var homeElo := CalculateEloRating(LastN(homePrepared, 20), DefaultRating, eloCurve);
    var awayElo := CalculateEloRating(LastN(awayPrepared, 20), DefaultRating, eloCurve);
    var homeForm := CalculateFormIndex(LastN(homePrepared, 10), DefaultDecay);
    var awayForm := CalculateFormIndex(LastN(awayPrepared, 10), DefaultDecay);
    var h2hRecord := CalculateHeadToHead(homeTeamId, awayTeamId, allMatches);
    var homeTeam := TeamAnalysis(homeElo, homeForm, AttackingEfficiency(homePrepared),
                                 DefensiveSolidity(homePrepared), HomeAwayPerformance(homePrepared).home);
    var awayTeam := TeamAnalysis(awayElo, awayForm, AttackingEfficiency(awayPrepared),
                                 DefensiveSolidity(awayPrepared), HomeAwayPerformance(awayPrepared).away);
    var homeData := TeamData(homeElo, homeForm);
    var awayData := TeamData(awayElo, awayForm);
    var probabilities := MatchProbability(homeData, awayData, Some(h2hRecord), logistic);
    var valueBets := FindValueBets(probabilities, DefaultTargetOdds);
    if IsLogistic(logistic) {
      NoValueAtDefaultOdds(homeData, awayData, Some(h2hRecord), logistic);
    }
    a := Analysis(homeTeam, awayTeam, h2hRecord, probabilities, valueBets, Recommendation(valueBets));
  }
}
