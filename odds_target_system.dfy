/**
 * `OddsTargetSystem`: five threshold rules that each may propose a bet at
 * the fixed price 1.25, the selection of the most confident proposal per
 * fixture, and the fixture scan that reports them in order.
 */
module OddsTargetSystem {
  import opened Wrappers
  import opened Sorting
  import opened Records
  import opened Curves

  const TargetOdds: real := 1.25
  const MinConfidence: real := 0.82

  /** The per-team figures the scanner reads from `teams_data`. */
  datatype TeamSnapshot = TeamSnapshot(
    eloRating: real, goalsPerMatch: real, goalsConcededPerMatch: real,
    winPercentage: real, formIndex: real)

  /** The bet a scenario proposes: 'home_win', 'over_2.5', 'under_2.5', ... */
  datatype BetKind = HomeWin | Over25 | Under25 | BothTeamsScore | NoBothTeamsScore | HomeOrDraw

  datatype Scenario = Scenario(
    outcome: BetKind, confidence: real, probability: real, expectedValue: real,
    riskLevel: Risk, factors: seq<string>)

  /** Every scenario is priced at 1.25 with its confidence as its probability. */
  predicate PricedAtTarget(s: Scenario)
  {
    s.probability == s.confidence && s.expectedValue == TargetOdds * s.confidence - 1.0
  }

  function MakeScenario(outcome: BetKind, confidence: real, risk: Risk, factors: seq<string>): (s: Scenario)
    ensures PricedAtTarget(s) && s.confidence == confidence && s.outcome == outcome && s.riskLevel == risk
  {
    Scenario(outcome, confidence, confidence, confidence * 0.25 - (1.0 - confidence), risk, factors)
  }

  // ---------------------------------------------------------------------
  // Team figures
  // ---------------------------------------------------------------------

  /** `_calculate_team_strength`. */
  function TeamStrength(t: TeamSnapshot, isHome: bool): (s: real)
    ensures t.goalsPerMatch == t.goalsConcededPerMatch && t.winPercentage == 50.0 && t.formIndex == 0.5 ==>
      s == t.eloRating + (if isHome then 50.0 else 0.0)
    ensures t.goalsPerMatch >= t.goalsConcededPerMatch && t.winPercentage >= 50.0 && t.formIndex >= 0.5 ==>
      s >= t.eloRating
  {
    t.eloRating
    + (t.goalsPerMatch - t.goalsConcededPerMatch) * 50.0
    + (t.winPercentage - 50.0) * 2.0
    + (t.formIndex - 0.5) * 100.0
    + (if isHome then 50.0 else 0.0)
  }

  /** Playing at home is worth exactly 50 points; the other terms are increasing in the team's figures. */
  lemma TeamStrengthShape(t: TeamSnapshot, u: TeamSnapshot)
    ensures TeamStrength(t, true) == TeamStrength(t, false) + 50.0
    ensures u.goalsConcededPerMatch == t.goalsConcededPerMatch && u.formIndex == t.formIndex
            && u.eloRating >= t.eloRating && u.goalsPerMatch >= t.goalsPerMatch
            && u.winPercentage >= t.winPercentage
            ==> TeamStrength(u, false) >= TeamStrength(t, false)
  {
  }

  function StrengthDiff(home: TeamSnapshot, away: TeamSnapshot): (d: real)
    ensures d == TeamStrength(home, false) - TeamStrength(away, false) + 50.0
    ensures home == away ==> d == 50.0
  {
    TeamStrength(home, true) - TeamStrength(away, false)
  }

  /** `_calculate_match_goals_expectation`: each attack times the other side's concession rate. */
  function GoalsExpectation(home: TeamSnapshot, away: TeamSnapshot): (g: real)
    ensures (&& home.goalsPerMatch >= 0.0 && home.goalsConcededPerMatch >= 0.0
             && away.goalsPerMatch >= 0.0 && away.goalsConcededPerMatch >= 0.0) ==> g >= 0.0
    ensures home.goalsPerMatch == 0.0 && away.goalsPerMatch == 0.0 ==> g == 0.0
  {
    home.goalsPerMatch * away.goalsConcededPerMatch + away.goalsPerMatch * home.goalsConcededPerMatch
  }

  /** `_calculate_both_teams_score_probability`: at most 0.81 for non-negative scoring rates. */
  function BothTeamsScoreProbability(home: TeamSnapshot, away: TeamSnapshot): (p: real)
    ensures home.goalsPerMatch >= 0.0 && away.goalsPerMatch >= 0.0 ==> 0.0 <= p <= 0.81
  {
    var homeScoring := Min(0.9, home.goalsPerMatch / 2.0);
    var awayScoring := Min(0.9, away.goalsPerMatch / 2.0);
    ScoringProductBound(homeScoring, awayScoring);
    homeScoring * awayScoring
  }

  lemma ScoringProductBound(x: real, y: real)
    ensures 0.0 <= x <= 0.9 && 0.0 <= y <= 0.9 ==> 0.0 <= x * y <= 0.81
  {
    if 0.0 <= x <= 0.9 && 0.0 <= y <= 0.9 {
      assert x * y <= 0.9 * y;
    }
  }

  /**
   * `_calculate_home_or_draw_probability`: the logistic home-win share plus
   * 0.25. It is not capped, so it exceeds 1 once the logistic exceeds 0.75.
   */
  function HomeOrDrawProbability(home: TeamSnapshot, away: TeamSnapshot, logistic: real -> real): (p: real)
    ensures IsLogistic(logistic) ==> 0.25 < p < 1.25
    ensures p > 1.0 <==> logistic(StrengthDiff(home, away)) > 0.75
  {
    logistic(StrengthDiff(home, away)) + 0.25
  }

  // ---------------------------------------------------------------------
  // The five rules of `_identify_125_scenarios`
  // ---------------------------------------------------------------------

  /**
   * Scenario 1, a dominant home side. A difference of at least 200 already
   * puts `0.7 + diff/1000` at 0.9, so the cap always applies.
   */
  function DominantHome(home: TeamSnapshot, away: TeamSnapshot): (r: Option<Scenario>)
    ensures r.Some? <==> StrengthDiff(home, away) >= 200.0
    ensures r.Some? ==> r.value.outcome == HomeWin && r.value.confidence == 0.9
                        && r.value.riskLevel == Baixo && PricedAtTarget(r.value)
  {
    var diff := StrengthDiff(home, away);
    if diff >= 200.0 then
      Some(MakeScenario(HomeWin, Min(0.9, 0.7 + diff / 1000.0), Baixo,
                        ["Superioridade técnica significativa", "Vantagem de jogar em casa"]))
    else None
  }

  /** Scenario 2, over or under 2.5 goals; at most one of the two. */
  function GoalLine(home: TeamSnapshot, away: TeamSnapshot): (r: Option<Scenario>)
    ensures (r.Some? && r.value.outcome == Over25) <==> GoalsExpectation(home, away) >= 2.8
    ensures (r.Some? && r.value.outcome == Under25) <==> GoalsExpectation(home, away) <= 1.8
    ensures r.Some? ==> PricedAtTarget(r.value) && (r.value.outcome == Over25 || r.value.outcome == Under25)
    ensures r.Some? && r.value.outcome == Over25 ==>
      0.63 <= r.value.confidence <= 0.85 && r.value.riskLevel == Medio
    ensures r.Some? && r.value.outcome == Under25 ==>
      0.67 <= r.value.confidence <= 0.83 && r.value.riskLevel == Baixo
  {
    var avgGoals := GoalsExpectation(home, away);
    if avgGoals >= 2.8 then
      Some(MakeScenario(Over25, Min(0.85, 0.6 + (avgGoals - 2.5) * 0.1), Medio,
                        ["Média alta de golos das equipas", "Histórico ofensivo"]))
    else if avgGoals <= 1.8 then
      Some(MakeScenario(Under25, Min(0.83, 0.65 + (2.0 - avgGoals) * 0.1), Baixo,
                        ["Defesas sólidas", "Baixa média de golos"]))
    else None
  }

  /**
   * Scenario 3, both teams to score or not. The inner `1 - btts >= 0.82`
   * test of the no-score branch always holds once `btts <= 0.18`.
   */
  function BothTeams(home: TeamSnapshot, away: TeamSnapshot): (r: Option<Scenario>)
    ensures (r.Some? && r.value.outcome == BothTeamsScore) <==> BothTeamsScoreProbability(home, away) >= 0.82
    ensures (r.Some? && r.value.outcome == NoBothTeamsScore) <==> BothTeamsScoreProbability(home, away) <= 0.18
    ensures r.Some? ==> PricedAtTarget(r.value) && r.value.confidence >= MinConfidence
    ensures r.Some? ==> r.value.outcome == BothTeamsScore || r.value.outcome == NoBothTeamsScore
  {
    var btts := BothTeamsScoreProbability(home, away);
    if btts >= 0.82 then
      Some(MakeScenario(BothTeamsScore, btts, Medio,
                        ["Ambas equipas com ataques eficazes", "Defesas vulneráveis"]))
    else if btts <= 0.18 then
      var noBtts := 1.0 - btts;
      if noBtts >= 0.82 then
        Some(MakeScenario(NoBothTeamsScore, noBtts, Baixo,
                          ["Uma ou ambas equipas com dificuldades ofensivas", "Defesas sólidas"]))
      else None
    else None
  }

  /** With non-negative scoring rates the both-teams-score proposal can never be made. */
  lemma BothTeamsScoreNeverProposed(home: TeamSnapshot, away: TeamSnapshot)
    requires home.goalsPerMatch >= 0.0 && away.goalsPerMatch >= 0.0
    ensures BothTeams(home, away).None? || BothTeams(home, away).value.outcome == NoBothTeamsScore
  {
  }

  /** Scenario 4, home win or draw. */
  function DoubleChance(home: TeamSnapshot, away: TeamSnapshot, logistic: real -> real): (r: Option<Scenario>)
    ensures r.Some? <==> HomeOrDrawProbability(home, away, logistic) >= MinConfidence
    ensures r.Some? ==> r.value.outcome == HomeOrDraw && r.value.riskLevel == Baixo
                        && PricedAtTarget(r.value) && r.value.confidence >= MinConfidence
  {
    var p := HomeOrDrawProbability(home, away, logistic);
    if p >= 0.82 then
      Some(MakeScenario(HomeOrDraw, p, Baixo, ["Equipa da casa favorita", "Visitante com dificuldades"]))
    else None
  }

  /**
   * Scenario 5, extreme recent form. The form gap is at least 0.5, so
   * `0.7 + gap * 0.3` is at least 0.85 and the cap always applies.
   */
  function ExtremeForm(home: TeamSnapshot, away: TeamSnapshot): (r: Option<Scenario>)
    ensures r.Some? <==> home.formIndex >= 0.8 && away.formIndex <= 0.3
    ensures r.Some? ==> r.value.outcome == HomeWin && r.value.confidence == 0.85
                        && r.value.riskLevel == Medio && PricedAtTarget(r.value)
  {
    if home.formIndex >= 0.8 && away.formIndex <= 0.3 then
      Some(MakeScenario(HomeWin, Min(0.85, 0.7 + (home.formIndex - away.formIndex) * 0.3), Medio,
                        ["Excelente forma da equipa da casa", "Má forma do visitante"]))
    else None
  }

  function AsList<T>(o: Option<T>): seq<T>
  {
    if o.Some? then [o.value] else []
  }

  /** `scenarios`, with the rule's proposal appended when it makes one. */
  function WithProposal(scenarios: seq<Scenario>, proposal: Option<Scenario>): seq<Scenario>
  {
    scenarios + AsList(proposal)
  }

  /** The proposals in rule order. */
  function ScenarioList(home: TeamSnapshot, away: TeamSnapshot, logistic: real -> real): seq<Scenario>
  {
    var afterDominant := WithProposal([], DominantHome(home, away));
    var afterGoals := WithProposal(afterDominant, GoalLine(home, away));
    var afterBoth := WithProposal(afterGoals, BothTeams(home, away));
    var afterDouble := WithProposal(afterBoth, DoubleChance(home, away, logistic));
    WithProposal(afterDouble, ExtremeForm(home, away))
  }

  /** `_identify_125_scenarios`. */
  method IdentifyScenarios(home: TeamSnapshot, away: TeamSnapshot, logistic: real -> real)
    returns (scenarios: seq<Scenario>)
    ensures scenarios == ScenarioList(home, away, logistic)
    ensures |scenarios| <= 5
  {
    scenarios := Propose([], DominantHome(home, away));
    scenarios := Propose(scenarios, GoalLine(home, away));
    scenarios := Propose(scenarios, BothTeams(home, away));
    scenarios := Propose(scenarios, DoubleChance(home, away, logistic));
    scenarios := Propose(scenarios, ExtremeForm(home, away));
  }

  /** One rule's `if ...: scenarios.append(...)`. */
  method Propose(scenarios: seq<Scenario>, proposal: Option<Scenario>) returns (r: seq<Scenario>)
    ensures r == WithProposal(scenarios, proposal)
    ensures |r| <= |scenarios| + 1
  {
    r := scenarios;
    if proposal.Some? {
      r := r + [proposal.value];
    }
  }

  // ---------------------------------------------------------------------
  // Selection of the best proposal
  // ---------------------------------------------------------------------

  /**
   * The running maximum of the selection loop: it starts at 0 with no
   * scenario and is replaced only on a strictly larger confidence.
   */
  function BestSoFar(scs: seq<Scenario>): (r: (real, Option<Scenario>))
    ensures r.0 >= 0.0
    ensures forall j :: 0 <= j < |scs| ==> scs[j].confidence <= r.0
    ensures r.1.None? ==> r.0 == 0.0
    ensures r.1.Some? ==> r.1.value.confidence == r.0
                          && (exists k :: 0 <= k < |scs| && scs[k] == r.1.value
                                          && forall j :: 0 <= j < k ==> scs[j].confidence < r.0)
  {
    if scs == [] then (0.0, None)
    else
      var prev := BestSoFar(scs[..|scs| - 1]);
      var s := scs[|scs| - 1];
      assert forall j :: 0 <= j < |scs| - 1 ==> scs[..|scs| - 1][j] == scs[j];
      if s.confidence > prev.0 then (s.confidence, Some(s)) else prev
  }

  /** The result of `_analyze_match_for_125_odds` for a list of proposals. */
  function SelectBest(scs: seq<Scenario>): (r: Option<Scenario>)
    ensures r.None? <==> forall s :: s in scs ==> s.confidence < MinConfidence
    ensures r.Some? ==> r.value.confidence >= MinConfidence
                        && (exists k :: 0 <= k < |scs| && scs[k] == r.value
                              && (forall j :: 0 <= j < k ==> scs[j].confidence < r.value.confidence)
                              && (forall j :: k < j < |scs| ==> scs[j].confidence <= r.value.confidence))
  {
    var best := BestSoFar(scs);
    if best.0 >= 0.82 then best.1 else None
  }

  /** The selection loop of `_analyze_match_for_125_odds`: strict `>`, starting from 0. */
  method PickBest(scenarios: seq<Scenario>) returns (best: Option<Scenario>)
    ensures best == SelectBest(scenarios)
  {
    var bestScenario: Option<Scenario> := None;
    var maxConfidence := 0.0;
    var i := 0;
    while i < |scenarios|
      invariant 0 <= i <= |scenarios|
      invariant (maxConfidence, bestScenario) == BestSoFar(scenarios[..i])
    {
      assert scenarios[..i + 1][..i] == scenarios[..i];
      if scenarios[i].confidence > maxConfidence {
        maxConfidence := scenarios[i].confidence;
        bestScenario := Some(scenarios[i]);
      }
      i := i + 1;
    }
    assert scenarios[..|scenarios|] == scenarios;
    best := if maxConfidence >= MinConfidence then bestScenario else None;
  }

  /** `_analyze_match_for_125_odds`; both ids are known to be in `teams` (the caller checks). */
  method AnalyzeMatch(homeId: int, awayId: int, teams: map<int, TeamSnapshot>, logistic: real -> real)
    returns (best: Option<Scenario>)
    requires homeId in teams && awayId in teams
    ensures best == SelectBest(ScenarioList(teams[homeId], teams[awayId], logistic))
    ensures best.Some? ==> best.value.confidence >= MinConfidence && PricedAtTarget(best.value)
  {
    var scenarios := IdentifyScenarios(teams[homeId], teams[awayId], logistic);
    best := PickBest(scenarios);
    if best.Some? {
      ScenarioPriced(teams[homeId], teams[awayId], logistic, best.value);
    }
  }

  // ---------------------------------------------------------------------
  // Fixture scan
  // ---------------------------------------------------------------------

  datatype Fixture = Fixture(homeTeamId: int, awayTeamId: int, date: int)

  datatype Opportunity = Opportunity(
    homeTeamId: int, awayTeamId: int, recommendedBet: BetKind,
    confidence: real, probability: real, expectedValue: real,
    riskLevel: Risk, supportingFactors: seq<string>, date: int)

  /** The best proposal for a fixture whose two teams both have data. */
  function FixtureBest(f: Fixture, teams: map<int, TeamSnapshot>, logistic: real -> real): Option<Scenario>
  {
    if f.homeTeamId in teams && f.awayTeamId in teams
    then SelectBest(ScenarioList(teams[f.homeTeamId], teams[f.awayTeamId], logistic))
    else None
  }

  function ToOpportunity(f: Fixture, s: Scenario): Opportunity
  {
    Opportunity(f.homeTeamId, f.awayTeamId, s.outcome, s.confidence, s.probability,
                s.expectedValue, s.riskLevel, s.factors, f.date)
  }

  /** The opportunities before sorting, in fixture order. */
  function Opportunities(fs: seq<Fixture>, teams: map<int, TeamSnapshot>, logistic: real -> real)
    : seq<Opportunity>
  {
    if fs == [] then []
    else
      var rest := Opportunities(fs[..|fs| - 1], teams, logistic);
      var f := fs[|fs| - 1];
      var best := FixtureBest(f, teams, logistic);
      if best.Some? then rest + [ToOpportunity(f, best.value)] else rest
  }

  /** Every reported opportunity has both teams' data, clears 0.82 and is priced at 1.25. */
  lemma {:induction false} OpportunitiesQualify(fs: seq<Fixture>, teams: map<int, TeamSnapshot>, logistic: real -> real)
    ensures forall o :: o in Opportunities(fs, teams, logistic) ==>
      o.confidence >= MinConfidence && o.homeTeamId in teams && o.awayTeamId in teams
      && o.probability == o.confidence && o.expectedValue == TargetOdds * o.confidence - 1.0
  {
    if fs != [] {
      OpportunitiesQualify(fs[..|fs| - 1], teams, logistic);
      var f := fs[|fs| - 1];
      var best := FixtureBest(f, teams, logistic);
      if best.Some? {
        FixtureBestQualifies(f, teams, logistic);
      }
    }
  }

  lemma FixtureBestQualifies(f: Fixture, teams: map<int, TeamSnapshot>, logistic: real -> real)
    requires FixtureBest(f, teams, logistic).Some?
    ensures var s := FixtureBest(f, teams, logistic).value;
      && f.homeTeamId in teams && f.awayTeamId in teams
      && s.confidence >= MinConfidence && PricedAtTarget(s)
  {
    var s := FixtureBest(f, teams, logistic).value;
    ScenarioPriced(teams[f.homeTeamId], teams[f.awayTeamId], logistic, s);
  }

  /** The report is empty exactly when no fixture has a qualifying proposal. */
  lemma {:induction false} OpportunitiesEmpty(fs: seq<Fixture>, teams: map<int, TeamSnapshot>, logistic: real -> real)
    ensures Opportunities(fs, teams, logistic) == [] <==>
      forall i :: 0 <= i < |fs| ==> FixtureBest(fs[i], teams, logistic).None?
  {
    if fs != [] {
      OpportunitiesEmpty(fs[..|fs| - 1], teams, logistic);
      assert forall i :: 0 <= i < |fs| - 1 ==> fs[..|fs| - 1][i] == fs[i];
    }
  }

  lemma ScenarioPriced(home: TeamSnapshot, away: TeamSnapshot, logistic: real -> real, s: Scenario)
    requires s in ScenarioList(home, away, logistic)
    ensures PricedAtTarget(s)
  {
    var afterDominant := WithProposal([], DominantHome(home, away));
    ProposalPriced([], DominantHome(home, away));
    var afterGoals := WithProposal(afterDominant, GoalLine(home, away));
    ProposalPriced(afterDominant, GoalLine(home, away));
    var afterBoth := WithProposal(afterGoals, BothTeams(home, away));
    ProposalPriced(afterGoals, BothTeams(home, away));
    var afterDouble := WithProposal(afterBoth, DoubleChance(home, away, logistic));
    ProposalPriced(afterBoth, DoubleChance(home, away, logistic));
    ProposalPriced(afterDouble, ExtremeForm(home, away));
  }

  /** Appending a priced proposal to priced scenarios keeps them all priced. */
  lemma ProposalPriced(scenarios: seq<Scenario>, proposal: Option<Scenario>)
    requires forall s :: s in scenarios ==> PricedAtTarget(s)
    requires proposal.Some? ==> PricedAtTarget(proposal.value)
    ensures forall s :: s in WithProposal(scenarios, proposal) ==> PricedAtTarget(s)
  {
  }

  /** Confidence first, then expected value, both descending. */
  const ByConfidenceThenValue: (Opportunity, Opportunity) -> bool :=
    (a: Opportunity, b: Opportunity) =>
      a.confidence > b.confidence || (a.confidence == b.confidence && a.expectedValue >= b.expectedValue)

  lemma OpportunityOrderIsPreorder()
    ensures TotalPreorder(ByConfidenceThenValue)
  {
  }

  /**
   * `find_high_confidence_bets` as evidently intended, reading the chosen
   * scenario's own `confidence` (the source reads a key that scenarios do
   * not have; see `HighConfidenceBetsAsWritten`).
   */
  method FindHighConfidenceBets(fixtures: seq<Fixture>, teams: map<int, TeamSnapshot>, logistic: real -> real)
    returns (bets: seq<Opportunity>)
    ensures bets == SortBy(Opportunities(fixtures, teams, logistic), ByConfidenceThenValue)
    ensures SortedBy(bets, ByConfidenceThenValue)
    ensures forall o :: o in bets ==>
      o.confidence >= MinConfidence && o.homeTeamId in teams && o.awayTeamId in teams
    ensures bets == [] <==> forall i :: 0 <= i < |fixtures| ==> FixtureBest(fixtures[i], teams, logistic).None?
  {
    var found := CollectOpportunities(fixtures, teams, logistic);
    OpportunitiesQualify(fixtures, teams, logistic);
    OpportunitiesEmpty(fixtures, teams, logistic);
    bets := SortBy(found, ByConfidenceThenValue);
    OpportunityOrderIsPreorder();
    SortBySorted(found, ByConfidenceThenValue);
    forall o | o in bets ensures o.confidence >= MinConfidence && o.homeTeamId in teams && o.awayTeamId in teams {
      SortByMembers(found, ByConfidenceThenValue, o);
    }
  }

  /** The fixture loop of `find_high_confidence_bets`, before sorting. */
  method CollectOpportunities(fixtures: seq<Fixture>, teams: map<int, TeamSnapshot>, logistic: real -> real)
    returns (found: seq<Opportunity>)
    ensures found == Opportunities(fixtures, teams, logistic)
  {
    found := [];
    var i := 0;
    while i < |fixtures|
      invariant 0 <= i <= |fixtures|
      invariant found == Opportunities(fixtures[..i], teams, logistic)
    {
      assert fixtures[..i + 1][..i] == fixtures[..i];
      var f := fixtures[i];
      if f.homeTeamId !in teams || f.awayTeamId !in teams {
        i := i + 1;
        continue;
      }
      var analysis := AnalyzeMatch(f.homeTeamId, f.awayTeamId, teams, logistic);
      assert analysis == FixtureBest(f, teams, logistic);
      if analysis.Some? && analysis.value.confidence >= MinConfidence {
        found := found + [ToOpportunity(f, analysis.value)];
      }
      i := i + 1;
    }
    assert fixtures[..|fixtures|] == fixtures;
  }

  /**
   * `find_high_confidence_bets` as written: the first fixture with a
   * qualifying scenario makes it read the missing key 'max_confidence' and
   * raise; with none it returns the empty list.
   */
  function HighConfidenceBetsAsWritten(fs: seq<Fixture>, teams: map<int, TeamSnapshot>, logistic: real -> real)
    : Result<seq<Opportunity>, string>
  {
    if fs == [] then Ok([])
    else
      match HighConfidenceBetsAsWritten(fs[..|fs| - 1], teams, logistic)
      case Err(e) => Err(e)
      case Ok(_) =>
        if FixtureBest(fs[|fs| - 1], teams, logistic).Some? then Err("KeyError: 'max_confidence'")
        else Ok([])
  }

  /**
   * The as-written scan never reports an opportunity: it fails exactly when
   * the intended scan has something to report, and otherwise returns [].
   */
  lemma {:induction false} AsWrittenNeverReports(fs: seq<Fixture>, teams: map<int, TeamSnapshot>, logistic: real -> real)
    ensures HighConfidenceBetsAsWritten(fs, teams, logistic).Err? <==> Opportunities(fs, teams, logistic) != []
    ensures HighConfidenceBetsAsWritten(fs, teams, logistic).Ok? ==>
      HighConfidenceBetsAsWritten(fs, teams, logistic).value == []
  {
    if fs != [] {
      AsWrittenNeverReports(fs[..|fs| - 1], teams, logistic);
      OpportunitiesEmpty(fs[..|fs| - 1], teams, logistic);
    }
  }

  /**
   * A concrete fixture: a home side with 2.0 goals scored and 0.5 conceded per
   * match, 70% wins and form 0.8 against a visitor with 0.8, 1.5, 30% and 0.2,
   * both rated 1500. Their strengths are 1695 and 1395, so the dominant-home
   * rule proposes a 0.9 bet and the as-written scan raises.
   */
  lemma AsWrittenFailsOnDominantHome(logistic: real -> real)
    ensures var home := TeamSnapshot(1500.0, 2.0, 0.5, 70.0, 0.8);
      var away := TeamSnapshot(1500.0, 0.8, 1.5, 30.0, 0.2);
      && StrengthDiff(home, away) == 300.0
      && HighConfidenceBetsAsWritten([Fixture(1, 2, 0)], map[1 := home, 2 := away], logistic).Err?
  {
    var home := TeamSnapshot(1500.0, 2.0, 0.5, 70.0, 0.8);
    var away := TeamSnapshot(1500.0, 0.8, 1.5, 30.0, 0.2);
    var teams := map[1 := home, 2 := away];
    assert TeamStrength(home, true) == 1695.0;
    assert TeamStrength(away, false) == 1395.0;
    var scs := ScenarioList(home, away, logistic);
    assert scs[0].confidence == 0.9;
    assert FixtureBest(Fixture(1, 2, 0), teams, logistic).Some?;
    assert [Fixture(1, 2, 0)][..0] == [];
  }
}
