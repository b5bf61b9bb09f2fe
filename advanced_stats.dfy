/**
 * The team estimators of `AdvancedStatsCalculator`: Elo rating, recency-weighted
 * form index, attacking and defensive rates, the home/away split and the
 * head-to-head tally.
 */
module AdvancedStats {
  import opened Wrappers
  import opened Sorting
  import opened Records
  import opened Curves

  // =====================================================================
  // Elo rating
  // =====================================================================

  const KFactor: real := 32.0
  const DefaultRating: real := 1500.0

  /** 1.0 for a win, 0.5 for a draw, 0.0 for a loss. */
  function ActualScore(t: TeamMatch): real
  {
    if IsWin(t) then 1.0 else if IsDraw(t) then 0.5 else 0.0
  }

  /** `match.get('opponent_rating', 1500)`. */
  function OpponentRating(t: TeamMatch): real
  {
    match t.opponentRating
    case Some(r) => r
    case None => DefaultRating
  }

  /**
   * One turn of the Elo loop. `curve(d)` stands for `1 / (1 + 10**(-d/400))`,
   * applied to `d = current - opponent`.
   */
  function EloStep(rating: real, t: TeamMatch, curve: real -> real): (r: real)
    ensures !IsFinished(t.status) ==> r == rating
    ensures IsLogistic(curve) && IsFinished(t.status) ==> rating - KFactor < r < rating + KFactor
    ensures IsLogistic(curve) && IsFinished(t.status) && IsWin(t) ==> r > rating
    ensures IsLogistic(curve) && IsFinished(t.status) && IsLoss(t) ==> r < rating
    ensures IsLogistic(curve) && IsFinished(t.status) && IsDraw(t) ==> rating - KFactor / 2.0 < r < rating + KFactor / 2.0
  {
    if !IsFinished(t.status) then rating
    else rating + KFactor * (ActualScore(t) - curve(rating - OpponentRating(t)))
  }

  /**
   * The rating after playing `ts` in order, starting from `rating`; with no
   * finished match (in particular, no match at all) it is the starting rating.
   */
  function EloFrom(ts: seq<TeamMatch>, rating: real, curve: real -> real): (r: real)
    ensures (forall i :: 0 <= i < |ts| ==> !IsFinished(ts[i].status)) ==> r == rating
  {
    if ts == [] then rating
    else EloStep(EloFrom(ts[..|ts| - 1], rating, curve), ts[|ts| - 1], curve)
  }

  const ByDateAscending: (TeamMatch, TeamMatch) -> bool := (a: TeamMatch, b: TeamMatch) => a.date <= b.date
  const ByDateDescending: (TeamMatch, TeamMatch) -> bool := (a: TeamMatch, b: TeamMatch) => a.date >= b.date

  lemma DateOrdersArePreorders()
    ensures TotalPreorder(ByDateAscending)
    ensures TotalPreorder(ByDateDescending)
  {
  }

  /** The rating after the first `i + 1` matches is one Elo step from the rating after the first `i`. */
  lemma EloFromStep(ts: seq<TeamMatch>, i: nat, rating: real, curve: real -> real)
    requires i < |ts|
    ensures EloFrom(ts[..i + 1], rating, curve) == EloStep(EloFrom(ts[..i], rating, curve), ts[i], curve)
  {
    var next := ts[..i + 1];
    assert next[..|next| - 1] == ts[..i];
    assert next[|next| - 1] == ts[i];
  }

  /** One turn of the Elo loop: skip an unfinished match, else move towards the actual score. */
  method EloTurn(rating: real, m: TeamMatch, curve: real -> real) returns (next: real)
    ensures next == EloStep(rating, m, curve)
  {
    if m.status != Finished {
      return rating;
    }
    var opponentRating := OpponentRating(m);
    var expectedScore := curve(rating - opponentRating);
    var actualScore := if m.goalsFor > m.goalsAgainst then 1.0
                       else if m.goalsFor == m.goalsAgainst then 0.5 else 0.0;
    next := rating + KFactor * (actualScore - expectedScore);
  }

  /** `calculate_elo_rating`: replays the matches in ascending date order. */
  method CalculateEloRating(teamMatches: seq<TeamMatch>, initialRating: real, curve: real -> real)
    returns (rating: real)
    ensures rating == EloFrom(SortBy(teamMatches, ByDateAscending), initialRating, curve)
    ensures (forall t :: t in teamMatches ==> !IsFinished(t.status)) ==> rating == initialRating
  {
    var ordered := SortBy(teamMatches, ByDateAscending);
    rating := initialRating;
    var i := 0;
    while i < |ordered|
      invariant 0 <= i <= |ordered|
      invariant rating == EloFrom(ordered[..i], initialRating, curve)
    {
      EloFromStep(ordered, i, initialRating, curve);
      rating := EloTurn(rating, ordered[i], curve);
      i := i + 1;
    }
    assert ordered[..|ordered|] == ordered;
    if forall t :: t in teamMatches ==> !IsFinished(t.status) {
      forall i | 0 <= i < |ordered| ensures !IsFinished(ordered[i].status) {
        SortByMembers(teamMatches, ByDateAscending, ordered[i]);
      }
    }
  }

  /** Each finished match moves the rating by less than K, so n finished matches by less than n*K. */
  lemma {:induction false} EloDrift(ts: seq<TeamMatch>, rating: real, curve: real -> real)
    requires IsLogistic(curve)
    ensures var n := |FinishedOnly(ts)| as real;
      rating - KFactor * n <= EloFrom(ts, rating, curve) <= rating + KFactor * n
    ensures |FinishedOnly(ts)| > 0 ==>
      var n := |FinishedOnly(ts)| as real;
      rating - KFactor * n < EloFrom(ts, rating, curve) < rating + KFactor * n
  {
    if ts != [] {
      EloDrift(ts[..|ts| - 1], rating, curve);
    }
  }

  /** A history in which every finished match is a win, with at least one, ends above the start. */
  lemma {:induction false} EloWinsRaise(ts: seq<TeamMatch>, rating: real, curve: real -> real)
    requires IsLogistic(curve)
    requires forall t :: t in ts && IsFinished(t.status) ==> IsWin(t)
    ensures EloFrom(ts, rating, curve) >= rating
    ensures |FinishedOnly(ts)| > 0 ==> EloFrom(ts, rating, curve) > rating
  {
    if ts != [] {
      EloWinsRaise(ts[..|ts| - 1], rating, curve);
    }
  }

  // =====================================================================
  // Form index
  // =====================================================================

  const FormWindow: nat := 10
  const NeutralForm: real := 0.5
  const DefaultDecay: real := 0.9

  /** Result score plus the goal-margin bonus, which only wins receive. */
  function MatchScore(t: TeamMatch): (s: real)
    ensures IsLoss(t) ==> s == 0.0
    ensures IsDraw(t) ==> s == 0.5
    ensures IsWin(t) ==> 1.0 < s <= 1.2 && s == 1.0 + Min(0.2, 0.05 * (t.goalsFor - t.goalsAgainst) as real)
  {
    var base := ActualScore(t);
    var bonus := Min(0.2, (Abs(t.goalsFor - t.goalsAgainst) as real) * 0.05);
    if t.goalsFor > t.goalsAgainst then base + bonus else base
  }

  function Power(x: real, n: nat): real
  {
    if n == 0 then 1.0 else x * Power(x, n - 1)
  }

  lemma {:induction false} PowerPositive(x: real, n: nat)
    requires x > 0.0
    ensures Power(x, n) > 0.0
  {
    if n > 0 {
      PowerPositive(x, n - 1);
    }
  }

  lemma {:induction false} PowerNonNegative(x: real, n: nat)
    requires x >= 0.0
    ensures Power(x, n) >= 0.0
  {
    if n > 0 {
      PowerNonNegative(x, n - 1);
    }
  }

  /**
   * The weighted score and the total weight over a window. The match at
   * position i weighs decay^i; a non-finished match adds nothing but still
   * holds its position.
   */
  function WindowSums(w: seq<TeamMatch>, decay: real): (real, real)
  {
    if w == [] then (0.0, 0.0)
    else
      var sums := WindowSums(w[..|w| - 1], decay);
      var t := w[|w| - 1];
      var weight := Power(decay, |w| - 1);
      if !IsFinished(t.status) then sums
      else (sums.0 + MatchScore(t) * weight, sums.1 + weight)
  }

  /** What the match at position `i` adds to the sums over the first `i` matches. */
  lemma WindowSumsStep(w: seq<TeamMatch>, i: nat, decay: real)
    requires i < |w|
    ensures !IsFinished(w[i].status) ==> WindowSums(w[..i + 1], decay) == WindowSums(w[..i], decay)
    ensures IsFinished(w[i].status) ==>
      && WindowSums(w[..i + 1], decay).0 == WindowSums(w[..i], decay).0 + MatchScore(w[i]) * Power(decay, i)
      && WindowSums(w[..i + 1], decay).1 == WindowSums(w[..i], decay).1 + Power(decay, i)
  {
    var next := w[..i + 1];
    assert next[..|next| - 1] == w[..i];
    assert next[|next| - 1] == w[i];
  }

  /** The ten most recent matches, newest first. */
  function RecentWindow(ms: seq<TeamMatch>): seq<TeamMatch>
  {
    FirstN(SortBy(ms, ByDateDescending), FormWindow)
  }

  function FormIndexOf(ms: seq<TeamMatch>, decay: real): (f: real)
    ensures var sums := WindowSums(RecentWindow(ms), decay);
      && (ms != [] && sums.1 > 0.0 ==> f * sums.1 == sums.0)
      && (ms == [] || sums.1 <= 0.0 ==> f == NeutralForm)
  {
    if ms == [] then NeutralForm
    else
      var sums := WindowSums(RecentWindow(ms), decay);
      if sums.1 > 0.0 then sums.0 / sums.1 else NeutralForm
  }

  /** One turn of the form loop: an unfinished match adds nothing, a finished one its weighted score. */
  method WindowTurn(formScore: real, totalWeight: real, m: TeamMatch, weight: real)
    returns (formScore': real, totalWeight': real)
    ensures !IsFinished(m.status) ==> formScore' == formScore && totalWeight' == totalWeight
    ensures IsFinished(m.status) ==>
      formScore' == formScore + MatchScore(m) * weight && totalWeight' == totalWeight + weight
  {
    if m.status != Finished {
      return formScore, totalWeight;
    }
    var matchScore := if m.goalsFor > m.goalsAgainst then 1.0
                      else if m.goalsFor == m.goalsAgainst then 0.5 else 0.0;
    var goalDiffBonus := Min(0.2, (Abs(m.goalsFor - m.goalsAgainst) as real) * 0.05);
    if m.goalsFor > m.goalsAgainst {
      matchScore := matchScore + goalDiffBonus;
    }
    assert matchScore == MatchScore(m);
    formScore' := formScore + matchScore * weight;
    totalWeight' := totalWeight + weight;
  }

  /** The accumulation loop of `calculate_form_index` over the ten-match window. */
  method AccumulateWindow(window: seq<TeamMatch>, weightDecay: real)
    returns (formScore: real, totalWeight: real)
    ensures (formScore, totalWeight) == WindowSums(window, weightDecay)
  {
    formScore, totalWeight := 0.0, 0.0;
    var i := 0;
    while i < |window|
      invariant 0 <= i <= |window|
      invariant formScore == WindowSums(window[..i], weightDecay).0
      invariant totalWeight == WindowSums(window[..i], weightDecay).1
    {
      WindowSumsStep(window, i, weightDecay);
      var weight := Power(weightDecay, i);
      formScore, totalWeight := WindowTurn(formScore, totalWeight, window[i], weight);
      i := i + 1;
    }
    assert window[..|window|] == window;
  }

  /** `calculate_form_index`. */
  method CalculateFormIndex(recentMatches: seq<TeamMatch>, weightDecay: real) returns (form: real)
    ensures form == FormIndexOf(recentMatches, weightDecay)
    ensures weightDecay >= 0.0 ==> 0.0 <= form <= 1.2
  {
    if recentMatches == [] {
      return NeutralForm;
    }
    var window := FirstN(SortBy(recentMatches, ByDateDescending), FormWindow);
    var formScore, totalWeight := AccumulateWindow(window, weightDecay);
    form := if totalWeight > 0.0 then formScore / totalWeight else NeutralForm;
    if weightDecay >= 0.0 {
      FormIndexBounds(recentMatches, weightDecay);
    }
  }

  lemma {:induction false} WindowSumsBounds(w: seq<TeamMatch>, decay: real)
    requires decay >= 0.0
    ensures WindowSums(w, decay).1 >= 0.0
    ensures 0.0 <= WindowSums(w, decay).0 <= 1.2 * WindowSums(w, decay).1
  {
    if w != [] {
      var sums := WindowSums(w[..|w| - 1], decay);
      WindowSumsBounds(w[..|w| - 1], decay);
      var t := w[|w| - 1];
      if IsFinished(t.status) {
        PowerNonNegative(decay, |w| - 1);
        StepBounds(sums, MatchScore(t), Power(decay, |w| - 1));
      }
    }
  }

  /** Adding a score of at most 1.2 at a non-negative weight keeps the sums within the bound. */
  lemma StepBounds(sums: (real, real), score: real, weight: real)
    requires 0.0 <= sums.0 <= 1.2 * sums.1 && weight >= 0.0 && 0.0 <= score <= 1.2
    ensures 0.0 <= sums.0 + score * weight <= 1.2 * (sums.1 + weight)
  {
    MulBounds(score, weight, 1.2);
  }

  /** The form index lies in [0, 1.2]: it is not clamped to 1. */
  lemma FormIndexBounds(ms: seq<TeamMatch>, decay: real)
    requires decay >= 0.0
    ensures 0.0 <= FormIndexOf(ms, decay) <= 1.2
  {
    if ms != [] {
      var sums := WindowSums(RecentWindow(ms), decay);
      WindowSumsBounds(RecentWindow(ms), decay);
      if sums.1 > 0.0 {
        assert sums.0 / sums.1 <= 1.2 by {
          assert sums.0 <= 1.2 * sums.1;
        }
      }
    }
  }

  lemma {:induction false} WindowSumsIdle(w: seq<TeamMatch>, decay: real)
    requires forall t :: t in w ==> !IsFinished(t.status)
    ensures WindowSums(w, decay) == (0.0, 0.0)
  {
    if w != [] {
      WindowSumsIdle(w[..|w| - 1], decay);
    }
  }

  /** Empty input, or no finished match among the ten most recent: neutral 0.5. */
  lemma FormNeutralWithoutFinished(ms: seq<TeamMatch>, decay: real)
    requires forall t :: t in RecentWindow(ms) ==> !IsFinished(t.status)
    ensures FormIndexOf(ms, decay) == NeutralForm
  {
    if ms != [] {
      WindowSumsIdle(RecentWindow(ms), decay);
    }
  }

  lemma {:induction false} WindowWeightPositive(w: seq<TeamMatch>, decay: real)
    requires decay > 0.0
    requires exists t :: t in w && IsFinished(t.status)
    ensures WindowSums(w, decay).1 > 0.0
  {
    var t :| t in w && IsFinished(t.status);
    var last := w[|w| - 1];
    PowerPositive(decay, |w| - 1);
    if IsFinished(last.status) {
      WindowSumsBounds(w[..|w| - 1], decay);
    } else {
      assert w == w[..|w| - 1] + [last];
      assert t in w[..|w| - 1];
      WindowWeightPositive(w[..|w| - 1], decay);
    }
  }

  lemma {:induction false} WindowScoreZeroOnLosses(w: seq<TeamMatch>, decay: real)
    requires forall t :: t in w && IsFinished(t.status) ==> IsLoss(t)
    ensures WindowSums(w, decay).0 == 0.0
  {
    if w != [] {
      WindowScoreZeroOnLosses(w[..|w| - 1], decay);
    }
  }

  /** Only losses among the finished recent matches (and at least one of them): form 0. */
  lemma FormZeroOnLosses(ms: seq<TeamMatch>, decay: real)
    requires decay > 0.0
    requires exists t :: t in RecentWindow(ms) && IsFinished(t.status)
    requires forall t :: t in RecentWindow(ms) && IsFinished(t.status) ==> IsLoss(t)
    ensures FormIndexOf(ms, decay) == 0.0
  {
    WindowWeightPositive(RecentWindow(ms), decay);
    WindowScoreZeroOnLosses(RecentWindow(ms), decay);
  }

  /** 0 <= x <= c and y >= 0 give 0 <= x*y <= c*y. */
  lemma MulBounds(x: real, y: real, c: real)
    requires 0.0 <= x <= c && y >= 0.0
    ensures 0.0 <= x * y <= c * y
  {
  }

  /** `q` is the average of `total` over `n` items. */
  predicate IsMeanOf(q: real, total: nat, n: nat)
  {
    q * (n as real) == total as real
  }

  /** `total / n` when `n > 0`, else 0: the per-match rates of the source. */
  function Mean(total: nat, n: nat): (q: real)
    ensures q >= 0.0
    ensures n == 0 ==> q == 0.0
    ensures n > 0 ==> IsMeanOf(q, total, n)
  {
    if n == 0 then 0.0 else total as real / n as real
  }

  /** At most c per item on average when the total is at most c per item. */
  lemma MeanAtMost(total: nat, n: nat, c: nat)
    requires total <= c * n
    ensures Mean(total, n) <= c as real
  {
    if n > 0 {
      assert (total as real) <= (c as real) * (n as real);
    }
  }

  // =====================================================================
  // Attacking and defensive rates
  // =====================================================================

  datatype AttackStats = AttackStats(goalsPerMatch: real, shotsConversion: real, attackingThirdEntries: real)

  /** `calculate_attacking_efficiency` (the shot figures are the source's stand-in estimates). */
  function AttackingEfficiency(ts: seq<TeamMatch>): (r: AttackStats)
    ensures |FinishedOnly(ts)| == 0 ==> r == AttackStats(0.0, 0.0, 0.0)
    ensures |FinishedOnly(ts)| > 0 ==>
      IsMeanOf(r.goalsPerMatch, GoalsFor(FinishedOnly(ts)), |FinishedOnly(ts)|)
    ensures 0.0 <= r.goalsPerMatch && 0.0 <= r.shotsConversion <= 0.3 && 0.0 <= r.attackingThirdEntries
    ensures r.goalsPerMatch <= 2.0 ==> r.shotsConversion == 0.15 * r.goalsPerMatch
    ensures r.shotsConversion == Min(0.3, 0.15 * r.goalsPerMatch) && r.attackingThirdEntries == 8.0 * r.goalsPerMatch
  {
    if ts == [] then AttackStats(0.0, 0.0, 0.0)
    else
      var finished := FinishedOnly(ts);
      var goalsPerMatch := Mean(GoalsFor(finished), |finished|);
      AttackStats(goalsPerMatch, Min(0.3, goalsPerMatch * 0.15), goalsPerMatch * 8.0)
  }

  datatype DefenseStats = DefenseStats(goalsConcededPerMatch: real, cleanSheetsRatio: real, defensiveActions: real)

  /** `calculate_defensive_solidity`. */
  function DefensiveSolidity(ts: seq<TeamMatch>): (r: DefenseStats)
    ensures ts == [] ==> r == DefenseStats(0.0, 0.0, 0.0)
    ensures ts != [] && |FinishedOnly(ts)| == 0 ==> r == DefenseStats(0.0, 0.0, 20.0)
    ensures |FinishedOnly(ts)| > 0 ==>
      && IsMeanOf(r.goalsConcededPerMatch, GoalsAgainst(FinishedOnly(ts)), |FinishedOnly(ts)|)
      && IsMeanOf(r.cleanSheetsRatio, CleanSheets(FinishedOnly(ts)), |FinishedOnly(ts)|)
    ensures 0.0 <= r.goalsConcededPerMatch
    ensures 0.0 <= r.cleanSheetsRatio <= 1.0
    ensures 0.0 <= r.defensiveActions <= 20.0
    ensures ts != [] ==> r.defensiveActions == Max(0.0, 20.0 - 5.0 * r.goalsConcededPerMatch)
  {
    if ts == [] then DefenseStats(0.0, 0.0, 0.0)
    else
      var finished := FinishedOnly(ts);
      CleanSheetsBound(finished);
      MeanAtMost(CleanSheets(finished), |finished|, 1);
      var conceded := Mean(GoalsAgainst(finished), |finished|);
      DefenseStats(conceded, Mean(CleanSheets(finished), |finished|), Max(0.0, 20.0 - conceded * 5.0))
  }

  // =====================================================================
  // Home / away split
  // =====================================================================

  datatype VenueRecord = VenueRecord(
    wins: nat, draws: nat, losses: nat,
    goalsFor: nat, goalsAgainst: nat, pointsPerMatch: real)

  datatype HomeAway = HomeAway(home: VenueRecord, away: VenueRecord)

  /** The inner `calculate_performance` of `calculate_home_away_performance`. */
  function VenuePerformance(ts: seq<TeamMatch>): (r: VenueRecord)
    ensures r.wins == Wins(ts) && r.draws == Draws(ts) && r.losses == Losses(ts)
    ensures r.goalsFor == GoalsFor(ts) && r.goalsAgainst == GoalsAgainst(ts)
    ensures r.wins + r.draws + r.losses == |ts|
    ensures 0.0 <= r.pointsPerMatch <= 3.0
    ensures ts == [] ==> r == VenueRecord(0, 0, 0, 0, 0, 0.0)
    ensures ts != [] ==> IsMeanOf(r.pointsPerMatch, 3 * r.wins + r.draws, |ts|)
  {
    if ts == [] then VenueRecord(0, 0, 0, 0, 0, 0.0)
    else
      var wins := Wins(ts);
      var draws := Draws(ts);
      ResultsPartition(ts);
      var points := wins * 3 + draws;
      MeanAtMost(points, |ts|, 3);
      var ppm := Mean(points, |ts|);
      VenueRecord(wins, draws, Losses(ts), GoalsFor(ts), GoalsAgainst(ts), ppm)
  }

  /** The finished matches played at home (`atHome`) or away, in input order. */
  function AtVenue(ts: seq<TeamMatch>, atHome: bool): (r: seq<TeamMatch>)
    ensures forall t :: t in r <==> t in ts && t.isHome == atHome && IsFinished(t.status)
  {
    if ts == [] then []
    else
      var rest := AtVenue(ts[..|ts| - 1], atHome);
      var t := ts[|ts| - 1];
      assert ts == ts[..|ts| - 1] + [t];
      if t.isHome == atHome && IsFinished(t.status) then rest + [t] else rest
  }

  /** `calculate_home_away_performance`. */
  function HomeAwayPerformance(ts: seq<TeamMatch>): (r: HomeAway)
    ensures r.home.wins + r.home.draws + r.home.losses + r.away.wins + r.away.draws + r.away.losses
            == |FinishedOnly(ts)|
  {
    VenueSplit(ts);
    HomeAway(VenuePerformance(AtVenue(ts, true)), VenuePerformance(AtVenue(ts, false)))
  }

  /** Every finished match is in exactly one of the two partitions. */
  lemma {:induction false} VenueSplit(ts: seq<TeamMatch>)
    ensures |AtVenue(ts, true)| + |AtVenue(ts, false)| == |FinishedOnly(ts)|
  {
    if ts != [] {
      VenueSplit(ts[..|ts| - 1]);
    }
  }

  // =====================================================================
  // Head to head
  // =====================================================================

  datatype Advantage = Team1 | Team2 | Neutral

  datatype HeadToHead = HeadToHead(
    totalMatches: nat, team1Wins: nat, team2Wins: nat, draws: nat, advantage: Advantage)

  const NoHeadToHead: HeadToHead := HeadToHead(0, 0, 0, 0, Neutral)

  predicate IsPairing(m: MatchRecord, team1: int, team2: int)
  {
    && ((m.homeTeamId == team1 && m.awayTeamId == team2) || (m.homeTeamId == team2 && m.awayTeamId == team1))
    && IsFinished(m.status)
  }

  /** The finished matches between the two teams, in either venue order. */
  function Pairings(ms: seq<MatchRecord>, team1: int, team2: int): (r: seq<MatchRecord>)
    ensures forall m :: m in r <==> m in ms && IsPairing(m, team1, team2)
  {
    if ms == [] then []
    else
      var rest := Pairings(ms[..|ms| - 1], team1, team2);
      var m := ms[|ms| - 1];
      assert ms == ms[..|ms| - 1] + [m];
      if IsPairing(m, team1, team2) then rest + [m] else rest
  }

  /** Team 1's goals: the home score iff team 1 is the home team. */
  function Team1Goals(m: MatchRecord, team1: int): nat
  {
    if m.homeTeamId == team1 then m.homeScore else m.awayScore
  }

  function Team2Goals(m: MatchRecord, team1: int): nat
  {
    if m.homeTeamId == team1 then m.awayScore else m.homeScore
  }

  function Team1Wins(ps: seq<MatchRecord>, team1: int): nat
  {
    if ps == [] then 0
    else Team1Wins(ps[..|ps| - 1], team1)
         + (if Team1Goals(ps[|ps| - 1], team1) > Team2Goals(ps[|ps| - 1], team1) then 1 else 0)
  }

  function Team2Wins(ps: seq<MatchRecord>, team1: int): nat
  {
    if ps == [] then 0
    else Team2Wins(ps[..|ps| - 1], team1)
         + (if Team1Goals(ps[|ps| - 1], team1) < Team2Goals(ps[|ps| - 1], team1) then 1 else 0)
  }

  function PairDraws(ps: seq<MatchRecord>): nat
  {
    if ps == [] then 0
    else PairDraws(ps[..|ps| - 1]) + (if ps[|ps| - 1].homeScore == ps[|ps| - 1].awayScore then 1 else 0)
  }

  function AdvantageOf(team1Wins: nat, team2Wins: nat): Advantage
  {
    if team1Wins > team2Wins then Team1 else if team2Wins > team1Wins then Team2 else Neutral
  }

  lemma {:induction false} PairingTally(ps: seq<MatchRecord>, team1: int)
    ensures Team1Wins(ps, team1) + Team2Wins(ps, team1) + PairDraws(ps) == |ps|
  {
    if ps != [] {
      PairingTally(ps[..|ps| - 1], team1);
    }
  }

  /** The record `calculate_head_to_head_record` returns. */
  function HeadToHeadOf(team1: int, team2: int, ms: seq<MatchRecord>): (r: HeadToHead)
    ensures r.totalMatches == |Pairings(ms, team1, team2)|
    ensures var ps := Pairings(ms, team1, team2);
      && r.team1Wins == Team1Wins(ps, team1)
      && r.team2Wins == Team2Wins(ps, team1)
      && r.draws == PairDraws(ps)
    ensures r.team1Wins + r.team2Wins + r.draws == r.totalMatches
    ensures r.totalMatches == 0 ==> r == NoHeadToHead
    ensures r.advantage == Team1 <==> r.team1Wins > r.team2Wins
    ensures r.advantage == Team2 <==> r.team2Wins > r.team1Wins
  {
    var ps := Pairings(ms, team1, team2);
    PairingTally(ps, team1);
    if ps == [] then NoHeadToHead
    else
      var w1 := Team1Wins(ps, team1);
      var w2 := Team2Wins(ps, team1);
      HeadToHead(|ps|, w1, w2, PairDraws(ps), AdvantageOf(w1, w2))
  }

  /** `calculate_head_to_head_record`: filters the pairings, then counts in one loop. */
  method CalculateHeadToHead(team1: int, team2: int, ms: seq<MatchRecord>) returns (r: HeadToHead)
    ensures r == HeadToHeadOf(team1, team2, ms)
  {
    var h2hMatches := Pairings(ms, team1, team2);
    if h2hMatches == [] {
      return NoHeadToHead;
    }
    var team1Wins, team2Wins, draws := 0, 0, 0;
    var i := 0;
    while i < |h2hMatches|
      invariant 0 <= i <= |h2hMatches|
      invariant team1Wins == Team1Wins(h2hMatches[..i], team1)
      invariant team2Wins == Team2Wins(h2hMatches[..i], team1)
      invariant draws == PairDraws(h2hMatches[..i])
    {
      assert h2hMatches[..i + 1][..i] == h2hMatches[..i];
      var m := h2hMatches[i];
      if m.homeTeamId == team1 {
        if m.homeScore > m.awayScore {
          team1Wins := team1Wins + 1;
        } else if m.homeScore < m.awayScore {
          team2Wins := team2Wins + 1;
        } else {
          draws := draws + 1;
        }
      } else {
        if m.awayScore > m.homeScore {
          team1Wins := team1Wins + 1;
        } else if m.awayScore < m.homeScore {
          team2Wins := team2Wins + 1;
        } else {
          draws := draws + 1;
        }
      }
      i := i + 1;
    }
    assert h2hMatches[..|h2hMatches|] == h2hMatches;
    var advantage := if team1Wins > team2Wins then Team1
                     else if team2Wins > team1Wins then Team2 else Neutral;
    r := HeadToHead(|h2hMatches|, team1Wins, team2Wins, draws, advantage);
  }

  function Flip(a: Advantage): Advantage
  {
    match a
    case Team1 => Team2
    case Team2 => Team1
    case Neutral => Neutral
  }

  lemma {:induction false} PairingsSymmetric(ms: seq<MatchRecord>, team1: int, team2: int)
    ensures Pairings(ms, team1, team2) == Pairings(ms, team2, team1)
  {
    if ms != [] {
      PairingsSymmetric(ms[..|ms| - 1], team1, team2);
    }
  }

  lemma {:induction false} WinsSwap(ps: seq<MatchRecord>, team1: int, team2: int)
    requires team1 != team2
    requires forall m :: m in ps ==> IsPairing(m, team1, team2)
    ensures Team1Wins(ps, team2) == Team2Wins(ps, team1)
    ensures Team2Wins(ps, team2) == Team1Wins(ps, team1)
  {
    if ps != [] {
      var m := ps[|ps| - 1];
      assert m in ps;
      assert Team1Goals(m, team2) == Team2Goals(m, team1);
      assert Team2Goals(m, team2) == Team1Goals(m, team1);
      WinsSwap(ps[..|ps| - 1], team1, team2);
    }
  }

  /** Swapping the two team ids swaps the win counts and flips the advantage. */
  lemma HeadToHeadSwap(team1: int, team2: int, ms: seq<MatchRecord>)
    requires team1 != team2
    ensures var r := HeadToHeadOf(team1, team2, ms);
      HeadToHeadOf(team2, team1, ms)
        == HeadToHead(r.totalMatches, r.team2Wins, r.team1Wins, r.draws, Flip(r.advantage))
  {
    PairingsSymmetric(ms, team1, team2);
    WinsSwap(Pairings(ms, team1, team2), team1, team2);
  }
}
