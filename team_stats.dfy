/**
 * `StatsCalculator.calculate_team_stats`: the league-level counters of one
 * team over a list of stored matches. Only finished matches in which the
 * team plays count; goals are read from the team's own side.
 */
module StatsCalculator {
  import opened Records
  import opened AdvancedStats

  datatype TeamStats = TeamStats(
    matchesPlayed: nat, wins: nat, draws: nat, losses: nat,
    goalsFor: nat, goalsAgainst: nat,
    goalsPerMatch: real, goalsConcededPerMatch: real, winPercentage: real)

  /** A match the loop counts: finished, with the team on one side. */
  predicate Counts(m: MatchRecord, teamId: int)
  {
    IsFinished(m.status) && Involves(m, teamId)
  }

  /** The counted matches, seen from the team, in input order. */
  function Counted(ms: seq<MatchRecord>, teamId: int): (r: seq<TeamMatch>)
    ensures |r| <= |ms|
    ensures forall t :: t in r <==> exists m :: m in ms && Counts(m, teamId) && t == ForTeam(m, teamId)
  {
    if ms == [] then []
    else
      var rest := Counted(ms[..|ms| - 1], teamId);
      var m := ms[|ms| - 1];
      assert ms == ms[..|ms| - 1] + [m];
      if Counts(m, teamId) then rest + [ForTeam(m, teamId)] else rest
  }

  /** The statistics of the counted matches; all rates stay 0 when none counts. */
  function StatsOf(ms: seq<MatchRecord>, teamId: int): TeamStats
  {
    var ts := Counted(ms, teamId);
    var played := |ts|;
    TeamStats(played, Wins(ts), Draws(ts), Losses(ts), GoalsFor(ts), GoalsAgainst(ts),
              Mean(GoalsFor(ts), played), Mean(GoalsAgainst(ts), played),
              if played > 0 then (Wins(ts) as real) / (played as real) * 100.0 else 0.0)
  }

  /** The loop counters after the matches seen so far. */
  datatype Tally = Tally(played: nat, wins: nat, draws: nat, losses: nat, goalsFor: nat, goalsAgainst: nat)

  function TallyOf(ts: seq<TeamMatch>): Tally
  {
    Tally(|ts|, Wins(ts), Draws(ts), Losses(ts), GoalsFor(ts), GoalsAgainst(ts))
  }

  /** The counters with one more match, seen from the team. */
  function Add(tally: Tally, t: TeamMatch): Tally
  {
    Tally(tally.played + 1,
          tally.wins + (if IsWin(t) then 1 else 0),
          tally.draws + (if IsDraw(t) then 1 else 0),
          tally.losses + (if IsLoss(t) then 1 else 0),
          tally.goalsFor + t.goalsFor, tally.goalsAgainst + t.goalsAgainst)
  }

  /** One turn of the loop: skip the match, or count it from the team's side. */
  method CountMatch(tally: Tally, m: MatchRecord, teamId: int) returns (next: Tally)
    ensures Counts(m, teamId) ==> next == Add(tally, ForTeam(m, teamId))
    ensures !Counts(m, teamId) ==> next == tally
  {
    next := tally;
    if m.status != Finished {
      return;
    }
    var isHome := m.homeTeamId == teamId;
    var isAway := m.awayTeamId == teamId;
    if !(isHome || isAway) {
      return;
    }
    var goalsFor, goalsAgainst;
    if isHome {
      goalsFor, goalsAgainst := m.homeScore, m.awayScore;
    } else {
      goalsFor, goalsAgainst := m.awayScore, m.homeScore;
    }
    next := next.(played := next.played + 1,
                  goalsFor := next.goalsFor + goalsFor,
                  goalsAgainst := next.goalsAgainst + goalsAgainst);
    if goalsFor > goalsAgainst {
      next := next.(wins := next.wins + 1);
    } else if goalsFor == goalsAgainst {
      next := next.(draws := next.draws + 1);
    } else {
      next := next.(losses := next.losses + 1);
    }
  }

  /** The counters after one more match are those of the longer prefix. */
  lemma CountedStep(ms: seq<MatchRecord>, teamId: int, i: nat)
    requires i < |ms|
    ensures Counted(ms[..i + 1], teamId) ==
      Counted(ms[..i], teamId) + (if Counts(ms[i], teamId) then [ForTeam(ms[i], teamId)] else [])
  {
    assert ms[..i + 1][..i] == ms[..i];
  }

  /** The counters of one more counted match. */
  lemma TallyStep(ts: seq<TeamMatch>, t: TeamMatch)
    ensures TallyOf(ts + [t]) == Add(TallyOf(ts), t)
  {
    assert (ts + [t])[..|ts|] == ts;
  }

  /** The loop over the matches. */
  method CountMatches(ms: seq<MatchRecord>, teamId: int) returns (tally: Tally)
    ensures tally == TallyOf(Counted(ms, teamId))
  {
    tally := Tally(0, 0, 0, 0, 0, 0);
    var i := 0;
    while i < |ms|
      invariant 0 <= i <= |ms|
      invariant tally == TallyOf(Counted(ms[..i], teamId))
    {
      CountedStep(ms, teamId, i);
      if Counts(ms[i], teamId) {
        TallyStep(Counted(ms[..i], teamId), ForTeam(ms[i], teamId));
      } else {
        assert Counted(ms[..i + 1], teamId) == Counted(ms[..i], teamId);
      }
      tally := CountMatch(tally, ms[i], teamId);
      i := i + 1;
    }
    assert ms[..|ms|] == ms;
  }

  /** `calculate_team_stats`. */
  method CalculateTeamStats(ms: seq<MatchRecord>, teamId: int) returns (stats: TeamStats)
    ensures stats == StatsOf(ms, teamId)
    ensures stats.wins + stats.draws + stats.losses == stats.matchesPlayed
    ensures stats.matchesPlayed == 0 ==>
      stats.goalsPerMatch == 0.0 && stats.goalsConcededPerMatch == 0.0 && stats.winPercentage == 0.0
    ensures stats.matchesPlayed > 0 ==>
      && IsMeanOf(stats.goalsPerMatch, stats.goalsFor, stats.matchesPlayed)
      && IsMeanOf(stats.goalsConcededPerMatch, stats.goalsAgainst, stats.matchesPlayed)
      && 0.0 <= stats.winPercentage <= 100.0
  {
    var tally := CountMatches(ms, teamId);
    var goalsPerMatch, goalsConcededPerMatch, winPercentage := 0.0, 0.0, 0.0;
    if tally.played > 0 {
      goalsPerMatch := tally.goalsFor as real / tally.played as real;
      goalsConcededPerMatch := tally.goalsAgainst as real / tally.played as real;
      winPercentage := (tally.wins as real) / (tally.played as real) * 100.0;
    }
    stats := TeamStats(tally.played, tally.wins, tally.draws, tally.losses, tally.goalsFor, tally.goalsAgainst,
                       goalsPerMatch, goalsConcededPerMatch, winPercentage);
    PlayedPartition(ms, teamId);
    WinPercentageWithin(ms, teamId);
  }

  // ---------------------------------------------------------------------
  // Properties of the statistics
  // ---------------------------------------------------------------------

  /** Every counted match is a win, a draw or a loss. */
  lemma PlayedPartition(ms: seq<MatchRecord>, teamId: int)
    ensures var s := StatsOf(ms, teamId); s.wins + s.draws + s.losses == s.matchesPlayed
  {
    ResultsPartition(Counted(ms, teamId));
  }

  lemma {:induction false} WinsAtMost(ts: seq<TeamMatch>)
    ensures Wins(ts) <= |ts|
  {
    if ts != [] {
      WinsAtMost(ts[..|ts| - 1]);
    }
  }

  /** The win percentage is the share of wins among the counted matches, in [0, 100]. */
  lemma WinPercentageWithin(ms: seq<MatchRecord>, teamId: int)
    ensures var s := StatsOf(ms, teamId);
      && 0.0 <= s.winPercentage <= 100.0
      && (s.matchesPlayed > 0 ==> IsPercentOf(s.winPercentage, s.wins as real, s.matchesPlayed as real))
  {
    var ts := Counted(ms, teamId);
    if |ts| > 0 {
      WinsAtMost(ts);
      PercentWithin(Wins(ts) as real, |ts| as real);
      PercentOfRatio(Wins(ts) as real, |ts| as real);
    }
  }

  /** A match that is unfinished, or in which the team does not play, changes nothing. */
  lemma IgnoredMatch(ms: seq<MatchRecord>, m: MatchRecord, teamId: int)
    requires !IsFinished(m.status) || !Involves(m, teamId)
    ensures StatsOf(ms + [m], teamId) == StatsOf(ms, teamId)
  {
    assert (ms + [m])[..|ms|] == ms;
  }

  /** A counted home match adds its home score to goals for and its away score to goals against. */
  lemma HomeMatchGoals(ms: seq<MatchRecord>, m: MatchRecord, teamId: int)
    requires IsFinished(m.status) && m.homeTeamId == teamId
    ensures StatsOf(ms + [m], teamId).goalsFor == StatsOf(ms, teamId).goalsFor + m.homeScore
    ensures StatsOf(ms + [m], teamId).goalsAgainst == StatsOf(ms, teamId).goalsAgainst + m.awayScore
    ensures StatsOf(ms + [m], teamId).matchesPlayed == StatsOf(ms, teamId).matchesPlayed + 1
  {
    assert (ms + [m])[..|ms|] == ms;
    var ts := Counted(ms, teamId);
    var t := ForTeam(m, teamId);
    assert (ts + [t])[..|ts|] == ts;
  }

  /** A counted away match reads the scores the other way round. */
  lemma AwayMatchGoals(ms: seq<MatchRecord>, m: MatchRecord, teamId: int)
    requires IsFinished(m.status) && m.awayTeamId == teamId && m.homeTeamId != teamId
    ensures StatsOf(ms + [m], teamId).goalsFor == StatsOf(ms, teamId).goalsFor + m.awayScore
    ensures StatsOf(ms + [m], teamId).goalsAgainst == StatsOf(ms, teamId).goalsAgainst + m.homeScore
    ensures StatsOf(ms + [m], teamId).matchesPlayed == StatsOf(ms, teamId).matchesPlayed + 1
  {
    assert (ms + [m])[..|ms|] == ms;
    var ts := Counted(ms, teamId);
    var t := ForTeam(m, teamId);
    assert (ts + [t])[..|ts|] == ts;
  }
}
