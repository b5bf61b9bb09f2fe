/**
 * The match records the analytics core receives from the database layer, the
 * team-perspective view of a match the estimators work on, and the labels
 * (risk tiers, grades, 1X2 outcomes) shared by the services and the routes.
 */
module Records {
  import opened Wrappers

  /** The status of a match whose score is final; no other status counts. */
  const Finished: string := "finalizado"

  /** A stored match (scores are non-negative; dates are ordinal integers). */
  datatype MatchRecord = MatchRecord(
    homeTeamId: int, awayTeamId: int,
    homeScore: nat, awayScore: nat,
    status: string, date: int)

  /** A match seen from one team: the dictionaries built by `prepare_match_data`. */
  datatype TeamMatch = TeamMatch(
    isHome: bool, goalsFor: nat, goalsAgainst: nat,
    status: string, date: int, opponentRating: Option<real>)

  /** Risk tiers, as the source spells them: 'Baixo', 'Médio', 'Alto'. */
  datatype Risk = Baixo | Medio | Alto

  /** Grades 'Alta', 'Média', 'Baixa'. */
  datatype Grade = Alta | Media | Baixa

  /** The three results of a match, from the home side. */
  datatype MatchOutcome = Home | Draw | Away

  predicate IsFinished(status: string)
  {
    status == Finished
  }

  predicate Involves(m: MatchRecord, teamId: int)
  {
    m.homeTeamId == teamId || m.awayTeamId == teamId
  }

  /** `prepare_match_data` for one match: the team is home iff it is the home team id. */
  function ForTeam(m: MatchRecord, teamId: int): (t: TeamMatch)
    ensures t.goalsFor + t.goalsAgainst == m.homeScore + m.awayScore
    ensures t.isHome ==> t.goalsFor == m.homeScore && t.goalsAgainst == m.awayScore
    ensures !t.isHome ==> t.goalsFor == m.awayScore && t.goalsAgainst == m.homeScore
  {
    var isHome := m.homeTeamId == teamId;
    TeamMatch(isHome,
              if isHome then m.homeScore else m.awayScore,
              if isHome then m.awayScore else m.homeScore,
              m.status, m.date, None)
  }

  function PrepareMatchData(ms: seq<MatchRecord>, teamId: int): (r: seq<TeamMatch>)
    ensures |r| == |ms|
    ensures forall i :: 0 <= i < |ms| ==> r[i] == ForTeam(ms[i], teamId)
  {
    seq(|ms|, i requires 0 <= i < |ms| => ForTeam(ms[i], teamId))
  }

  /** The matches in which the team plays on either side, in input order. */
  function MatchesOf(ms: seq<MatchRecord>, teamId: int): (r: seq<MatchRecord>)
    ensures forall m :: m in r <==> m in ms && Involves(m, teamId)
    ensures |r| <= |ms|
  {
    if ms == [] then []
    else
      var rest := MatchesOf(ms[..|ms| - 1], teamId);
      var m := ms[|ms| - 1];
      assert ms == ms[..|ms| - 1] + [m];
      if Involves(m, teamId) then rest + [m] else rest
  }

  /** Python's `s[-n:]`: the last `n` elements, or all of them. */
  function LastN<T>(s: seq<T>, n: nat): (r: seq<T>)
    ensures |r| == if |s| < n then |s| else n
    ensures r == s[|s| - |r|..]
  {
    if |s| <= n then s else s[|s| - n..]
  }

  /** Python's `s[:n]`. */
  function FirstN<T>(s: seq<T>, n: nat): (r: seq<T>)
    ensures |r| == if |s| < n then |s| else n
    ensures r == s[..|r|]
  {
    if |s| <= n then s else s[..n]
  }

  function Min(a: real, b: real): real { if a <= b then a else b }
  function Max(a: real, b: real): real { if a >= b then a else b }
  function Abs(x: int): nat { if x < 0 then -x else x }

  /** `pct` is `part` as a percentage of `whole`, stated without division. */
  predicate IsPercentOf(pct: real, part: real, whole: real)
  {
    pct * whole == part * 100.0
  }

  lemma PercentOfRatio(x: real, d: real)
    requires d > 0.0
    ensures IsPercentOf(x / d * 100.0, x, d)
  {
    var q := x / d;
    assert q * d == x;
    calc {
      q * 100.0 * d;
      == (q * d) * 100.0;
      == x * 100.0;
    }
  }

  /** A share of a positive whole, as a percentage, lies in [0, 100]. */
  lemma PercentWithin(part: real, whole: real)
    requires 0.0 <= part <= whole && whole > 0.0
    ensures 0.0 <= part / whole * 100.0 <= 100.0
  {
    var q := part / whole;
    assert q * whole == part;
    assert (1.0 - q) * whole == whole - part;
    FactorSign(1.0 - q, whole);
    FactorSign(q, whole);
  }

  /** The sign of a product with a positive factor is the sign of the other factor. */
  lemma FactorSign(a: real, b: real)
    requires b > 0.0
    ensures a * b >= 0.0 ==> a >= 0.0
    ensures a * b <= 0.0 ==> a <= 0.0
  {
  }

  // ---------------------------------------------------------------------
  // Counters over team-perspective matches (the generator sums of the source).
  // Each is defined on the prefix and the last element, the order in which the
  // source's loops visit the list.
  // ---------------------------------------------------------------------

  predicate IsWin(t: TeamMatch) { t.goalsFor > t.goalsAgainst }
  predicate IsDraw(t: TeamMatch) { t.goalsFor == t.goalsAgainst }
  predicate IsLoss(t: TeamMatch) { t.goalsFor < t.goalsAgainst }

  function FinishedOnly(ts: seq<TeamMatch>): (r: seq<TeamMatch>)
    ensures forall t :: t in r <==> t in ts && IsFinished(t.status)
    ensures |r| <= |ts|
  {
    if ts == [] then []
    else
      var rest := FinishedOnly(ts[..|ts| - 1]);
      var t := ts[|ts| - 1];
      assert ts == ts[..|ts| - 1] + [t];
      if IsFinished(t.status) then rest + [t] else rest
  }

  function Wins(ts: seq<TeamMatch>): nat
  {
    if ts == [] then 0 else Wins(ts[..|ts| - 1]) + (if IsWin(ts[|ts| - 1]) then 1 else 0)
  }

  function Draws(ts: seq<TeamMatch>): nat
  {
    if ts == [] then 0 else Draws(ts[..|ts| - 1]) + (if IsDraw(ts[|ts| - 1]) then 1 else 0)
  }

  function Losses(ts: seq<TeamMatch>): nat
  {
    if ts == [] then 0 else Losses(ts[..|ts| - 1]) + (if IsLoss(ts[|ts| - 1]) then 1 else 0)
  }

  function GoalsFor(ts: seq<TeamMatch>): nat
  {
    if ts == [] then 0 else GoalsFor(ts[..|ts| - 1]) + ts[|ts| - 1].goalsFor
  }

  function GoalsAgainst(ts: seq<TeamMatch>): nat
  {
    if ts == [] then 0 else GoalsAgainst(ts[..|ts| - 1]) + ts[|ts| - 1].goalsAgainst
  }

  function CleanSheets(ts: seq<TeamMatch>): nat
  {
    if ts == [] then 0 else CleanSheets(ts[..|ts| - 1]) + (if ts[|ts| - 1].goalsAgainst == 0 then 1 else 0)
  }

  /** Every match is exactly one of a win, a draw and a loss. */
  lemma {:induction false} ResultsPartition(ts: seq<TeamMatch>)
    ensures Wins(ts) + Draws(ts) + Losses(ts) == |ts|
  {
    if ts != [] {
      ResultsPartition(ts[..|ts| - 1]);
    }
  }

  /** At most one clean sheet per match. */
  lemma {:induction false} CleanSheetsBound(ts: seq<TeamMatch>)
    ensures CleanSheets(ts) <= |ts|
  {
    if ts != [] {
      CleanSheetsBound(ts[..|ts| - 1]);
    }
  }
}

/**
 * The two transcendental curves of the source (Elo's `1/(1+10**(-d/400))` and
 * the logistic `1/(1+exp(-d/400))`) enter the model as function values; all the
 * model assumes of them is what `IsLogistic` states.
 */
module Curves {

  /** Values strictly between 0 and 1, strictly increasing in the strength difference. */
  ghost predicate IsLogistic(f: real -> real)
  {
    && (forall x :: 0.0 < f(x) < 1.0)
    && (forall x, y :: x < y ==> f(x) < f(y))
  }

  /** Both curves satisfy f(-d) = 1 - f(d), so in particular f(0) = 1/2. */
  ghost predicate PointSymmetric(f: real -> real)
  {
    forall x :: f(-x) == 1.0 - f(x)
  }
}
