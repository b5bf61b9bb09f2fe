/**
 * The rule bodies of the advanced-analysis HTTP handlers, after their
 * database queries: the odds calculator, the league table, and the trend and
 * per-venue rates of the team deep analysis.
 */
module AdvancedRoutes {
  import opened Wrappers
  import opened Sorting
  import opened Records
  import opened AdvancedStats

  // =====================================================================
  // odds_calculator
  // =====================================================================

  /** The request body; absent probabilities are 0 and the target odds 1.25. */
  datatype OddsRequest = OddsRequest(home: Option<real>, draw: Option<real>, away: Option<real>, targetOdds: Option<real>)

  /** The 400 answer for probabilities that do not add up, and the 500 answer of a division by zero. */
  datatype OddsError = InvalidTotal | DivisionByZero

  const InvalidTotalMessage: string := "Probabilidades devem somar 100%"

  function OrZero(x: Option<real>): real
  {
    if x.Some? then x.value else 0.0
  }

  function TargetOf(req: OddsRequest): real
  {
    if req.targetOdds.Some? then req.targetOdds.value else 1.25
  }

  function Distance(x: real, y: real): real
  {
    if x >= y then x - y else y - x
  }

  /** Fair odds `1 / p`, or 0 for a probability that is not positive. */
  function FairOdds(p: real): (o: real)
    ensures p > 0.0 ==> o * p == 1.0
    ensures p <= 0.0 ==> o == 0.0
  {
    if p > 0.0 then 1.0 / p else 0.0
  }

  datatype ValueEntry = ValueEntry(
    outcome: MatchOutcome, probability: real, fairOdds: real, targetOdds: real,
    expectedValue: real, kellyFraction: real, hasValue: bool, confidenceLevel: Grade)

  datatype BestBet = BestBet(outcome: MatchOutcome, expectedValue: real, recommendedStake: real)

  datatype RiskCounts = RiskCounts(low: nat, medium: nat, high: nat)

  datatype OddsReport = OddsReport(
    fairHome: real, fairDraw: real, fairAway: real,
    valueAnalysis: seq<ValueEntry>, bestBet: Option<BestBet>, risk: RiskCounts)

  /** The three outcomes with their probabilities as fractions, in the handler's order. */
  function Outcomes(req: OddsRequest): seq<(MatchOutcome, real)>
  {
    [(Home, OrZero(req.home) / 100.0), (Draw, OrZero(req.draw) / 100.0), (Away, OrZero(req.away) / 100.0)]
  }

  /** The value entry of an outcome; EV and Kelly are stored as percentages. */
  function ValueEntryOf(outcome: MatchOutcome, p: real, target: real): (e: ValueEntry)
    requires target != 1.0
    ensures e.outcome == outcome && e.probability == p * 100.0 && e.fairOdds == FairOdds(p) && e.targetOdds == target
    ensures e.expectedValue == (p * target - 1.0) * 100.0
    ensures e.hasValue <==> p * target > 1.0
    ensures e.kellyFraction * (target - 1.0) == (p * target - 1.0) * 100.0
    ensures e.confidenceLevel == Alta <==> p * target - 1.0 > 0.1
    ensures e.confidenceLevel == Media <==> 0.05 < p * target - 1.0 <= 0.1
    ensures e.confidenceLevel == Baixa <==> p * target - 1.0 <= 0.05
  {
    var ev := p * (target - 1.0) - (1.0 - p);
    var kelly := (p * target - 1.0) / (target - 1.0);
    ValueEntry(outcome, p * 100.0, FairOdds(p), target, ev * 100.0, kelly * 100.0, ev > 0.0,
               if ev > 0.1 then Alta else if ev > 0.05 then Media else Baixa)
  }

  /**
   * The value loop: an entry for each outcome above the implied probability
   * `1 / target`; with target odds 1 the Kelly division fails.
   */
  function ValueScan(os: seq<(MatchOutcome, real)>, target: real): (r: Result<seq<ValueEntry>, OddsError>)
    requires target != 0.0
    ensures r.Ok? ==> |r.value| <= |os|
    ensures r.Err? ==> r == Err(DivisionByZero) && target == 1.0
  {
    if os == [] then Ok([])
    else
      var rest := ValueScan(os[..|os| - 1], target);
      var o := os[|os| - 1];
      if rest.Err? then rest
      else if o.1 > 1.0 / target then
        if target == 1.0 then Err(DivisionByZero)
        else Ok(rest.value + [ValueEntryOf(o.0, o.1, target)])
      else rest
  }

  /** The value scan keeps exactly the outcomes above the implied probability. */
  lemma {:induction false} ValueScanExact(os: seq<(MatchOutcome, real)>, target: real)
    requires target != 0.0 && ValueScan(os, target).Ok?
    ensures var es := ValueScan(os, target).value;
      && (forall e :: e in es ==> exists o :: o in os && o.1 > 1.0 / target && target != 1.0 && e == ValueEntryOf(o.0, o.1, target))
      && (forall o :: o in os && o.1 > 1.0 / target ==> target != 1.0 && ValueEntryOf(o.0, o.1, target) in es)
  {
    if os != [] {
      var init := os[..|os| - 1];
      assert os == init + [os[|os| - 1]];
      ValueScanExact(init, target);
    }
  }

  /** With positive target odds every kept outcome has value: `p > 1 / target` means a positive EV. */
  lemma {:induction false} ValueScanHasValue(os: seq<(MatchOutcome, real)>, target: real)
    requires target > 0.0 && ValueScan(os, target).Ok?
    ensures var es := ValueScan(os, target).value;
      forall i :: 0 <= i < |es| ==> es[i].hasValue && es[i].expectedValue > 0.0
  {
    if os != [] {
      var init := os[..|os| - 1];
      var o := os[|os| - 1];
      ValueScanHasValue(init, target);
      var rest := ValueScan(init, target).value;
      if o.1 > 1.0 / target {
        EntryGains(o.0, o.1, target);
        var e := ValueEntryOf(o.0, o.1, target);
        var es := rest + [e];
        assert ValueScan(os, target).value == es;
        forall i | 0 <= i < |es| ensures es[i].hasValue && es[i].expectedValue > 0.0 {
          if i < |rest| { assert es[i] == rest[i]; }
        }
      } else {
        assert ValueScan(os, target).value == rest;
      }
    }
  }

  /** An outcome above the implied probability of positive target odds makes an entry of value. */
  lemma EntryGains(outcome: MatchOutcome, p: real, target: real)
    requires target > 0.0 && target != 1.0 && p > 1.0 / target
    ensures ValueEntryOf(outcome, p, target).hasValue && ValueEntryOf(outcome, p, target).expectedValue > 0.0
  {
    AboveImpliedGains(p, target);
  }

  /** With target odds 1 the scan fails exactly when some probability exceeds 1. */
  lemma {:induction false} ValueScanFailsAtOne(os: seq<(MatchOutcome, real)>)
    ensures ValueScan(os, 1.0).Err? <==> exists o :: o in os && o.1 > 1.0
  {
    if os != [] {
      var init := os[..|os| - 1];
      var o := os[|os| - 1];
      assert os == init + [o];
      assert 1.0 / 1.0 == 1.0;
      ValueScanFailsAtOne(init);
    }
  }

  lemma AboveImpliedGains(p: real, target: real)
    requires target > 0.0 && p > 1.0 / target
    ensures p * target > 1.0
  {
    var q := 1.0 / target;
    var gain, unit := (p - q) * target, q * target;
    assert unit == 1.0;
    assert gain > 0.0;
    assert p * target == gain + unit;
  }

  function ExpectedValues(es: seq<ValueEntry>): (vs: seq<real>)
    ensures |vs| == |es|
    ensures forall i :: 0 <= i < |es| ==> vs[i] == es[i].expectedValue
  {
    seq(|es|, i requires 0 <= i < |es| => es[i].expectedValue)
  }

  /** The first outcome of largest EV, recommended only above 5%, its stake capped at 10. */
  function BestBetOf(es: seq<ValueEntry>): (r: Option<BestBet>)
    ensures r.Some? ==> es != [] && r.value.expectedValue > 5.0 && r.value.recommendedStake <= 10.0
    ensures r.Some? ==> forall e :: e in es ==> e.expectedValue <= r.value.expectedValue
    ensures r.None? ==> forall e :: e in es ==> e.expectedValue <= 5.0
    ensures r.Some? ==> exists i ::
              && 0 <= i < |es|
              && r.value == BestBet(es[i].outcome, es[i].expectedValue, Min(10.0, es[i].kellyFraction))
              && (forall j :: 0 <= j < i ==> es[j].expectedValue < es[i].expectedValue)
  {
    if es == [] then None
    else
      var k := ArgMax(ExpectedValues(es));
      var best := es[k];
      assert forall j :: 0 <= j < k ==> es[j].expectedValue < es[k].expectedValue by {
        forall j | 0 <= j < k ensures es[j].expectedValue < es[k].expectedValue {
          assert ExpectedValues(es)[j] < ExpectedValues(es)[k];
        }
      }
      assert forall e :: e in es ==> e.expectedValue <= best.expectedValue by {
        forall e | e in es ensures e.expectedValue <= best.expectedValue {
          var j :| 0 <= j < |es| && es[j] == e;
          assert ExpectedValues(es)[j] <= ExpectedValues(es)[k];
        }
      }
      if best.expectedValue > 5.0 then Some(BestBet(best.outcome, best.expectedValue, Min(10.0, best.kellyFraction)))
      else None
  }

  predicate LowRisk(e: ValueEntry) { e.expectedValue > 10.0 }
  predicate MediumRisk(e: ValueEntry) { 5.0 <= e.expectedValue <= 10.0 }
  predicate HighRisk(e: ValueEntry) { 0.0 < e.expectedValue < 5.0 }

  function CountWhere(es: seq<ValueEntry>, bucket: int): nat
  {
    if es == [] then 0
    else
      var e := es[|es| - 1];
      var hit := if bucket == 0 then LowRisk(e) else if bucket == 1 then MediumRisk(e) else HighRisk(e);
      CountWhere(es[..|es| - 1], bucket) + (if hit then 1 else 0)
  }

  function RiskCountsOf(es: seq<ValueEntry>): RiskCounts
  {
    RiskCounts(CountWhere(es, 0), CountWhere(es, 1), CountWhere(es, 2))
  }

  /** The three buckets are disjoint; together they hold every entry of positive EV. */
  lemma {:induction false} RiskBuckets(es: seq<ValueEntry>)
    ensures var rc := RiskCountsOf(es); rc.low + rc.medium + rc.high <= |es|
    ensures (forall e :: e in es ==> e.expectedValue > 0.0) ==>
      var rc := RiskCountsOf(es); rc.low + rc.medium + rc.high == |es|
  {
    if es != [] {
      var init := es[..|es| - 1];
      assert forall e :: e in init ==> e in es;
      RiskBuckets(init);
    }
  }

  /** `odds_calculator`. */
  function OddsCalculation(req: OddsRequest): (r: Result<OddsReport, OddsError>)
    ensures r == Err(InvalidTotal) <==>
      Distance(OrZero(req.home) + OrZero(req.draw) + OrZero(req.away), 100.0) > 1.0
    ensures r == Err(DivisionByZero) ==> TargetOf(req) == 0.0 || TargetOf(req) == 1.0
    ensures r == Err(DivisionByZero) <==>
      && Distance(OrZero(req.home) + OrZero(req.draw) + OrZero(req.away), 100.0) <= 1.0
      && (TargetOf(req) == 0.0 || (TargetOf(req) == 1.0 && exists o :: o in Outcomes(req) && o.1 > 1.0))
    ensures r.Ok? ==> |r.value.valueAnalysis| <= 3
  {
    var total := OrZero(req.home) + OrZero(req.draw) + OrZero(req.away);
    var target := TargetOf(req);
    ValueScanFailsAtOne(Outcomes(req));
    if Distance(total, 100.0) > 1.0 then Err(InvalidTotal)
    else if target == 0.0 then Err(DivisionByZero)
    else
      var os := Outcomes(req);
      var scan := ValueScan(os, target);
      if scan.Err? then Err(DivisionByZero)
      else
        var es := scan.value;
        Ok(OddsReport(FairOdds(os[0].1), FairOdds(os[1].1), FairOdds(os[2].1),
                      es, BestBetOf(es), RiskCountsOf(es)))
  }

  /** The value loop of `odds_calculator`. */
  method ScanOutcomes(os: seq<(MatchOutcome, real)>, target: real) returns (r: Result<seq<ValueEntry>, OddsError>)
    requires target != 0.0
    ensures r == ValueScan(os, target)
  {
    var implied := 1.0 / target;
    var entries: seq<ValueEntry> := [];
    for i := 0 to |os|
      invariant ValueScan(os[..i], target) == Ok(entries)
    {
      assert os[..i + 1][..i] == os[..i];
      var outcome, prob := os[i].0, os[i].1;
      if prob > implied {
        if target - 1.0 == 0.0 {
          ScanFailsAfter(os, target, i + 1);
          return Err(DivisionByZero);
        }
        entries := entries + [ValueEntryOf(outcome, prob, target)];
      }
    }
    assert os[..|os|] == os;
    r := Ok(entries);
  }

  /** Once a prefix fails, every longer prefix fails too. */
  lemma {:induction false} ScanFailsAfter(os: seq<(MatchOutcome, real)>, target: real, i: nat)
    requires target != 0.0 && i <= |os| && ValueScan(os[..i], target).Err?
    ensures ValueScan(os, target).Err?
    decreases |os| - i
  {
    if i < |os| {
      assert os[..i + 1][..i] == os[..i];
      ScanFailsAfter(os, target, i + 1);
    } else {
      assert os[..i] == os;
    }
  }

  method OddsCalculator(req: OddsRequest) returns (r: Result<OddsReport, OddsError>)
    ensures r == OddsCalculation(req)
  {
    var total := OrZero(req.home) + OrZero(req.draw) + OrZero(req.away);
    if Distance(total, 100.0) > 1.0 {
      return Err(InvalidTotal);
    }
    var target := TargetOf(req);
    if target == 0.0 {
      return Err(DivisionByZero);
    }
    var os := Outcomes(req);
    var scan := ScanOutcomes(os, target);
    if scan.Err? {
      return Err(DivisionByZero);
    }
    var es := scan.value;
    r := Ok(OddsReport(FairOdds(os[0].1), FairOdds(os[1].1), FairOdds(os[2].1),
                       es, BestBetOf(es), RiskCountsOf(es)));
  }

  /** With target odds other than 0 and 1 a valid request is always answered. */
  lemma ValidRequestAnswered(req: OddsRequest)
    requires Distance(OrZero(req.home) + OrZero(req.draw) + OrZero(req.away), 100.0) <= 1.0
    requires TargetOf(req) != 0.0 && TargetOf(req) != 1.0
    ensures OddsCalculation(req).Ok?
  {
    NoScanErrorAwayFromOne(Outcomes(req), TargetOf(req));
  }

  lemma {:induction false} NoScanErrorAwayFromOne(os: seq<(MatchOutcome, real)>, target: real)
    requires target != 0.0 && target != 1.0
    ensures ValueScan(os, target).Ok?
  {
    if os != [] {
      NoScanErrorAwayFromOne(os[..|os| - 1], target);
    }
  }

  // =====================================================================
  // league_analysis
  // =====================================================================

  const NoLeagueData: string := "Campeonato não encontrado ou sem dados"
  const LeagueTableSize: nat := 10

  datatype LeagueRow = LeagueRow(
    teamId: int, teamName: string, matchesPlayed: nat,
    wins: nat, draws: nat, losses: nat, points: nat,
    pointsPerMatch: real, winPercentage: real)

  datatype LeagueReport = LeagueReport(
    totalMatches: nat, totalGoals: nat, goalsPerMatch: real, teamsCount: nat,
    table: seq<LeagueRow>, highestScoringTeam: string, mostConsistentTeam: string,
    averagePointsPerMatch: real)

  /** The league's teams: every id that appears on either side. */
  function TeamsOf(ms: seq<MatchRecord>): (ids: set<int>)
    ensures forall id :: id in ids <==> exists i :: 0 <= i < |ms| && Involves(ms[i], id)
  {
    if ms == [] then {}
    else
      var init := ms[..|ms| - 1];
      assert forall i :: 0 <= i < |init| ==> init[i] == ms[i];
      TeamsOf(init) + {ms[|ms| - 1].homeTeamId, ms[|ms| - 1].awayTeamId}
  }

  /** The league counters of one team, as the handler's generator sums state them. */
  predicate LeagueWin(m: MatchRecord, id: int)
  {
    IsFinished(m.status) && Involves(m, id) &&
    ((m.homeTeamId == id && m.homeScore > m.awayScore) || (m.awayTeamId == id && m.awayScore > m.homeScore))
  }

  predicate LeagueDraw(m: MatchRecord, id: int)
  {
    IsFinished(m.status) && Involves(m, id) && m.homeScore == m.awayScore
  }

  predicate LeagueLoss(m: MatchRecord, id: int)
  {
    IsFinished(m.status) && Involves(m, id) &&
    ((m.homeTeamId == id && m.homeScore < m.awayScore) || (m.awayTeamId == id && m.awayScore < m.homeScore))
  }

  function CountLeague(ms: seq<MatchRecord>, id: int, kind: int): nat
  {
    if ms == [] then 0
    else
      var m := ms[|ms| - 1];
      var hit := if kind == 0 then LeagueWin(m, id) else if kind == 1 then LeagueDraw(m, id) else LeagueLoss(m, id);
      CountLeague(ms[..|ms| - 1], id, kind) + (if hit then 1 else 0)
  }

  /** The table row of a team with at least one counted match. */
  function RowOf(ms: seq<MatchRecord>, id: int, name: string): (row: LeagueRow)
    requires CountLeague(ms, id, 0) + CountLeague(ms, id, 1) + CountLeague(ms, id, 2) > 0
    ensures row.teamId == id && row.teamName == name
    ensures row.wins == CountLeague(ms, id, 0) && row.draws == CountLeague(ms, id, 1) && row.losses == CountLeague(ms, id, 2)
    ensures IsPercentOf(row.winPercentage, row.wins as real, row.matchesPlayed as real)
    ensures row.points == 3 * row.wins + row.draws
    ensures row.matchesPlayed == row.wins + row.draws + row.losses && row.matchesPlayed > 0
    ensures IsMeanOf(row.pointsPerMatch, row.points, row.matchesPlayed)
    ensures 0.0 <= row.winPercentage <= 100.0
    ensures 0.0 <= row.pointsPerMatch <= 3.0
  {
    var w, d, l := CountLeague(ms, id, 0), CountLeague(ms, id, 1), CountLeague(ms, id, 2);
    var played := w + d + l;
    var points := w * 3 + d;
    PercentWithin(w as real, played as real);
    PercentOfRatio(w as real, played as real);
    MeanAtMost(points, played, 3);
    LeagueRow(id, name, played, w, d, l, points, Mean(points, played), (w as real) / (played as real) * 100.0)
  }

  function Played(ms: seq<MatchRecord>, id: int): nat
  {
    CountLeague(ms, id, 0) + CountLeague(ms, id, 1) + CountLeague(ms, id, 2)
  }

  /** The rows of the teams in enumeration order that are known by name and have played. */
  function Rows(ms: seq<MatchRecord>, order: seq<int>, names: map<int, string>): (rows: seq<LeagueRow>)
    ensures |rows| <= |order|
  {
    if order == [] then []
    else
      var rest := Rows(ms, order[..|order| - 1], names);
      var id := order[|order| - 1];
      if id in names && Played(ms, id) > 0 then rest + [RowOf(ms, id, names[id])] else rest
  }

  /** Each row belongs to a named team of the enumeration with a match played, and each such team has its row. */
  lemma {:induction false} RowsExact(ms: seq<MatchRecord>, order: seq<int>, names: map<int, string>)
    ensures forall r :: r in Rows(ms, order, names) ==>
      r.teamId in order && r.teamId in names && Played(ms, r.teamId) > 0 && r == RowOf(ms, r.teamId, names[r.teamId])
    ensures forall id :: id in order && id in names && Played(ms, id) > 0 ==> RowOf(ms, id, names[id]) in Rows(ms, order, names)
  {
    if order != [] {
      var init := order[..|order| - 1];
      assert order == init + [order[|order| - 1]];
      RowsExact(ms, init, names);
    }
  }

  /** An enumeration without repetition gives at most one row per team. */
  lemma {:induction false} RowsDistinct(ms: seq<MatchRecord>, order: seq<int>, names: map<int, string>)
    requires forall i, j :: 0 <= i < j < |order| ==> order[i] != order[j]
    ensures forall i, j :: 0 <= i < j < |Rows(ms, order, names)| ==>
      Rows(ms, order, names)[i].teamId != Rows(ms, order, names)[j].teamId
  {
    if order != [] {
      var init := order[..|order| - 1];
      var id := order[|order| - 1];
      var rest := Rows(ms, init, names);
      RowsDistinct(ms, init, names);
      RowIdsFrom(ms, init, names);
      if id in names && Played(ms, id) > 0 {
        var rows := rest + [RowOf(ms, id, names[id])];
        forall i, j | 0 <= i < j < |rows| ensures rows[i].teamId != rows[j].teamId {
          if j == |rest| {
            assert rest[i].teamId in init;
            var k :| 0 <= k < |init| && init[k] == rest[i].teamId;
            assert init[k] == order[k];
          } else {
            assert rows[i] == rest[i] && rows[j] == rest[j];
          }
        }
      }
    }
  }

  /** Every row's team comes from the enumeration. */
  lemma {:induction false} RowIdsFrom(ms: seq<MatchRecord>, order: seq<int>, names: map<int, string>)
    ensures forall i :: 0 <= i < |Rows(ms, order, names)| ==> Rows(ms, order, names)[i].teamId in order
  {
    if order != [] {
      var init := order[..|order| - 1];
      var rest := Rows(ms, init, names);
      RowIdsFrom(ms, init, names);
      var rows := Rows(ms, order, names);
      forall i | 0 <= i < |rows| ensures rows[i].teamId in order {
        if i < |rest| {
          assert rows[i] == rest[i];
          assert forall x :: x in init ==> x in order;
        }
      }
    }
  }

  /** `sort(key=points, reverse=True)`. */
  const ByPointsDescending: (LeagueRow, LeagueRow) -> bool := (a: LeagueRow, b: LeagueRow) => a.points >= b.points

  lemma PointsOrderIsPreorder()
    ensures TotalPreorder(ByPointsDescending)
  {
  }

  function Points(rows: seq<LeagueRow>): (ps: seq<real>)
    ensures |ps| == |rows|
    ensures forall i :: 0 <= i < |rows| ==> ps[i] == rows[i].points as real
  {
    seq(|rows|, i requires 0 <= i < |rows| => rows[i].points as real)
  }

  function PointsPerMatch(rows: seq<LeagueRow>): (ps: seq<real>)
    ensures |ps| == |rows|
    ensures forall i :: 0 <= i < |rows| ==> ps[i] == rows[i].pointsPerMatch
  {
    seq(|rows|, i requires 0 <= i < |rows| => rows[i].pointsPerMatch)
  }

  function PpmSum(rows: seq<LeagueRow>): real
  {
    if rows == [] then 0.0 else PpmSum(rows[..|rows| - 1]) + rows[|rows| - 1].pointsPerMatch
  }

  /** Position `i` holds the first maximum of `xs`, the element Python's `max` returns. */
  predicate IsFirstMaxAt(xs: seq<real>, i: int)
  {
    && 0 <= i < |xs|
    && (forall j :: 0 <= j < |xs| ==> xs[j] <= xs[i])
    && (forall j :: 0 <= j < i ==> xs[j] < xs[i])
  }

  /** The team name at the first maximum of `key`, or 'N/A' for an empty table. */
  function TopTeam(rows: seq<LeagueRow>, key: seq<real>): (name: string)
    requires |key| == |rows|
    ensures rows == [] ==> name == "N/A"
    ensures rows != [] ==> exists i :: IsFirstMaxAt(key, i) && rows[i].teamName == name
  {
    if rows == [] then "N/A"
    else
      var k := ArgMax(key);
      assert IsFirstMaxAt(key, k);
      rows[k].teamName
  }

  /** The average points per match over the table, with `max(1, n)` as the divisor. */
  function AveragePpm(rows: seq<LeagueRow>): (a: real)
    ensures rows == [] ==> a == 0.0
    ensures rows != [] ==> a * (|rows| as real) == PpmSum(rows)
    ensures (forall i :: 0 <= i < |rows| ==> 0.0 <= rows[i].pointsPerMatch <= 3.0) ==> 0.0 <= a <= 3.0
  {
    var n := if |rows| >= 1 then |rows| as real else 1.0;
    PpmSumWithin(rows);
    var a := PpmSum(rows) / n;
    assert a * n == PpmSum(rows);
    assert (3.0 - a) * n == 3.0 * n - PpmSum(rows);
    FactorSign(a, n);
    FactorSign(3.0 - a, n);
    a
  }

  /** Rows whose points per match lie in [0, 3] sum to a value in [0, 3n]. */
  lemma {:induction false} PpmSumWithin(rows: seq<LeagueRow>)
    ensures (forall i :: 0 <= i < |rows| ==> 0.0 <= rows[i].pointsPerMatch <= 3.0) ==>
      0.0 <= PpmSum(rows) <= 3.0 * (|rows| as real)
  {
    if rows != [] {
      var init := rows[..|rows| - 1];
      assert forall i :: 0 <= i < |init| ==> init[i] == rows[i];
      PpmSumWithin(init);
    }
  }

  /** Without a finished match there are no finished goals. */
  lemma {:induction false} NoFinishedNoGoals(ms: seq<MatchRecord>)
    ensures CountFinished(ms) == 0 ==> FinishedGoals(ms) == 0
  {
    if ms != [] {
      NoFinishedNoGoals(ms[..|ms| - 1]);
    }
  }

  /** `total / max(1, n)`: the mean over `n > 0` items, the total itself otherwise. */
  function PerMatch(total: nat, n: nat): (q: real)
    ensures n > 0 ==> IsMeanOf(q, total, n)
    ensures n == 0 ==> q == total as real
  {
    (total as real) / (if n >= 1 then n as real else 1.0)
  }

  /** The league report over the sorted rows. */
  function ReportOf(ms: seq<MatchRecord>, teamsCount: nat, sorted: seq<LeagueRow>): (r: LeagueReport)
    ensures r.totalMatches == CountFinished(ms) && r.totalGoals == FinishedGoals(ms) && r.teamsCount == teamsCount
    ensures r.totalMatches > 0 ==> IsMeanOf(r.goalsPerMatch, r.totalGoals, r.totalMatches)
    ensures r.totalMatches == 0 ==> r.totalGoals == 0 && r.goalsPerMatch == 0.0
    ensures |r.table| == (if |sorted| < LeagueTableSize then |sorted| else LeagueTableSize)
    ensures r.table == sorted[..|r.table|]
    ensures sorted == [] ==> r.highestScoringTeam == "N/A" && r.mostConsistentTeam == "N/A" && r.averagePointsPerMatch == 0.0
    ensures sorted != [] ==> exists i :: IsFirstMaxAt(Points(sorted), i) && sorted[i].teamName == r.highestScoringTeam
    ensures sorted != [] ==> exists i :: IsFirstMaxAt(PointsPerMatch(sorted), i) && sorted[i].teamName == r.mostConsistentTeam
    ensures (forall i :: 0 <= i < |sorted| ==> 0.0 <= sorted[i].pointsPerMatch <= 3.0) ==> 0.0 <= r.averagePointsPerMatch <= 3.0
  {
    var finished := CountFinished(ms);
    var goals := FinishedGoals(ms);
    NoFinishedNoGoals(ms);
    LeagueReport(finished, goals, PerMatch(goals, finished), teamsCount,
                 FirstN(sorted, LeagueTableSize),
                 TopTeam(sorted, Points(sorted)), TopTeam(sorted, PointsPerMatch(sorted)),
                 AveragePpm(sorted))
  }

  function CountFinished(ms: seq<MatchRecord>): nat
  {
    if ms == [] then 0 else CountFinished(ms[..|ms| - 1]) + (if IsFinished(ms[|ms| - 1].status) then 1 else 0)
  }

  function FinishedGoals(ms: seq<MatchRecord>): nat
  {
    if ms == [] then 0
    else FinishedGoals(ms[..|ms| - 1]) + (if IsFinished(ms[|ms| - 1].status) then ms[|ms| - 1].homeScore + ms[|ms| - 1].awayScore else 0)
  }

  /** An enumeration of the league's teams without repetition: the iteration order of the handler's set. */
  predicate EnumeratesTeams(order: seq<int>, ms: seq<MatchRecord>)
  {
    (forall i, j :: 0 <= i < j < |order| ==> order[i] != order[j]) &&
    (forall i :: 0 <= i < |order| ==> order[i] in TeamsOf(ms)) &&
    (forall id :: id in TeamsOf(ms) ==> id in order)
  }

  /** `league_analysis`: an error without matches, else the counters and the top-10 table. */
  function LeagueAnalysisOf(ms: seq<MatchRecord>, order: seq<int>, names: map<int, string>): (r: Result<LeagueReport, string>)
    ensures r.Err? <==> ms == []
  {
    if ms == [] then Err(NoLeagueData)
    else Ok(ReportOf(ms, |order|, SortBy(Rows(ms, order, names), ByPointsDescending)))
  }

  /** The row loop of `league_analysis`. */
  method CollectRows(ms: seq<MatchRecord>, order: seq<int>, names: map<int, string>) returns (rows: seq<LeagueRow>)
    ensures rows == Rows(ms, order, names)
  {
    rows := [];
    for i := 0 to |order|
      invariant rows == Rows(ms, order[..i], names)
    {
      assert order[..i + 1][..i] == order[..i];
      var id := order[i];
      if id in names {
        var w, d, l := CountLeague(ms, id, 0), CountLeague(ms, id, 1), CountLeague(ms, id, 2);
        if w + d + l > 0 {
          rows := rows + [RowOf(ms, id, names[id])];
        }
      }
    }
    assert order[..|order|] == order;
  }

  method LeagueAnalysis(ms: seq<MatchRecord>, order: seq<int>, names: map<int, string>)
    returns (r: Result<LeagueReport, string>)
    requires EnumeratesTeams(order, ms)
    ensures r == LeagueAnalysisOf(ms, order, names)
    ensures r.Ok? ==> r.value.teamsCount == |TeamsOf(ms)|
  {
    if ms == [] {
      return Err(NoLeagueData);
    }
    var rows := CollectRows(ms, order, names);
    var sorted := SortBy(rows, ByPointsDescending);
    r := Ok(ReportOf(ms, |order|, sorted));
    EnumerationSize(order, ms);
  }

  lemma EnumerationSize(order: seq<int>, ms: seq<MatchRecord>)
    requires EnumeratesTeams(order, ms)
    ensures |order| == |TeamsOf(ms)|
  {
    var s := set id | id in order;
    assert s == TeamsOf(ms);
    DistinctCard(order);
  }

  lemma {:induction false} DistinctCard(order: seq<int>)
    requires forall i, j :: 0 <= i < j < |order| ==> order[i] != order[j]
    ensures |set id | id in order| == |order|
  {
    if order != [] {
      var init := order[..|order| - 1];
      var last := order[|order| - 1];
      assert forall i, j :: 0 <= i < j < |init| ==> init[i] != init[j];
      DistinctCard(init);
      assert (set id | id in order) == (set id | id in init) + {last};
      assert last !in (set id | id in init);
    }
  }

  /**
   * The table is the first ten rows of the sorted rows (all of them when
   * there are fewer), in points order, and no row left out has more points
   * than a row kept.
   */
  lemma LeagueTableFacts(ms: seq<MatchRecord>, order: seq<int>, names: map<int, string>)
    requires ms != []
    ensures var rows := Rows(ms, order, names);
      var sorted := SortBy(rows, ByPointsDescending);
      var table := LeagueAnalysisOf(ms, order, names).value.table;
      && |table| == (if |rows| < LeagueTableSize then |rows| else LeagueTableSize)
      && table == sorted[..|table|]
      && (forall i, j :: 0 <= i < |table| <= j < |sorted| ==> sorted[i].points >= sorted[j].points)
      && SortedBy(table, ByPointsDescending)
  {
    var rows := Rows(ms, order, names);
    var sorted := SortBy(rows, ByPointsDescending);
    SortedRows(ms, order, names);
    TableCut(sorted);
  }

  /** Each table row is the row of a team that played; the average points per match lies in [0, 3]. */
  lemma LeagueTableRows(ms: seq<MatchRecord>, order: seq<int>, names: map<int, string>)
    requires ms != []
    ensures var rep := LeagueAnalysisOf(ms, order, names).value;
      && (forall r :: r in rep.table ==> r in Rows(ms, order, names))
      && (forall r :: r in rep.table ==> r.matchesPlayed > 0 && r.points == 3 * r.wins + r.draws)
      && 0.0 <= rep.averagePointsPerMatch <= 3.0
  {
    SortedRows(ms, order, names);
  }

  /** The sorted rows are sorted by points, and each is a row of a team that played. */
  lemma SortedRows(ms: seq<MatchRecord>, order: seq<int>, names: map<int, string>)
    ensures var rows := Rows(ms, order, names);
      var sorted := SortBy(rows, ByPointsDescending);
      && |sorted| == |rows|
      && SortedBy(sorted, ByPointsDescending)
      && (forall i :: 0 <= i < |sorted| ==> sorted[i] in rows)
      && (forall i :: 0 <= i < |sorted| ==> sorted[i].matchesPlayed > 0 && sorted[i].points == 3 * sorted[i].wins + sorted[i].draws)
      && (forall i :: 0 <= i < |sorted| ==> 0.0 <= sorted[i].pointsPerMatch <= 3.0)
  {
    var rows := Rows(ms, order, names);
    var sorted := SortBy(rows, ByPointsDescending);
    PointsOrderIsPreorder();
    SortBySorted(rows, ByPointsDescending);
    RowsExact(ms, order, names);
    forall i | 0 <= i < |sorted| ensures sorted[i] in rows {
      SortByMembers(rows, ByPointsDescending, sorted[i]);
    }
  }

  /** Cutting a points-sorted list to its first ten keeps the order, and no row cut has more points. */
  lemma TableCut(sorted: seq<LeagueRow>)
    requires SortedBy(sorted, ByPointsDescending)
    ensures var table := FirstN(sorted, LeagueTableSize);
      && SortedBy(table, ByPointsDescending)
      && (forall i, j :: 0 <= i < |table| <= j < |sorted| ==> sorted[i].points >= sorted[j].points)
  {
    var table := FirstN(sorted, LeagueTableSize);
    forall i, j | 0 <= i < j < |table| ensures ByPointsDescending(table[i], table[j]) {
      assert table[i] == sorted[i] && table[j] == sorted[j];
    }
  }

  /** The highest-scoring team is the first row of the sorted table. */
  lemma HighestScoringIsTop(ms: seq<MatchRecord>, order: seq<int>, names: map<int, string>)
    requires ms != [] && Rows(ms, order, names) != []
    ensures var rep := LeagueAnalysisOf(ms, order, names).value;
      rep.table != [] && rep.highestScoringTeam == rep.table[0].teamName
  {
    var rows := Rows(ms, order, names);
    var sorted := SortBy(rows, ByPointsDescending);
    PointsOrderIsPreorder();
    SortBySorted(rows, ByPointsDescending);
    var rep := ReportOf(ms, |order|, sorted);
    var k :| IsFirstMaxAt(Points(sorted), k) && sorted[k].teamName == rep.highestScoringTeam;
    assert forall j :: 0 < j < |sorted| ==> ByPointsDescending(sorted[0], sorted[j]);
    assert k == 0;
  }

  // =====================================================================
  // team_deep_analysis: trend and per-venue rates
  // =====================================================================

  datatype Trend = Melhorando | Piorando | Estavel

  /** Strict comparison of the recent and the previous form. */
  function TrendOf(recent: real, previous: real): (t: Trend)
    ensures t == Estavel <==> recent == previous
  {
    if recent > previous then Melhorando else if recent < previous then Piorando else Estavel
  }

  /** Exchanging the two windows turns an improvement into a decline and back. */
  lemma TrendAntisymmetric(a: real, b: real)
    ensures TrendOf(a, b) == Melhorando <==> TrendOf(b, a) == Piorando
    ensures TrendOf(a, b) == Estavel <==> TrendOf(b, a) == Estavel
  {
  }

  /** Python's `s[i:j]` for `0 <= i <= j`. */
  function Slice<T>(s: seq<T>, i: nat, j: nat): (r: seq<T>)
    requires i <= j
    ensures |r| <= j - i
  {
    if |s| <= i then [] else if |s| <= j then s[i..] else s[i..j]
  }

  /** The trend of the deep analysis: form of the first five matches against the next five. */
  function DeepTrend(matchData: seq<TeamMatch>): (t: Trend)
    ensures var recent, previous := FormIndexOf(FirstN(matchData, 5), DefaultDecay), FormIndexOf(Slice(matchData, 5, 10), DefaultDecay);
      && (t == Melhorando <==> recent > previous)
      && (t == Piorando <==> recent < previous)
      && (t == Estavel <==> recent == previous)
  {
    TrendOf(FormIndexOf(FirstN(matchData, 5), DefaultDecay), FormIndexOf(Slice(matchData, 5, 10), DefaultDecay))
  }

  /** A team without finished matches in either window is stable. */
  lemma IdleWindowsStable(matchData: seq<TeamMatch>)
    requires forall t :: t in matchData ==> !IsFinished(t.status)
    ensures DeepTrend(matchData) == Estavel
  {
    var recent, previous := FirstN(matchData, 5), Slice(matchData, 5, 10);
    WindowIdle(recent, matchData);
    WindowIdle(previous, matchData);
    FormNeutralWithoutFinished(recent, DefaultDecay);
    FormNeutralWithoutFinished(previous, DefaultDecay);
  }

  lemma WindowIdle(w: seq<TeamMatch>, matchData: seq<TeamMatch>)
    requires forall t :: t in w ==> t in matchData
    requires forall t :: t in matchData ==> !IsFinished(t.status)
    ensures forall t :: t in RecentWindow(w) ==> !IsFinished(t.status)
  {
    forall t | t in RecentWindow(w) ensures !IsFinished(t.status) {
      assert t in SortBy(w, ByDateDescending);
      SortByMembers(w, ByDateDescending, t);
    }
  }

  datatype VenueRates = VenueRates(matches: nat, winRate: real, pointsPerMatch: real, goalsPerMatch: real)

  /** The per-venue block: rates over `max(1, matches)`. */
  function VenueRatesOf(v: VenueRecord): (r: VenueRates)
    ensures r.matches == v.wins + v.draws + v.losses
    ensures r.pointsPerMatch == v.pointsPerMatch
    ensures 0.0 <= r.winRate <= 100.0
    ensures r.matches == 0 ==> r.winRate == 0.0 && r.goalsPerMatch == v.goalsFor as real
    ensures r.matches > 0 ==> IsPercentOf(r.winRate, v.wins as real, r.matches as real)
    ensures r.matches > 0 ==> IsMeanOf(r.goalsPerMatch, v.goalsFor, r.matches)
  {
    var n := v.wins + v.draws + v.losses;
    var base := if n >= 1 then n as real else 1.0;
    VenueShare(v.wins, n);
    VenueRates(n, (v.wins as real) / base * 100.0, v.pointsPerMatch, PerMatch(v.goalsFor, n))
  }

  lemma VenueShare(wins: nat, n: nat)
    requires wins <= n
    ensures var base := if n >= 1 then n as real else 1.0;
      0.0 <= (wins as real) / base * 100.0 <= 100.0 &&
      (n > 0 ==> IsPercentOf((wins as real) / base * 100.0, wins as real, n as real))
  {
    if n > 0 {
      PercentWithin(wins as real, n as real);
      PercentOfRatio(wins as real, n as real);
    }
  }

  /** The home and away blocks cover all the finished matches of the team. */
  lemma VenueRatesCover(ts: seq<TeamMatch>)
    ensures var ha := HomeAwayPerformance(ts);
      VenueRatesOf(ha.home).matches + VenueRatesOf(ha.away).matches == |FinishedOnly(ts)|
  {
  }
}
