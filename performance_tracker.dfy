/**
 * `PerformanceTracker`: a history of predictions and of settled results,
 * and the figures computed from them: win rate and return at the fixed
 * price 1.25 (a stake of 100 per bet, 125 back per win), the average
 * confidence of the predictions, and the bet type with the best simulated
 * success rate.
 */
module PerformanceTracking {
  import opened Wrappers
  import opened Sorting
  import opened Records
  import opened Grouping

  /** Stake per settled bet and the return of a win at 1.25. */
  const StakePerBet: nat := 100
  const ReturnPerWin: nat := 125

  /** The message returned when nothing has been settled yet. */
  const NoDataMessage: string := "Sem dados suficientes"

  /** The key used for a prediction that names no bet. */
  const UnknownBetType: string := "unknown"

  /** The best bet type reported when there are no predictions. */
  const NoBetType: string := "N/A"

  /**
   * A stored prediction: the dictionary keys `confidence` and
   * `recommended_bet` may be missing; `timestamp` is set when it is added.
   */
  datatype Prediction = Prediction(confidence: Option<real>, recommendedBet: Option<string>, timestamp: Option<int>)

  datatype ResultEntry = ResultEntry(predictionId: string, actualResult: string, won: bool, timestamp: int)

  datatype Metrics = Metrics(
    totalPredictions: nat, wins: nat, losses: nat,
    winRate: real, roi: real, profitLoss: int,
    averageConfidence: real, bestPerformingBetType: string)

  // ---------------------------------------------------------------------
  // Settled results
  // ---------------------------------------------------------------------

  /** `sum(1 for r in results if r['won'])`. */
  function WonCount(results: seq<ResultEntry>): (n: nat)
    ensures n <= |results|
  {
    if results == [] then 0
    else WonCount(results[..|results| - 1]) + (if results[|results| - 1].won then 1 else 0)
  }

  /** Return minus stake at 1.25: 25 per win, less 100 per loss. */
  function ProfitLoss(total: nat, wins: nat): int
  {
    (wins * ReturnPerWin) as int - (total * StakePerBet) as int
  }

  /** `calculate_performance_metrics`, given the average confidence and the best bet type. */
  function MetricsOf(results: seq<ResultEntry>, averageConfidence: real, bestType: string): (r: Result<Metrics, string>)
    ensures r.Err? <==> results == []
    ensures r.Err? ==> r.error == NoDataMessage
    ensures r.Ok? ==>
      && r.value.totalPredictions == |results|
      && r.value.wins == WonCount(results)
      && r.value.wins + r.value.losses == r.value.totalPredictions
      && r.value.averageConfidence == averageConfidence
      && r.value.bestPerformingBetType == bestType
  {
    if results == [] then Err(NoDataMessage)
    else
      var total := |results|;
      var wins := WonCount(results);
      var winRate := (wins as real) / (total as real) * 100.0;
      var totalStake := (total * StakePerBet) as real;
      var totalReturn := (wins * ReturnPerWin) as real;
      var roi := (totalReturn - totalStake) / totalStake * 100.0;
      Ok(Metrics(total, wins, total - wins, winRate, roi, ProfitLoss(total, wins), averageConfidence, bestType))
  }

  /** The win rate is the share of won results, in [0, 100]. */
  lemma WinRateWithin(results: seq<ResultEntry>, averageConfidence: real, bestType: string)
    requires results != []
    ensures var m := MetricsOf(results, averageConfidence, bestType).value;
      && IsPercentOf(m.winRate, m.wins as real, m.totalPredictions as real)
      && 0.0 <= m.winRate <= 100.0
  {
    var wins, total := WonCount(results) as real, |results| as real;
    PercentOfRatio(wins, total);
    PercentWithin(wins, total);
  }

  /** The profit is 25 per win less 100 per loss. */
  lemma ProfitPerOutcome(results: seq<ResultEntry>, averageConfidence: real, bestType: string)
    requires results != []
    ensures var m := MetricsOf(results, averageConfidence, bestType).value;
      m.profitLoss == 25 * m.wins - 100 * m.losses
  {
  }

  /**
   * Break-even at 1.25 is a win rate of 80%: the ROI is non-negative exactly
   * when five wins are at least four bets.
   */
  lemma BreakEven(results: seq<ResultEntry>, averageConfidence: real, bestType: string)
    requires results != []
    ensures var m := MetricsOf(results, averageConfidence, bestType).value;
      m.roi >= 0.0 <==> 5 * m.wins >= 4 * m.totalPredictions
  {
    var total, wins := |results|, WonCount(results);
    var totalStake := (total * StakePerBet) as real;
    var gain := (wins * ReturnPerWin) as real - totalStake;
    var q := gain / totalStake;
    assert q * totalStake == gain;
    assert q >= 0.0 <==> gain >= 0.0 by {
      if q >= 0.0 {
        assert q * totalStake >= 0.0;
      } else {
        assert q * totalStake < 0.0;
      }
    }
    assert gain >= 0.0 <==> 125 * wins >= 100 * total;
  }

  // ---------------------------------------------------------------------
  // Average confidence
  // ---------------------------------------------------------------------

  /** `p.get('confidence', 0)`. */
  function ConfidenceOf(p: Prediction): real
  {
    if p.confidence.Some? then p.confidence.value else 0.0
  }

  function ConfidenceTotal(ps: seq<Prediction>): real
  {
    if ps == [] then 0.0 else ConfidenceTotal(ps[..|ps| - 1]) + ConfidenceOf(ps[|ps| - 1])
  }

  /** `_calculate_average_confidence`: the mean confidence as a percentage, 0 without predictions. */
  function AverageConfidenceOf(ps: seq<Prediction>): (r: real)
    ensures ps == [] ==> r == 0.0
    ensures ps != [] ==> IsPercentOf(r, ConfidenceTotal(ps), |ps| as real)
  {
    if ps == [] then 0.0
    else
      PercentOfRatio(ConfidenceTotal(ps), |ps| as real);
      ConfidenceTotal(ps) / (|ps| as real) * 100.0
  }

  /** Confidences in [0, 1], including missing ones counted as 0, add up to at most one per prediction. */
  lemma {:induction false} ConfidenceTotalWithin(ps: seq<Prediction>)
    requires forall i :: 0 <= i < |ps| ==> 0.0 <= ConfidenceOf(ps[i]) <= 1.0
    ensures 0.0 <= ConfidenceTotal(ps) <= |ps| as real
  {
    if ps != [] {
      var init := ps[..|ps| - 1];
      assert forall i :: 0 <= i < |init| ==> init[i] == ps[i];
      ConfidenceTotalWithin(init);
    }
  }

  /** With confidences in [0, 1] the average confidence is a percentage in [0, 100]. */
  lemma AverageConfidenceWithin(ps: seq<Prediction>)
    requires forall i :: 0 <= i < |ps| ==> 0.0 <= ConfidenceOf(ps[i]) <= 1.0
    ensures 0.0 <= AverageConfidenceOf(ps) <= 100.0
  {
    if ps != [] {
      ConfidenceTotalWithin(ps);
      PercentWithin(ConfidenceTotal(ps), |ps| as real);
    }
  }

  // ---------------------------------------------------------------------
  // Best bet type
  // ---------------------------------------------------------------------

  /** `pred.get('recommended_bet', 'unknown')`. */
  function BetTypeOf(p: Prediction): string
  {
    if p.recommendedBet.Some? then p.recommendedBet.value else UnknownBetType
  }

  /** One item per prediction, keyed by its bet type, for the dictionary tally. */
  function BetTypeItems(ps: seq<Prediction>): (items: seq<(string, real)>)
    ensures |items| == |ps|
    ensures forall i :: 0 <= i < |ps| ==> items[i].0 == BetTypeOf(ps[i])
  {
    seq(|ps|, i requires 0 <= i < |ps| => (BetTypeOf(ps[i]), 1.0))
  }

  /** `int(total * 0.8)`: the simulated number of wins of a bet type. */
  function SimulatedWins(total: nat): nat
  {
    total * 4 / 5
  }

  /** Four fifths rounded down: exact precisely on multiples of five. */
  lemma SimulatedWinsExact(total: nat)
    ensures 5 * SimulatedWins(total) <= 4 * total
    ensures 5 * SimulatedWins(total) == 4 * total <==> total % 5 == 0
  {
    var q, r := total / 5, total % 5;
    assert total == 5 * q + r && 0 <= r < 5;
    assert 4 * total == 5 * (4 * q) + 4 * r;
    if r == 0 {
      assert SimulatedWins(total) == 4 * q;
    } else if r == 1 {
      assert SimulatedWins(total) == 4 * q;
    } else if r == 2 {
      assert SimulatedWins(total) == 4 * q + 1;
    } else if r == 3 {
      assert SimulatedWins(total) == 4 * q + 2;
    } else {
      assert SimulatedWins(total) == 4 * q + 3;
    }
  }

  /** `wins / max(1, total)`. */
  function SuccessRate(total: nat): real
  {
    (SimulatedWins(total) as real) / (if total >= 1 then total as real else 1.0)
  }

  /**
   * The simulated success rate never exceeds 80%, and reaches it exactly
   * when the number of predictions of the type is a multiple of five.
   */
  lemma SuccessRateCeiling(total: nat)
    requires total > 0
    ensures 0.0 <= SuccessRate(total) <= 0.8
    ensures SuccessRate(total) == 0.8 <==> total % 5 == 0
  {
    var w, t := SimulatedWins(total), total as real;
    SimulatedWinsExact(total);
    var q := SuccessRate(total);
    assert q * t == w as real;
    assert (q - 0.8) * t == (w as real) - 0.8 * t;
    FactorSign(q - 0.8, t);
    FactorSign(q, t);
  }

  /** The success rates of the bet types `ks`, in dictionary order. */
  function Rates(ks: seq<string>, items: seq<(string, real)>): (rs: seq<real>)
    ensures |rs| == |ks|
    ensures forall i :: 0 <= i < |ks| ==> rs[i] == SuccessRate(CountOf(items, ks[i]))
  {
    seq(|ks|, i requires 0 <= i < |ks| => SuccessRate(CountOf(items, ks[i])))
  }

  /**
   * `_find_best_bet_type`: 'N/A' without predictions, else the first bet
   * type, in dictionary order, whose simulated success rate is largest.
   */
  function BestBetTypeOf(ps: seq<Prediction>): (r: string)
    ensures ps == [] ==> r == NoBetType
    ensures ps != [] ==> r in Keys(BetTypeItems(ps))
  {
    var items := BetTypeItems(ps);
    var ks := Keys(items);
    assert ps != [] ==> items[0].0 in ks;
    if ks == [] then NoBetType
    else ks[ArgMax(Rates(ks, items))]
  }

  /** The reported bet type beats or ties every other, and strictly beats those seen before it. */
  lemma BestBetTypeIsFirstMaximal(ps: seq<Prediction>)
    requires ps != []
    ensures var items := BetTypeItems(ps); var ks := Keys(items); var best := BestBetTypeOf(ps);
      && (forall k :: k in ks ==> SuccessRate(CountOf(items, k)) <= SuccessRate(CountOf(items, best)))
      && (forall i :: 0 <= i < |ks| && ks[i] == best ==>
            forall j :: 0 <= j < i ==> SuccessRate(CountOf(items, ks[j])) < SuccessRate(CountOf(items, best)))
  {
    var items := BetTypeItems(ps);
    var ks := Keys(items);
    assert items[0].0 in ks;
    var k := ArgMax(Rates(ks, items));
    forall key | key in ks ensures SuccessRate(CountOf(items, key)) <= SuccessRate(CountOf(items, ks[k])) {
      var j :| 0 <= j < |ks| && ks[j] == key;
      assert Rates(ks, items)[j] <= Rates(ks, items)[k];
    }
    forall i | 0 <= i < |ks| && ks[i] == ks[k]
      ensures forall j :: 0 <= j < i ==> SuccessRate(CountOf(items, ks[j])) < SuccessRate(CountOf(items, ks[k]))
    {
      assert i == k;
    }
  }

  /** When some bet type has a multiple of five predictions, the reported type reaches the 80% ceiling. */
  lemma BestBetTypeReachesCeiling(ps: seq<Prediction>, k: string)
    requires k in Keys(BetTypeItems(ps)) && CountOf(BetTypeItems(ps), k) % 5 == 0
    ensures SuccessRate(CountOf(BetTypeItems(ps), BestBetTypeOf(ps))) == 0.8
  {
    var items := BetTypeItems(ps);
    var best := BestBetTypeOf(ps);
    assert ps != [];
    BestBetTypeIsFirstMaximal(ps);
    CountOfPositive(items, k);
    CountOfPositive(items, best);
    SuccessRateCeiling(CountOf(items, k));
    SuccessRateCeiling(CountOf(items, best));
  }

  /** The second dictionary loop: every bet type gets `int(total * 0.8)` simulated wins. */
  method SimulateWins(keys: seq<string>, tallies: map<string, Tally>, items: seq<(string, real)>)
    returns (wins: map<string, nat>)
    requires forall k :: k in tallies <==> k in keys
    requires forall k :: k in tallies ==> tallies[k].count == CountOf(items, k)
    ensures forall k :: k in wins <==> k in keys
    ensures forall k :: k in wins ==> wins[k] == SimulatedWins(CountOf(items, k))
  {
    wins := map[];
    var i := 0;
    while i < |keys|
      invariant 0 <= i <= |keys|
      invariant forall k :: k in wins <==> k in keys[..i]
      invariant forall k :: k in wins ==> wins[k] == SimulatedWins(CountOf(items, k))
    {
      wins := wins[keys[i] := SimulatedWins(tallies[keys[i]].count)];
      i := i + 1;
    }
    assert keys[..|keys|] == keys;
  }

  // ---------------------------------------------------------------------
  // The tracker object
  // ---------------------------------------------------------------------

  class PerformanceTracker {
    var predictionsHistory: seq<Prediction>
    var resultsHistory: seq<ResultEntry>

    constructor()
      ensures predictionsHistory == [] && resultsHistory == []
    {
      predictionsHistory := [];
      resultsHistory := [];
    }

    /** `add_prediction`: stamp the prediction with the current time and append it. */
    method AddPrediction(prediction: Prediction, now: int)
      modifies this
      ensures predictionsHistory == old(predictionsHistory) + [prediction.(timestamp := Some(now))]
      ensures resultsHistory == old(resultsHistory)
    {
      predictionsHistory := predictionsHistory + [prediction.(timestamp := Some(now))];
    }

    /** `add_result`: append one settled result, stamped with the current time. */
    method AddResult(predictionId: string, actualResult: string, won: bool, now: int)
      modifies this
      ensures resultsHistory == old(resultsHistory) + [ResultEntry(predictionId, actualResult, won, now)]
      ensures predictionsHistory == old(predictionsHistory)
    {
      resultsHistory := resultsHistory + [ResultEntry(predictionId, actualResult, won, now)];
    }

    /**
     * `_find_best_bet_type`: tally the predictions per bet type, set the
     * simulated wins of each type, then take the first type of largest rate.
     */
    method FindBestBetType() returns (best: string)
      ensures best == BestBetTypeOf(predictionsHistory)
    {
      var items := BetTypeItems(predictionsHistory);
      var keys, tallies := GroupByKey(items);
      var wins := SimulateWins(keys, tallies, items);
      if keys == [] {
        best := NoBetType;
      } else {
        var rates := seq(|keys|, j requires 0 <= j < |keys| =>
          (wins[keys[j]] as real) / (if tallies[keys[j]].count >= 1 then tallies[keys[j]].count as real else 1.0));
        assert forall j :: 0 <= j < |keys| ==> rates[j] == Rates(keys, items)[j];
        assert rates == Rates(keys, items);
        best := keys[ArgMax(rates)];
      }
    }

    /** `calculate_performance_metrics`. */
    method CalculatePerformanceMetrics() returns (r: Result<Metrics, string>)
      ensures r == MetricsOf(resultsHistory, AverageConfidenceOf(predictionsHistory), BestBetTypeOf(predictionsHistory))
      ensures r.Err? <==> resultsHistory == []
    {
      if resultsHistory == [] {
        return Err(NoDataMessage);
      }
      var best := FindBestBetType();
      r := MetricsOf(resultsHistory, AverageConfidenceOf(predictionsHistory), best);
    }
  }
}
