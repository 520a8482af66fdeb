/** The federated orchestrator (`FederatedOrchestrator`): the round
    counter, the global weights and the training history, and the round
    itself: quorum check, aggregation, installing the result in the global
    model, appending to the history and averaging the client metrics by
    data size.

    Loading a state dict follows PyTorch's strict `load_state_dict`: every
    entry whose name and shape match is copied in place, and the call then
    fails if any name is missing, unexpected or of another shape.
    Checkpoint saving and logging are not part of this model. */
module Orchestration {
  import opened Wrappers
  import opened Aggregation
  import AggregationLaws

  type Metrics = map<string, real>

  datatype History = History(rounds: seq<int>, numClients: seq<int>, globalMetrics: seq<Metrics>)

  /** Everything a round reads and writes. */
  datatype OrchState = OrchState(currentRound: int, globalWeights: WeightSet, history: History)

  datatype MetricsError =
    | MissingMetric(key: string)   // a client lacks a metric of the first client
    | ZeroTotalSize                // the data sizes add up to zero

  datatype RoundError =
    | NotEnoughClients
    | AggregationFailed(aggError: AggError)
    | StateDictMismatch
    | MetricsFailed

  datatype Outcome = Outcome(result: Result<WeightSet, RoundError>, state: OrchState)

  // ---------------------------------------------------------------------
  // Loading the aggregated weights

  /** The strict-load condition: the same names, each with its shape. */
  predicate StateDictMatches(current: WeightSet, incoming: WeightSet)
  {
    current.Keys == incoming.Keys && forall k :: k in current ==> |incoming[k]| == |current[k]|
  }

  /** `load_state_dict`: the weights after the copy, and whether the
      strict check passed. */
  function LoadStateDict(current: WeightSet, incoming: WeightSet): (r: (WeightSet, bool))
    ensures r.0.Keys == current.Keys
    ensures forall k :: k in current ==> |r.0[k]| == |current[k]|
    ensures r.1 <==> StateDictMatches(current, incoming)
    ensures r.1 ==> r.0 == incoming
    ensures forall k :: k in current && k in incoming && |incoming[k]| == |current[k]| ==> r.0[k] == incoming[k]
    ensures forall k :: k in current && (k !in incoming || |incoming[k]| != |current[k]|) ==> r.0[k] == current[k]
  {
    var copied := map k | k in current ::
      if k in incoming && |incoming[k]| == |current[k]| then incoming[k] else current[k];
    (copied, StateDictMatches(current, incoming))
  }

  // ---------------------------------------------------------------------
  // The size-weighted metric average

  /** The first n clients all report metric `key`. */
  predicate MetricKeyPresent(ms: seq<Metrics>, n: nat, key: string)
    requires n <= |ms|
  {
    forall i :: 0 <= i < n ==> key in ms[i]
  }

  /** The first n clients report every metric of the first client. */
  predicate MetricsComplete(ms: seq<Metrics>, n: nat)
    requires 0 < |ms| && n <= |ms|
  {
    forall key :: key in ms[0] ==> MetricKeyPresent(ms, n, key)
  }

  /** ms[0][key] * sizes[0] + ... + ms[n-1][key] * sizes[n-1]. */
  function MetricSum(ms: seq<Metrics>, sizes: seq<int>, n: nat, key: string): real
    requires n <= |ms| && n <= |sizes| && MetricKeyPresent(ms, n, key)
  {
    if n == 0 then 0.0 else MetricSum(ms, sizes, n - 1, key) + ms[n - 1][key] * sizes[n - 1] as real
  }

  /** `_average_client_metrics` succeeds: there is nothing to average, or
      the sizes have a non-zero total and the clients paired with a size
      report every metric of the first client. */
  predicate MetricsAveragable(ms: seq<Metrics>, sizes: seq<int>)
    requires 0 < |ms|
  {
    ms[0].Keys == {} || (SumInts(sizes) != 0 && MetricsComplete(ms, Min(|ms|, |sizes|)))
  }

  /** The value `_average_client_metrics` returns: for every metric of the
      first client, the size-weighted sum over the zipped clients divided
      by the total of all sizes. */
  function MetricMean(ms: seq<Metrics>, sizes: seq<int>): (r: Metrics)
    requires 0 < |ms| && MetricsAveragable(ms, sizes)
    ensures r.Keys == ms[0].Keys
  {
    var n := Min(|ms|, |sizes|);
    map key | key in ms[0] :: MetricSum(ms, sizes, n, key) / SumInts(sizes) as real
  }

  /** `_average_client_metrics`: metric by metric, sum the zipped
      products, then divide by the total.  The first metric that fails
      decides the error; which one that is depends on the iteration order
      of the first client's dictionary, so only its kind's cause is stated. */
  method AverageClientMetrics(ms: seq<Metrics>, sizes: seq<int>) returns (r: Result<Metrics, MetricsError>)
    requires 0 < |ms|
    ensures r.Success? <==> MetricsAveragable(ms, sizes)
    ensures r.Success? ==> r.value == MetricMean(ms, sizes)
    ensures r == Failure(ZeroTotalSize) ==> SumInts(sizes) == 0
    ensures r.Failure? && r.error.MissingMetric? ==>
      r.error.key in ms[0] && !MetricKeyPresent(ms, Min(|ms|, |sizes|), r.error.key)
  {
    var total := SumInts(sizes);
    var n := Min(|ms|, |sizes|);
    var avg: Metrics := map[];
    var pending := ms[0].Keys;
    ghost var done: set<string> := {};
    while pending != {}
      invariant pending + done == ms[0].Keys && pending !! done
      invariant forall key :: key in done ==> MetricKeyPresent(ms, n, key)
      invariant done != {} ==> total != 0
      invariant avg.Keys == done
      invariant forall key :: key in done ==> avg[key] == MetricSum(ms, sizes, n, key) / total as real
      decreases pending
    {
      var key :| key in pending;
      var sum := 0.0;
      var i := 0;
      while i < n
        invariant 0 <= i <= n
        invariant MetricKeyPresent(ms, i, key)
        invariant sum == MetricSum(ms, sizes, i, key)
      {
        if key !in ms[i] {
          return Failure(MissingMetric(key));
        }
        sum := sum + ms[i][key] * sizes[i] as real;
        i := i + 1;
      }
      if total == 0 {
        return Failure(ZeroTotalSize);
      }
      avg := avg[key := sum / total as real];
      pending := pending - {key};
      done := done + {key};
    }
    return Success(avg);
  }

  // ---------------------------------------------------------------------
  // A round

  /** `aggregate_client_updates` on a state: the quorum check, the
      aggregation (with the given sizes), the strict load, the history
      append and the metric average, each failure leaving the state as the
      source leaves it at that point. */
  function AggregateUpdates(aggMethod: string, minClients: int, s: OrchState, ws: seq<WeightSet>,
                            sizes: seq<int>, metrics: Option<seq<Metrics>>): (o: Outcome)
    ensures o.state.currentRound == s.currentRound
    ensures |ws| < minClients ==> o == Outcome(Failure(NotEnoughClients), s)
    ensures o.result.Success? ==>
      AggregateSpec(aggMethod, ws, Some(sizes), None) == Success(o.result.value) &&
      o.state.globalWeights == o.result.value
  {
    if |ws| < minClients then Outcome(Failure(NotEnoughClients), s)
    else
      var agg := AggregateSpec(aggMethod, ws, Some(sizes), None);
      if agg.Failure? then Outcome(Failure(AggregationFailed(agg.error)), s)
      else
        var loaded := LoadStateDict(s.globalWeights, agg.value);
        if !loaded.1 then Outcome(Failure(StateDictMismatch), s.(globalWeights := loaded.0))
        else
          var h := s.history.(rounds := s.history.rounds + [s.currentRound],
                              numClients := s.history.numClients + [|ws|]);
          var s1 := s.(globalWeights := loaded.0, history := h);
          if metrics.None? || metrics.value == [] then Outcome(Success(agg.value), s1)
          else if !MetricsAveragable(metrics.value, sizes) then Outcome(Failure(MetricsFailed), s1)
          else
            Outcome(Success(agg.value),
                    s1.(history := h.(globalMetrics := h.globalMetrics + [MetricMean(metrics.value, sizes)])))
  }

  /** `run_round` on a state: the counter is advanced first, whatever
      happens next. */
  function RunRoundSpec(aggMethod: string, minClients: int, s: OrchState, ws: seq<WeightSet>,
                        sizes: seq<int>, metrics: Option<seq<Metrics>>): (o: Outcome)
    ensures o.state.currentRound == s.currentRound + 1
  {
    AggregateUpdates(aggMethod, minClients, s.(currentRound := s.currentRound + 1), ws, sizes, metrics)
  }

  class FederatedOrchestrator {
    const aggregator: FederatedAggregator
    const minClients: int
    var globalWeights: WeightSet
    var currentRound: int
    var history: History

    function State(): OrchState
      reads this
    {
      OrchState(currentRound, globalWeights, history)
    }

    /** `__init__`; the source's defaults, "fedavg" and a quorum of two
        clients, are passed explicitly here.  The model's weights stand
        for the global model's state dict. */
    constructor (globalWeights: WeightSet, aggregationMethod: string, minClients: int)
      ensures aggregator.aggregationMethod == aggregationMethod && this.minClients == minClients
      ensures this.globalWeights == globalWeights
      ensures currentRound == 0 && history == History([], [], [])
    {
      aggregator := new FederatedAggregator(aggregationMethod);
      this.minClients := minClients;
      this.globalWeights := globalWeights;
      currentRound := 0;
      history := History([], [], []);
    }

    /** `get_global_weights`. */
    function GetGlobalWeights(): (r: WeightSet)
      reads this
      ensures r == State().globalWeights
    {
      globalWeights
    }

    /** `get_history`. */
    function GetHistory(): (r: History)
      reads this
      ensures r == State().history
    {
      history
    }

    /** `aggregate_client_updates`.  Besides the outcome it returns the
        squared norm of the update, taken against the weights as they were
        before the load. */
    method AggregateClientUpdates(ws: seq<WeightSet>, sizes: seq<int>, metrics: Option<seq<Metrics>>)
      returns (r: Result<WeightSet, RoundError>, updateNorm: real)
      modifies this
      ensures Outcome(r, State()) ==
        AggregateUpdates(aggregator.aggregationMethod, minClients, old(State()), ws, sizes, metrics)
      ensures r.Success? ==> ConformsOn(old(globalWeights), globalWeights, old(globalWeights).Keys)
      ensures r.Success? ==> updateNorm == SquaredDistance(old(globalWeights), globalWeights)
    {
      updateNorm := 0.0;
      if |ws| < minClients {
        return Failure(NotEnoughClients), updateNorm;
      }
      var agg := aggregator.Aggregate(ws, Some(sizes), None);
      if agg.Failure? {
        return Failure(AggregationFailed(agg.error)), updateNorm;
      }
      var before := globalWeights;
      var loaded := LoadStateDict(globalWeights, agg.value);
      globalWeights := loaded.0;
      if !loaded.1 {
        return Failure(StateDictMismatch), updateNorm;
      }
      var diff := aggregator.ComputeModelDiff(before, agg.value);
      if diff.Success? {
        updateNorm := diff.value;
      }
      history := history.(rounds := history.rounds + [currentRound],
                          numClients := history.numClients + [|ws|]);
      if metrics.Some? && metrics.value != [] {
        var avg := AverageClientMetrics(metrics.value, sizes);
        if avg.Failure? {
          return Failure(MetricsFailed), updateNorm;
        }
        history := history.(globalMetrics := history.globalMetrics + [avg.value]);
      }
      return Success(agg.value), updateNorm;
    }

    /** `run_round` without the checkpoint. */
    method RunRound(ws: seq<WeightSet>, sizes: seq<int>, metrics: Option<seq<Metrics>>)
      returns (r: Result<WeightSet, RoundError>, updateNorm: real)
      modifies this
      ensures currentRound == old(currentRound) + 1
      ensures Outcome(r, State()) ==
        RunRoundSpec(aggregator.aggregationMethod, minClients, old(State()), ws, sizes, metrics)
    {
      currentRound := currentRound + 1;
      r, updateNorm := AggregateClientUpdates(ws, sizes, metrics);
    }
  }

  // ---------------------------------------------------------------------
  // Properties of rounds

  /** What the history lists keep across rounds: one client count per
      recorded round, at most one metric average per round, every count
      at least the quorum, and no round number beyond the counter. */
  predicate HistoryConsistent(s: OrchState, minClients: int)
  {
    |s.history.rounds| == |s.history.numClients| &&
    |s.history.globalMetrics| <= |s.history.rounds| &&
    (forall i :: 0 <= i < |s.history.numClients| ==> minClients <= s.history.numClients[i]) &&
    (forall i :: 0 <= i < |s.history.rounds| ==> s.history.rounds[i] <= s.currentRound)
  }

  predicate StrictlyIncreasing(s: seq<int>)
  {
    forall i, j :: 0 <= i < j < |s| ==> s[i] < s[j]
  }

  /** A fresh orchestrator starts at round 0 with an empty history. */
  lemma InitialHistoryConsistent(weights: WeightSet, minClients: int)
    ensures HistoryConsistent(OrchState(0, weights, History([], [], [])), minClients)
    ensures StrictlyIncreasing([])
  {
  }

  /** A round, successful or not, keeps the history consistent. */
  lemma AggregateKeepsHistoryConsistent(aggMethod: string, minClients: int, s: OrchState, ws: seq<WeightSet>,
                                        sizes: seq<int>, metrics: Option<seq<Metrics>>)
    requires HistoryConsistent(s, minClients)
    ensures HistoryConsistent(AggregateUpdates(aggMethod, minClients, s, ws, sizes, metrics).state, minClients)
  {
    var o := AggregateUpdates(aggMethod, minClients, s, ws, sizes, metrics);
    var r, n := o.state.history.rounds, o.state.history.numClients;
    assert r == s.history.rounds || r == s.history.rounds + [s.currentRound];
    assert n == s.history.numClients || (n == s.history.numClients + [|ws|] && minClients <= |ws|);
  }

  /** Through `run_round`, round numbers stay strictly increasing and
      below the counter, and the counter advances by one. */
  lemma RunRoundKeepsRoundsIncreasing(aggMethod: string, minClients: int, s: OrchState, ws: seq<WeightSet>,
                                      sizes: seq<int>, metrics: Option<seq<Metrics>>)
    requires HistoryConsistent(s, minClients) && StrictlyIncreasing(s.history.rounds)
    ensures var t := RunRoundSpec(aggMethod, minClients, s, ws, sizes, metrics).state;
      t.currentRound == s.currentRound + 1 &&
      HistoryConsistent(t, minClients) && StrictlyIncreasing(t.history.rounds)
  {
    var s1 := s.(currentRound := s.currentRound + 1);
    AggregateKeepsHistoryConsistent(aggMethod, minClients, s1, ws, sizes, metrics);
    var t := AggregateUpdates(aggMethod, minClients, s1, ws, sizes, metrics).state;
    assert t.history.rounds == s.history.rounds || t.history.rounds == s.history.rounds + [s1.currentRound];
  }

  /** A successful `run_round` records the new round number and the number
      of submissions, and installs the aggregate as the global weights. */
  lemma RunRoundSuccess(aggMethod: string, minClients: int, s: OrchState, ws: seq<WeightSet>,
                        sizes: seq<int>, metrics: Option<seq<Metrics>>)
    requires RunRoundSpec(aggMethod, minClients, s, ws, sizes, metrics).result.Success?
    ensures var o := RunRoundSpec(aggMethod, minClients, s, ws, sizes, metrics);
      minClients <= |ws| &&
      o.state.currentRound == s.currentRound + 1 &&
      o.state.history.rounds == s.history.rounds + [s.currentRound + 1] &&
      o.state.history.numClients == s.history.numClients + [|ws|] &&
      o.state.globalWeights == o.result.value &&
      AggregateSpec(aggMethod, ws, Some(sizes), None) == Success(o.result.value)
  {
  }

  /** `run_round` advances the counter even when the quorum check fails,
      and that failure leaves everything else as it was. */
  lemma RunRoundWithoutQuorum(aggMethod: string, minClients: int, s: OrchState, ws: seq<WeightSet>,
                              sizes: seq<int>, metrics: Option<seq<Metrics>>)
    requires |ws| < minClients
    ensures RunRoundSpec(aggMethod, minClients, s, ws, sizes, metrics)
         == Outcome(Failure(NotEnoughClients), s.(currentRound := s.currentRound + 1))
  {
  }

  /** A failing metric average still leaves the new weights installed and
      the round recorded, with no metrics entry for it. */
  lemma MetricsFailureIsPartial(aggMethod: string, minClients: int, s: OrchState, ws: seq<WeightSet>,
                                sizes: seq<int>, metrics: Option<seq<Metrics>>)
    requires AggregateUpdates(aggMethod, minClients, s, ws, sizes, metrics).result == Failure(MetricsFailed)
    ensures var t := AggregateUpdates(aggMethod, minClients, s, ws, sizes, metrics).state;
      AggregateSpec(aggMethod, ws, Some(sizes), None).Success? &&
      t.globalWeights == AggregateSpec(aggMethod, ws, Some(sizes), None).value &&
      t.history.rounds == s.history.rounds + [s.currentRound] &&
      t.history.globalMetrics == s.history.globalMetrics
  {
  }

  /** Calling `aggregate_client_updates` directly does not advance the
      counter, so two successful direct calls record the same round twice
      and the rounds list is no longer strictly increasing. */
  lemma DirectCallsRepeatRound(aggMethod: string, minClients: int, s: OrchState,
                               ws1: seq<WeightSet>, sizes1: seq<int>, m1: Option<seq<Metrics>>,
                               ws2: seq<WeightSet>, sizes2: seq<int>, m2: Option<seq<Metrics>>)
    requires AggregateUpdates(aggMethod, minClients, s, ws1, sizes1, m1).result.Success?
    requires AggregateUpdates(aggMethod, minClients, AggregateUpdates(aggMethod, minClients, s, ws1, sizes1, m1).state,
                              ws2, sizes2, m2).result.Success?
    ensures var t := AggregateUpdates(aggMethod, minClients, AggregateUpdates(aggMethod, minClients, s, ws1, sizes1, m1).state,
                                      ws2, sizes2, m2).state;
      t.history.rounds == s.history.rounds + [s.currentRound, s.currentRound] &&
      !StrictlyIncreasing(t.history.rounds)
  {
    var s1 := AggregateUpdates(aggMethod, minClients, s, ws1, sizes1, m1).state;
    AggregateSuccessRecordsRound(aggMethod, minClients, s, ws1, sizes1, m1);
    AggregateSuccessRecordsRound(aggMethod, minClients, s1, ws2, sizes2, m2);
    var t := AggregateUpdates(aggMethod, minClients, s1, ws2, sizes2, m2).state;
    var k := |s.history.rounds|;
    assert t.history.rounds[k] == t.history.rounds[k + 1];
  }

  /** A successful aggregation records the current round number once. */
  lemma AggregateSuccessRecordsRound(aggMethod: string, minClients: int, s: OrchState, ws: seq<WeightSet>,
                                     sizes: seq<int>, metrics: Option<seq<Metrics>>)
    requires AggregateUpdates(aggMethod, minClients, s, ws, sizes, metrics).result.Success?
    ensures AggregateUpdates(aggMethod, minClients, s, ws, sizes, metrics).state.history.rounds
         == s.history.rounds + [s.currentRound]
  {
  }

  // ---------------------------------------------------------------------
  // The metric average is FedAvg on one-element tensors

  /** Each client's metrics as a weight set of one-element tensors. */
  function AsTensors(ms: seq<Metrics>): (ws: seq<WeightSet>)
    ensures |ws| == |ms|
    ensures forall i :: 0 <= i < |ms| ==> ws[i].Keys == ms[i].Keys
    ensures forall i, key :: 0 <= i < |ms| && key in ms[i] ==> ws[i][key] == [ms[i][key]]
  {
    seq(|ms|, i requires 0 <= i < |ms| => map key | key in ms[i] :: [ms[i][key]])
  }

  lemma {:induction false} MetricSumIsSizeWeightedSum(ms: seq<Metrics>, sizes: seq<int>, m: nat, key: string)
    requires 0 < |ms| && m <= |ms| && m <= |sizes| && key in ms[0] && MetricKeyPresent(ms, m, key)
    ensures KeyConforms(AsTensors(ms), m, key)
    ensures MetricSum(ms, sizes, m, key) == AggregationLaws.SizeWeightedSum(AsTensors(ms), sizes, m, key, 0)
  {
    if m > 0 {
      MetricSumIsSizeWeightedSum(ms, sizes, m - 1, key);
    }
  }

  /** The size-weighted metric average agrees with FedAvg applied to the
      metrics as one-element tensors with the same sizes. */
  lemma MetricMeanIsFedAvg(ms: seq<Metrics>, sizes: seq<int>, key: string)
    requires 0 < |ms| && MetricsAveragable(ms, sizes) && key in ms[0]
    ensures FedAvg(AsTensors(ms), sizes).Success?
    ensures key in FedAvg(AsTensors(ms), sizes).value
    ensures MetricMean(ms, sizes)[key] == FedAvg(AsTensors(ms), sizes).value[key][0]
  {
    var ws := AsTensors(ms);
    var n := Min(|ms|, |sizes|);
    assert Uniform(ws, n) by {
      forall k | k in ws[0] ensures KeyConforms(ws, n, k) {
        MetricSumIsSizeWeightedSum(ms, sizes, n, k);
      }
    }
    assert 0 < |sizes|;
    AggregationLaws.FedAvgIsWeightedMean(ws, sizes, key, 0);
    MetricSumIsSizeWeightedSum(ms, sizes, n, key);
  }

  // ---------------------------------------------------------------------
  // The logged update norm

  /** As written, `old_weights` is the model's own state dict, whose
      tensors share storage with the parameters that `load_state_dict`
      then overwrites in place.  Read after a successful load it holds the
      new weights, so the logged norm is zero whatever the update. */
  lemma LoggedNormAsWritten(current: WeightSet, incoming: WeightSet)
    requires StateDictMatches(current, incoming)
    ensures var view := LoadStateDict(current, incoming).0;
      ConformsOn(view, incoming, view.Keys) && SquaredDistance(view, incoming) == 0.0
  {
    var view := LoadStateDict(current, incoming).0;
    AggregationLaws.ModelDiffZeroIff(view, incoming);
  }

  /** Taken against the weights as they were before the load, as
      `AggregateClientUpdates` does, the norm is zero exactly when the
      round changed nothing. */
  lemma UpdateNormCorrected(current: WeightSet, incoming: WeightSet)
    requires StateDictMatches(current, incoming)
    ensures ConformsOn(current, incoming, current.Keys)
    ensures 0.0 <= SquaredDistance(current, incoming)
    ensures SquaredDistance(current, incoming) == 0.0 <==> incoming == current
  {
    AggregationLaws.ModelDiffZeroIff(current, incoming);
    if SquaredDistance(current, incoming) == 0.0 {
      assert forall k :: k in incoming ==> incoming[k] == current[k];
    }
  }
}
