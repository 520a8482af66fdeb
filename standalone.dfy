/** The standalone federated simulation: a hash-free ledger
    (`SimpleLedger`), its own FedAvg (`fedavg_aggregate`) and the round
    loop of `run_fl_simulation`.

    Local training is opaque: a `Trainer` gives, for a round, a hospital
    and the global weights, either nothing (the hospital's data is
    missing) or the trained weights, the dataset size and the loss and
    accuracy.  The wall clock is a function from the index of the block
    being written to its timestamp.  The dtype cast at the end of
    `fedavg_aggregate`, printing and the final saves are not modelled. */
module Standalone {
  import opened Wrappers
  import opened Values
  import opened Aggregation
  import Orchestration

  datatype SimpleBlock = SimpleBlock(index: int, timestamp: string, blockType: string, data: Value)

  const GenesisType: string := "genesis"
  const GenesisData: string := "MedChain-FL Genesis Block"
  const ClientUpdateType: string := "client_update"
  const FlRoundType: string := "fl_round"
  /** The hospitals of the simulation, in the order they train. */
  const Hospitals: seq<string> := ["italy", "pakistan", "usa"]
  /** Aggregation needs at least this many successful hospitals. */
  const MinParticipants: nat := 2

  /** Every block's index is its position. */
  predicate Dense(chain: seq<SimpleBlock>)
  {
    forall i :: 0 <= i < |chain| ==> chain[i].index == i
  }

  /** A block numbered by the current length keeps the chain dense. */
  lemma AppendKeepsDense(chain: seq<SimpleBlock>, b: SimpleBlock)
    requires Dense(chain) && b.index == |chain|
    ensures Dense(chain + [b])
  {
  }

  function Genesis(now: string): SimpleBlock
  {
    SimpleBlock(0, now, GenesisType, Str(GenesisData))
  }

  class SimpleLedger {
    var chain: seq<SimpleBlock>

    /** `__init__`: the genesis block alone. */
    constructor (now: string)
      ensures chain == [Genesis(now)]
      ensures Dense(chain)
    {
      chain := [Genesis(now)];
    }

    /** `add_block`: append a block numbered by the current length, and
        return it. */
    method AddBlock(blockType: string, data: Value, now: string) returns (b: SimpleBlock)
      modifies this
      ensures b == SimpleBlock(|old(chain)|, now, blockType, data)
      ensures chain == old(chain) + [b]
    {
      b := SimpleBlock(|chain|, now, blockType, data);
      chain := chain + [b];
    }
  }

  /** `fedavg_aggregate`: the same zero-initialised, client-by-client
      accumulation as `federated_averaging`, with the same failures: no
      clients, a zero total, a client lacking a parameter of the first. */
  method FedavgAggregate(ws: seq<WeightSet>, sizes: seq<int>) returns (r: Result<WeightSet, AggError>)
    ensures r == FedAvg(ws, sizes)
  {
    if |ws| == 0 {
      return Failure(NoClients);
    }
    var n := Min(|ws|, |sizes|);
    if n > 0 && SumInts(sizes) == 0 {
      return Failure(ZeroTotal);
    }
    r := Accumulate(ws, SizeCoefficients(sizes), n);
  }

  // ---------------------------------------------------------------------
  // One round, as functions

  datatype TrainMetrics = TrainMetrics(loss: real, accuracy: real)
  datatype TrainResult = TrainResult(weights: WeightSet, size: int, metrics: TrainMetrics)

  /** The opaque outcome of `train_hospital`. */
  type Trainer = (nat, string, WeightSet) -> Option<TrainResult>

  datatype SimError = AggregationFailed(error: AggError) | LoadFailed

  /** The global weights, the ledger's blocks, and the error that stopped
      the simulation, if any. */
  datatype Sim = Sim(weights: WeightSet, chain: seq<SimpleBlock>, failed: Option<SimError>)

  /** The hospitals whose training returned weights, in training order,
      each with its result. */
  function Successes(round: nat, hospitals: seq<string>, weights: WeightSet, train: Trainer)
    : (ps: seq<(string, TrainResult)>)
    ensures |ps| <= |hospitals|
    ensures forall i :: 0 <= i < |ps| ==> ps[i].0 in hospitals && train(round, ps[i].0, weights) == Some(ps[i].1)
  {
    if hospitals == [] then []
    else
      var last := hospitals[|hospitals| - 1];
      var rest := Successes(round, hospitals[..|hospitals| - 1], weights, train);
      assert hospitals == hospitals[..|hospitals| - 1] + [last];
      match train(round, last, weights)
      case None => rest
      case Some(res) => rest + [(last, res)]
  }

  /** Training one more hospital adds it to the successes exactly when its
      training returns a result. */
  lemma SuccessesStep(round: nat, hospitals: seq<string>, h: string, weights: WeightSet, train: Trainer)
    ensures Successes(round, hospitals + [h], weights, train)
         == match train(round, h, weights)
            case None => Successes(round, hospitals, weights, train)
            case Some(res) => Successes(round, hospitals, weights, train) + [(h, res)]
  {
    assert (hospitals + [h])[..|hospitals|] == hospitals;
  }

  /** Every hospital whose training returns a result is among the
      successes, with that result. */
  lemma {:induction false} SuccessesComplete(round: nat, hospitals: seq<string>, weights: WeightSet, train: Trainer,
                                             h: string)
    requires h in hospitals && train(round, h, weights).Some?
    ensures (h, train(round, h, weights).value) in Successes(round, hospitals, weights, train)
  {
    var front := hospitals[..|hospitals| - 1];
    var last := hospitals[|hospitals| - 1];
    assert hospitals == front + [last];
    SuccessesStep(round, front, last, weights, train);
    if h != last {
      SuccessesComplete(round, front, weights, train, h);
    }
  }

  function WeightsOf(ps: seq<(string, TrainResult)>): (r: seq<WeightSet>)
    ensures |r| == |ps| && forall i :: 0 <= i < |ps| ==> r[i] == ps[i].1.weights
  {
    seq(|ps|, i requires 0 <= i < |ps| => ps[i].1.weights)
  }

  function SizesOf(ps: seq<(string, TrainResult)>): (r: seq<int>)
    ensures |r| == |ps| && forall i :: 0 <= i < |ps| ==> r[i] == ps[i].1.size
  {
    seq(|ps|, i requires 0 <= i < |ps| => ps[i].1.size)
  }

  function MetricsOf(ps: seq<(string, TrainResult)>): (r: seq<TrainMetrics>)
    ensures |r| == |ps| && forall i :: 0 <= i < |ps| ==> r[i] == ps[i].1.metrics
  {
    seq(|ps|, i requires 0 <= i < |ps| => ps[i].1.metrics)
  }

  lemma ProjectionsAppend(ps: seq<(string, TrainResult)>, p: (string, TrainResult))
    ensures WeightsOf(ps + [p]) == WeightsOf(ps) + [p.1.weights]
    ensures SizesOf(ps + [p]) == SizesOf(ps) + [p.1.size]
    ensures MetricsOf(ps + [p]) == MetricsOf(ps) + [p.1.metrics]
  {
    assert WeightsOf(ps + [p]) == WeightsOf(ps) + [p.1.weights];
    assert SizesOf(ps + [p]) == SizesOf(ps) + [p.1.size];
  }

  function Losses(ms: seq<TrainMetrics>): (r: seq<real>)
    ensures |r| == |ms| && forall i :: 0 <= i < |ms| ==> r[i] == ms[i].loss
  {
    seq(|ms|, i requires 0 <= i < |ms| => ms[i].loss)
  }

  function Accuracies(ms: seq<TrainMetrics>): (r: seq<real>)
    ensures |r| == |ms| && forall i :: 0 <= i < |ms| ==> r[i] == ms[i].accuracy
  {
    seq(|ms|, i requires 0 <= i < |ms| => ms[i].accuracy)
  }

  /** The unweighted arithmetic mean. */
  function Mean(xs: seq<real>): real
    requires 0 < |xs|
  {
    SumReals(xs) / |xs| as real
  }

  /** The payload of a `client_update` block (rounds are shown from 1). */
  function ClientUpdateValue(round: nat, hospital: string, res: TrainResult): Value
  {
    Obj(map["round" := Int(round + 1), "hospital" := Str(hospital), "data_size" := Int(res.size),
            "metrics" := MetricsValue(map["loss" := res.metrics.loss, "accuracy" := res.metrics.accuracy])])
  }

  /** The payload of an `fl_round` block. */
  function FlRoundValue(round: nat, numClients: nat, avgLoss: real, avgAccuracy: real): Value
  {
    Obj(map["round" := Int(round + 1), "num_clients" := Int(numClients),
            "avg_loss" := Real(avgLoss), "avg_accuracy" := Real(avgAccuracy)])
  }

  function ClientUpdateBlock(index: nat, clock: nat -> string, round: nat, p: (string, TrainResult)): SimpleBlock
  {
    SimpleBlock(index, clock(index), ClientUpdateType, ClientUpdateValue(round, p.0, p.1))
  }

  /** The chain after one `client_update` block per successful hospital. */
  function RecordUpdates(chain: seq<SimpleBlock>, round: nat, ps: seq<(string, TrainResult)>, clock: nat -> string)
    : (c: seq<SimpleBlock>)
    ensures |c| == |chain| + |ps|
  {
    if ps == [] then chain
    else
      var c := RecordUpdates(chain, round, ps[..|ps| - 1], clock);
      c + [ClientUpdateBlock(|c|, clock, round, ps[|ps| - 1])]
  }

  /** Recording one more success appends its block. */
  lemma RecordUpdatesStep(chain: seq<SimpleBlock>, round: nat, ps: seq<(string, TrainResult)>,
                          p: (string, TrainResult), clock: nat -> string)
    ensures RecordUpdates(chain, round, ps + [p], clock)
         == RecordUpdates(chain, round, ps, clock) + [ClientUpdateBlock(|chain| + |ps|, clock, round, p)]
  {
    assert (ps + [p])[..|ps|] == ps;
  }

  /** Recording keeps the existing blocks and writes the i-th success at
      position |chain| + i, numbered and timestamped by that position. */
  lemma {:induction false} RecordUpdatesShape(chain: seq<SimpleBlock>, round: nat, ps: seq<(string, TrainResult)>,
                                              clock: nat -> string)
    ensures var c := RecordUpdates(chain, round, ps, clock);
      c[..|chain|] == chain &&
      forall i :: 0 <= i < |ps| ==> c[|chain| + i] == ClientUpdateBlock(|chain| + i, clock, round, ps[i])
  {
    if ps != [] {
      var front := ps[..|ps| - 1];
      RecordUpdatesShape(chain, round, front, clock);
      var c := RecordUpdates(chain, round, front, clock);
      assert RecordUpdates(chain, round, ps, clock) == c + [ClientUpdateBlock(|c|, clock, round, ps[|ps| - 1])];
      assert (c + [ClientUpdateBlock(|c|, clock, round, ps[|ps| - 1])])[..|chain|] == c[..|chain|];
      forall i | 0 <= i < |ps|
        ensures RecordUpdates(chain, round, ps, clock)[|chain| + i] == ClientUpdateBlock(|chain| + i, clock, round, ps[i])
      {
        if i < |front| {
          assert front[i] == ps[i];
        }
      }
    }
  }

  /** One round of `run_fl_simulation`: train every hospital on the
      current global weights, record each success, and when at least two
      succeeded aggregate them by FedAvg, load the result strictly into the
      global model and record the round with the unweighted mean loss and
      accuracy.  An aggregation or load error stops the simulation, after
      the blocks already written. */
  function RoundSpec(round: nat, s: Sim, hospitals: seq<string>, train: Trainer, clock: nat -> string): Sim
  {
    var ps := Successes(round, hospitals, s.weights, train);
    CloseRound(round, s.weights, RecordUpdates(s.chain, round, ps, clock), ps, clock)
  }

  /** The end of a round, once the successes `ps` are recorded in `c`. */
  function CloseRound(round: nat, weights: WeightSet, c: seq<SimpleBlock>, ps: seq<(string, TrainResult)>,
                      clock: nat -> string): Sim
  {
    if |ps| < MinParticipants then Sim(weights, c, None)
    else
      var agg := FedAvg(WeightsOf(ps), SizesOf(ps));
      if agg.Failure? then Sim(weights, c, Some(AggregationFailed(agg.error)))
      else
        var loaded := Orchestration.LoadStateDict(weights, agg.value);
        if !loaded.1 then Sim(loaded.0, c, Some(LoadFailed))
        else
          var ms := MetricsOf(ps);
          var data := FlRoundValue(round, |ps|, Mean(Losses(ms)), Mean(Accuracies(ms)));
          Sim(loaded.0, c + [SimpleBlock(|c|, clock(|c|), FlRoundType, data)], None)
  }

  /** The first k rounds of any round function, from `start`, stopping
      at the first round that fails. */
  function Rounds(k: nat, start: Sim, round: (nat, Sim) -> Sim): Sim
  {
    if k == 0 then start
    else
      var s := Rounds(k - 1, start, round);
      if s.failed.Some? then s else round(k - 1, s)
  }

  /** The genesis ledger and the initial global weights. */
  function Start(initial: WeightSet, clock: nat -> string): Sim
  {
    Sim(initial, [Genesis(clock(0))], None)
  }

  function Step(hospitals: seq<string>, train: Trainer, clock: nat -> string): (nat, Sim) -> Sim
  {
    (round: nat, s: Sim) => RoundSpec(round, s, hospitals, train, clock)
  }

  /** The first k rounds of the simulation. */
  function Simulation(k: nat, initial: WeightSet, hospitals: seq<string>, train: Trainer, clock: nat -> string): Sim
  {
    Rounds(k, Start(initial, clock), Step(hospitals, train, clock))
  }

  // ---------------------------------------------------------------------
  // The simulation loop

  /** The training half of a round: each hospital in turn trains on the
      round's global weights; each success is kept in the three client
      lists and recorded as a `client_update` block. */
  method TrainHospitals(roundNum: nat, hospitals: seq<string>, current: WeightSet, ledger: SimpleLedger,
                        train: Trainer, clock: nat -> string)
    returns (clientWeights: seq<WeightSet>, clientSizes: seq<int>, clientMetrics: seq<TrainMetrics>,
             ghost participants: seq<(string, TrainResult)>)
    modifies ledger
    ensures participants == Successes(roundNum, hospitals, current, train)
    ensures clientWeights == WeightsOf(participants)
    ensures clientSizes == SizesOf(participants)
    ensures clientMetrics == MetricsOf(participants)
    ensures ledger.chain == RecordUpdates(old(ledger.chain), roundNum, participants, clock)
  {
    clientWeights, clientSizes, clientMetrics, participants := [], [], [], [];
    for h := 0 to |hospitals|
      invariant participants == Successes(roundNum, hospitals[..h], current, train)
      invariant clientWeights == WeightsOf(participants)
      invariant clientSizes == SizesOf(participants)
      invariant clientMetrics == MetricsOf(participants)
      invariant ledger.chain == RecordUpdates(old(ledger.chain), roundNum, participants, clock)
    {
      var hospital := hospitals[h];
      assert hospitals[..h + 1] == hospitals[..h] + [hospital];
      SuccessesStep(roundNum, hospitals[..h], hospital, current, train);
      var result := train(roundNum, hospital, current);
      if result.Some? {
        clientWeights := clientWeights + [result.value.weights];
        clientSizes := clientSizes + [result.value.size];
        clientMetrics := clientMetrics + [result.value.metrics];
        ProjectionsAppend(participants, (hospital, result.value));
        RecordUpdatesStep(old(ledger.chain), roundNum, participants, (hospital, result.value), clock);
        participants := participants + [(hospital, result.value)];
        var _ := ledger.AddBlock(ClientUpdateType, ClientUpdateValue(roundNum, hospital, result.value),
                                 clock(|ledger.chain|));
      }
    }
    assert hospitals[..|hospitals|] == hospitals;
  }

  /** The aggregation half of a round: with at least two successes, FedAvg
      of the client lists, a strict load into the global weights and an
      `fl_round` block with the unweighted mean loss and accuracy. */
  method FinishRound(roundNum: nat, globalWeights: WeightSet, clientWeights: seq<WeightSet>, clientSizes: seq<int>,
                     clientMetrics: seq<TrainMetrics>, ghost participants: seq<(string, TrainResult)>,
                     ledger: SimpleLedger, clock: nat -> string)
    returns (newWeights: WeightSet, failure: Option<SimError>)
    requires clientWeights == WeightsOf(participants)
    requires clientSizes == SizesOf(participants)
    requires clientMetrics == MetricsOf(participants)
    modifies ledger
    ensures Sim(newWeights, ledger.chain, failure) == CloseRound(roundNum, globalWeights, old(ledger.chain), participants, clock)
    ensures 0 < |old(ledger.chain)| ==> 0 < |ledger.chain| && ledger.chain[0] == old(ledger.chain)[0]
    ensures Dense(old(ledger.chain)) ==> Dense(ledger.chain)
  {
    newWeights, failure := globalWeights, None;
    if |clientWeights| >= MinParticipants {
      var agg := FedavgAggregate(clientWeights, clientSizes);
      if agg.Failure? {
        failure := Some(AggregationFailed(agg.error));
      } else {
        var loaded := Orchestration.LoadStateDict(globalWeights, agg.value);
        newWeights := loaded.0;
        if !loaded.1 {
          failure := Some(LoadFailed);
        } else {
          var avgLoss := SumReals(Losses(clientMetrics)) / |clientMetrics| as real;
          var avgAccuracy := SumReals(Accuracies(clientMetrics)) / |clientMetrics| as real;
          ghost var before := ledger.chain;
          var b := ledger.AddBlock(FlRoundType, FlRoundValue(roundNum, |clientWeights|, avgLoss, avgAccuracy),
                                   clock(|ledger.chain|));
          if Dense(before) {
            AppendKeepsDense(before, b);
          }
        }
      }
    }
  }

  /** `run_fl_simulation` for `rounds` rounds over the three hospitals. */
  method RunFlSimulation(rounds: nat, initial: WeightSet, train: Trainer, clock: nat -> string)
    returns (globalWeights: WeightSet, ledger: SimpleLedger, failure: Option<SimError>)
    ensures fresh(ledger)
    ensures Sim(globalWeights, ledger.chain, failure) == Simulation(rounds, initial, Hospitals, train, clock)
    ensures 0 < |ledger.chain| && ledger.chain[0] == Genesis(clock(0)) && Dense(ledger.chain)
  {
    ledger := new SimpleLedger(clock(0));
    globalWeights := initial;
    failure := None;
    var roundNum := 0;
    while roundNum < rounds && failure.None?
      invariant 0 <= roundNum <= rounds
      invariant Sim(globalWeights, ledger.chain, failure) == Simulation(roundNum, initial, Hospitals, train, clock)
      invariant 0 < |ledger.chain| && ledger.chain[0] == Genesis(clock(0)) && Dense(ledger.chain)
    {
      var current := globalWeights;
      ghost var before := ledger.chain;
      var clientWeights, clientSizes, clientMetrics, participants := TrainHospitals(roundNum, Hospitals, current, ledger, train, clock);
      RecordKeepsDense(before, roundNum, participants, clock);
      SimulationStep(roundNum, initial, Hospitals, train, clock);
      assert Simulation(roundNum + 1, initial, Hospitals, train, clock)
          == CloseRound(roundNum, current, ledger.chain, participants, clock);
      globalWeights, failure := FinishRound(roundNum, current, clientWeights, clientSizes, clientMetrics,
                                            participants, ledger, clock);
      roundNum := roundNum + 1;
    }
    if failure.Some? {
      FailureIsFinal(roundNum, rounds, Start(initial, clock), Step(Hospitals, train, clock));
    }
  }

  // ---------------------------------------------------------------------
  // Properties

  /** Once a round has failed, later rounds change nothing. */
  lemma {:induction false} FailureIsFinal(k: nat, j: nat, start: Sim, round: (nat, Sim) -> Sim)
    requires k <= j && Rounds(k, start, round).failed.Some?
    ensures Rounds(j, start, round) == Rounds(k, start, round)
    decreases j
  {
    if k < j {
      FailureIsFinal(k, j - 1, start, round);
    }
  }

  /** A simulation that has not failed runs its next round. */
  lemma SimulationStep(k: nat, initial: WeightSet, hospitals: seq<string>, train: Trainer, clock: nat -> string)
    requires Simulation(k, initial, hospitals, train, clock).failed.None?
    ensures Simulation(k + 1, initial, hospitals, train, clock)
         == RoundSpec(k, Simulation(k, initial, hospitals, train, clock), hospitals, train, clock)
  {
  }

  /** A round appends one `client_update` block per hospital whose
      training succeeded, in training order and leaving earlier blocks
      alone; with fewer than two successes the global weights stay as
      they were and no `fl_round` block follows; otherwise, unless the
      aggregate fails, the weights become the FedAvg of the successful
      updates and one `fl_round` block closes the round. */
  lemma RoundRecords(round: nat, s: Sim, hospitals: seq<string>, train: Trainer, clock: nat -> string)
    ensures var ps := Successes(round, hospitals, s.weights, train);
      var t := RoundSpec(round, s, hospitals, train, clock);
      var extra := if |ps| >= MinParticipants && t.failed.None? then 1 else 0;
      |t.chain| == |s.chain| + |ps| + extra &&
      t.chain[..|s.chain|] == s.chain &&
      (forall i :: 0 <= i < |ps| ==> t.chain[|s.chain| + i] == ClientUpdateBlock(|s.chain| + i, clock, round, ps[i])) &&
      (|ps| < MinParticipants ==> t.weights == s.weights && t.failed.None?) &&
      (|ps| >= MinParticipants && t.failed.None? ==>
         FedAvg(WeightsOf(ps), SizesOf(ps)).Success? &&
         t.weights == FedAvg(WeightsOf(ps), SizesOf(ps)).value &&
         t.chain[|t.chain| - 1].blockType == FlRoundType &&
         t.chain[|t.chain| - 1].data == FlRoundValue(round, |ps|, Mean(Losses(MetricsOf(ps))), Mean(Accuracies(MetricsOf(ps)))))
  {
    var ps := Successes(round, hospitals, s.weights, train);
    var c := RecordUpdates(s.chain, round, ps, clock);
    var t := RoundSpec(round, s, hospitals, train, clock);
    RecordUpdatesShape(s.chain, round, ps, clock);
    if |ps| >= MinParticipants && t.failed.None? {
      assert t.chain == c + [t.chain[|t.chain| - 1]];
      assert t.chain[..|s.chain|] == c[..|s.chain|];
    }
  }

  /** A hospital whose training returns nothing leaves no block and no
      weights in the round. */
  lemma MissingDataContributesNothing(round: nat, hospitals: seq<string>, weights: WeightSet, train: Trainer, h: string)
    requires train(round, h, weights).None?
    ensures forall i :: 0 <= i < |Successes(round, hospitals, weights, train)| ==>
      Successes(round, hospitals, weights, train)[i].0 != h
  {
  }

  /** Closing a round keeps the recorded blocks and adds at most one, at
      the next index. */
  lemma CloseRoundChain(round: nat, weights: WeightSet, c: seq<SimpleBlock>, ps: seq<(string, TrainResult)>,
                        clock: nat -> string)
    ensures var t := CloseRound(round, weights, c, ps, clock).chain;
      t[..|c|] == c && (|t| == |c| || (|t| == |c| + 1 && t[|c|].index == |c|))
  {
  }

  /** Recording the successes keeps a dense ledger dense, and its first
      block in place. */
  lemma RecordKeepsDense(chain: seq<SimpleBlock>, round: nat, ps: seq<(string, TrainResult)>, clock: nat -> string)
    requires 0 < |chain| && Dense(chain)
    ensures var c := RecordUpdates(chain, round, ps, clock);
      c[0] == chain[0] && Dense(c)
  {
    var c := RecordUpdates(chain, round, ps, clock);
    RecordUpdatesShape(chain, round, ps, clock);
    forall i | 0 <= i < |c|
      ensures c[i].index == i
    {
      if i < |chain| {
        assert c[i] == c[..|chain|][i];
      } else {
        assert c[|chain| + (i - |chain|)] == ClientUpdateBlock(i, clock, round, ps[i - |chain|]);
      }
    }
    assert c[0] == c[..|chain|][0];
  }

  /** A whole round keeps a dense ledger dense, and its first block in
      place. */
  lemma RoundKeepsDense(round: nat, s: Sim, hospitals: seq<string>, train: Trainer, clock: nat -> string)
    requires 0 < |s.chain| && Dense(s.chain)
    ensures var t := RoundSpec(round, s, hospitals, train, clock).chain;
      0 < |t| && t[0] == s.chain[0] && Dense(t)
  {
    var ps := Successes(round, hospitals, s.weights, train);
    var c := RecordUpdates(s.chain, round, ps, clock);
    RecordKeepsDense(s.chain, round, ps, clock);
    CloseRoundChain(round, s.weights, c, ps, clock);
    var t := CloseRound(round, s.weights, c, ps, clock).chain;
    forall i | 0 <= i < |t|
      ensures t[i].index == i
    {
      if i < |c| {
        assert t[i] == t[..|c|][i];
      }
    }
    assert t[0] == t[..|c|][0];
  }

  lemma {:induction false} SumRealsBounds(xs: seq<real>, lo: real, hi: real)
    requires forall i :: 0 <= i < |xs| ==> lo <= xs[i] <= hi
    ensures |xs| as real * lo <= SumReals(xs) <= |xs| as real * hi
  {
    if xs != [] {
      SumRealsBounds(xs[..|xs| - 1], lo, hi);
    }
  }

  /** The round's average loss (or accuracy) lies between the smallest and
      the largest value reported, whatever the dataset sizes. */
  lemma MeanWithinBounds(xs: seq<real>, lo: real, hi: real)
    requires 0 < |xs|
    requires forall i :: 0 <= i < |xs| ==> lo <= xs[i] <= hi
    ensures lo <= Mean(xs) <= hi
  {
    SumRealsBounds(xs, lo, hi);
    var n := |xs| as real;
    assert lo == (n * lo) / n && hi == (n * hi) / n;
    DivMono(n * lo, SumReals(xs), n);
    DivMono(SumReals(xs), n * hi, n);
  }

  lemma DivMono(a: real, b: real, n: real)
    requires a <= b && 0.0 < n
    ensures a / n <= b / n
  {
  }
}
