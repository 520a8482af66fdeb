# MedChain-FL round coordination, in Dafny

This project models the coordination core of MedChain-FL, a federated-learning system for hospitals:

- **Ledger**: the hash-chained audit ledger. Covers genesis, `add_block`, the `record_*` wrappers, `is_valid`, `get_chain`, `get_fl_rounds`, and the rebuild loop of `load_from_file`.
- **Governance**: the governance "smart contract", a client registry with:
  - a quality threshold on registration;
  - soft deactivation;
  - the quorum check `can_aggregate`;
  - an access log.
- **Aggregation** and **AggregationLaws**: the federated aggregator. Covers FedAvg, normalised weighted aggregation, the `aggregate` dispatch, and the model difference.
- **Orchestration**: the federated orchestrator. Covers the round counter, the global weights, the history lists, `aggregate_client_updates`, `_average_client_metrics` and `run_round`.
- **Standalone**: the standalone simulation script. Covers its hash-free `SimpleLedger`, its own `fedavg_aggregate`, and the round loop of `run_fl_simulation`.
- **ModelUtils**: `freeze_layers`.

Modelling choices:

- **Tensors.** A tensor is a `seq<real>`, and its shape is its length. A model's weights are a `map<string, seq<real>>`.
- **Hash.** The SHA-256 digest of a block is an uninterpreted function held by the ledger. Every ledger property therefore holds for any digest function.
- **Timestamps and training.** Wall-clock timestamps are parameters. Local training is an opaque function returning either nothing or a (weights, size, metrics) triple.
- **Python exceptions** become `Result` failures: a missing key, a division by zero, a shape mismatch, a strict `load_state_dict` mismatch, an unknown aggregation method, and the quorum `ValueError`. Each failure leaves the state as the source leaves it at the point where it raises.
- **zip.** Python's `zip` truncation is modelled: only the first `min(|weights|, |sizes|)` clients are accumulated, while the total is taken over all sizes.

Modules follow the source files:

| file | module | source |
|---|---|---|
| `wrappers.dfy` | `Wrappers` | `Option` / `Result` |
| `values.dfy` | `Values` | JSON-like values |
| `ledger.dfy` | `Ledger` | `blockchain/ledger.py` |
| `smart_contract.dfy` | `Governance` | `blockchain/smart_contract.py` |
| `aggregator.dfy` | `Aggregation` | `federated/aggregator.py` |
| `aggregator_laws.dfy` | `AggregationLaws` | properties of `federated/aggregator.py` |
| `orchestrator.dfy` | `Orchestration` | `federated/orchestrator.py` |
| `standalone.dfy` | `Standalone` | `run_fl_standalone.py` |
| `model_utils.dfy` | `ModelUtils` | `models/model_utils.py` |

Behaviours of the code worth noting:

- `run_round` advances the round counter before the quorum check, so a round rejected for too few clients still consumes a round number.
- `aggregate_client_updates` is public and does not advance the counter. Two direct calls therefore record the same round number twice.
- In `"weighted"` mode the orchestrator's data sizes are ignored, and every client gets weight 1.

## Model

| member | source | states |
|---|---|---|
| Ledger.NewBlock | blockchain/ledger.py:15-46 | A new block keeps the four given fields, and its stored hash is the digest of those fields. |
| Ledger.FlRounds | blockchain/ledger.py:191-197 | The result holds exactly the dictionaries of the blocks tagged `fl_round`, and no more than there are blocks. |
| Ledger.FromRecord | blockchain/ledger.py:210-218 | Rebuilding a record succeeds exactly when it carries the four hashed fields, with the types a block stores. A rebuilt block's hash is always recomputed, so it is correct whatever hash was stored. |
| Ledger.FlRoundsConcat | blockchain/ledger.py:191-197 | The `fl_round` entries of a chain are those of its first part followed by those of the rest, so chain order is kept. |
| Ledger.FlRoundsSingle | blockchain/ledger.py:193-197 | A single block gives exactly one entry, its dictionary, when it is tagged `fl_round`, and none otherwise. With the previous row this fixes one entry per tagged block. |
| Ledger.BlockchainLedger.constructor | blockchain/ledger.py:62-76 | A new ledger holds only the genesis block, with index 0 and previous hash "0", and it is valid. |
| Ledger.BlockchainLedger.AddBlock | blockchain/ledger.py:82-104 | Appends exactly one block linked to the old tail. Its index is the old length and its data is stored unchanged. Earlier blocks are unchanged, validity is preserved, and the `fl_round` list grows only by a block that carries that tag. On an empty chain it fails and changes nothing. |
| Ledger.BlockchainLedger.RecordFlRound | blockchain/ledger.py:106-133 | Appends one block whose data is the `fl_round` tag with exactly the given fields. That block joins the `fl_round` list. Validity is preserved. |
| Ledger.BlockchainLedger.RecordClientUpdate | blockchain/ledger.py:135-162 | Appends one block whose data is the `client_update` tag with exactly the given fields. The `fl_round` list is unchanged and validity is preserved. |
| Ledger.BlockchainLedger.IsValid | blockchain/ledger.py:164-185 | Answers true exactly when every block from index 1 has a correct hash and links to its predecessor. |
| Ledger.BlockchainLedger.GetChain | blockchain/ledger.py:187-189 | Returns one dictionary per block, in chain order. |
| Ledger.BlockchainLedger.LoadFromRecords | blockchain/ledger.py:205-218 | Replaces the chain with one rebuilt block per record, in order. The rebuilt hashes are correct. On the first record lacking a field, or holding a field of another type, it stops with an error naming that record, keeping the blocks rebuilt before it. |
| Ledger.AppendKeepsValid | blockchain/ledger.py:92-101 | Appending the next block to a valid chain keeps it valid. |
| Ledger.AppendsFromGenesisValid | blockchain/ledger.py:62-104 | Any sequence of appends after genesis yields a valid chain. |
| Ledger.RebuiltValidIffLinked | blockchain/ledger.py:171-185 | Once every hash is recomputed, as after loading, validity reduces to the previous-hash links. |
| Ledger.SaveLoadRoundTrip | blockchain/ledger.py:48-56 | Rebuilding a block from its own dictionary gives back the same block. |
| Ledger.TamperDetected | blockchain/ledger.py:171-178 | Changing the data of any block after genesis, when that changes its digest, makes the chain invalid. |
| Ledger.GenesisUnchecked | blockchain/ledger.py:171 | The genesis block's data is never checked: changing it keeps a valid chain valid. |
| Governance.ActiveIds | blockchain/smart_contract.py:119-125 | An id is in the result exactly when it is registered and its record is active. |
| Governance.SmartContract.constructor | blockchain/smart_contract.py:13-30 | Stores the two thresholds and starts with no clients and an empty access log. |
| Governance.SmartContract.RegisterClient | blockchain/smart_contract.py:32-68 | A known id is refused and nothing changes. A quality below the threshold is refused and nothing changes; a quality equal to it is accepted. Otherwise exactly that id is inserted, active, with the given fields. Nothing is ever reactivated. |
| Governance.SmartContract.DeactivateClient | blockchain/smart_contract.py:70-77 | An unknown id is refused with no change. Otherwise only that client's active flag is cleared. Nothing is ever reactivated. |
| Governance.SmartContract.CanAggregate | blockchain/smart_contract.py:79-104 | True exactly when there are at least `min_clients` ids, duplicates counted, and every one of them is registered and active. |
| Governance.SmartContract.LogAccess | blockchain/smart_contract.py:106-113 | Appends exactly one entry with the given fields. Earlier entries and the registry are unchanged. |
| Governance.SmartContract.GetClientInfo | blockchain/smart_contract.py:115-117 | Returns the record exactly when the id is registered. |
| Governance.QuorumIsActiveSubset | blockchain/smart_contract.py:79-104 | The quorum holds exactly when there are enough ids and the set of listed ids is a subset of the active clients. |
| Governance.DuplicatesMeetQuorum | blockchain/smart_contract.py:90-104 | One active client listed twice meets a quorum of two. |
| Governance.DeactivatedStaysOut | blockchain/smart_contract.py:64-77 | Once deactivated, a client stays out of the active set and out of every quorum it is listed in, across any later registrations and deactivations. |
| Aggregation.Combination | federated/aggregator.py:44-53 | The combination has exactly the first client's parameter names, each with its shape. |
| Aggregation.FedAvg | federated/aggregator.py:24-57 | On success there was at least one client, the zipped clients all carry the first client's parameters and shapes, and the result has exactly the first client's key set and shapes. |
| Aggregation.Weighted | federated/aggregator.py:59-90 | On success the zipped clients conform to the first one, and the result has the first client's key set. Its values are stated by the weighted-mean lemmas below. |
| Aggregation.AggregateSpec | federated/aggregator.py:92-121 | Any strategy name other than "fedavg" and "weighted" is rejected when aggregating, not at construction. |
| Aggregation.AddClient | federated/aggregator.py:52-53 | Adding one client extends the combination of the clients before it, or reports the mismatch when that client lacks a parameter or has another shape. |
| Aggregation.Accumulate | federated/aggregator.py:44-53 | The zero-initialised accumulation loop yields exactly the linear combination when the clients conform, and otherwise a mismatch. |
| Aggregation.RowOfNoClients | federated/aggregator.py:45-46 | Before any client is added, every parameter is a zero tensor of the first client's shape. |
| Aggregation.MismatchPersists | federated/aggregator.py:49-53 | A mismatch among the first clients remains a mismatch when more clients are added. |
| Aggregation.FederatedAggregator.constructor | federated/aggregator.py:14-22 | Any strategy name is accepted and stored. |
| Aggregation.FederatedAggregator.FederatedAveraging | federated/aggregator.py:24-57 | Computes the FedAvg specification, failures included. |
| Aggregation.FederatedAggregator.WeightedAggregation | federated/aggregator.py:59-90 | Computes the weighted specification, failures included. |
| Aggregation.FederatedAggregator.Aggregate | federated/aggregator.py:92-121 | Dispatches on the stored name. Missing sizes or weights default to one per client. |
| Aggregation.FederatedAggregator.ComputeModelDiff | federated/aggregator.py:123-146 | Succeeds exactly when the new weights carry every old parameter with its shape. The value is the sum, over the old parameters, of the squared element differences. |
| AggregationLaws.FedAvgIsWeightedMean | federated/aggregator.py:39-53 | Each element of a FedAvg result is the sum of size times weight over the clients, divided by the total size. |
| AggregationLaws.FedAvgWithoutSizesIsZero | federated/aggregator.py:45-53 | With an empty list of sizes nothing is accumulated, and the result is all zeros. |
| AggregationLaws.SizeCoefficientsSumToOne | federated/aggregator.py:39-50 | When the total is non-zero, the per-client coefficients add up to one. |
| AggregationLaws.FedAvgOfIdentical | federated/aggregator.py:49-53 | If every hospital sends the same weights and the sizes have a non-zero total, FedAvg returns those weights. |
| AggregationLaws.FedAvgWithinBounds | federated/aggregator.py:49-53 | With non-negative sizes, every averaged element lies between the smallest and largest client values, so the result is a convex combination. |
| AggregationLaws.SumOfPermutation | federated/aggregator.py:49 | A sum over a list does not depend on its order. |
| AggregationLaws.UniformTransfer | federated/aggregator.py:44-53 | Reordering conforming clients keeps them conforming. |
| AggregationLaws.PermutedTotal | federated/aggregator.py:39 | Reordering the (weights, size) pairs keeps the total size. |
| AggregationLaws.PermutedKeys | federated/aggregator.py:44-46 | Reordering clients that share their parameter names keeps the first client's key set. |
| AggregationLaws.PermutedCombination | federated/aggregator.py:49-53 | With a non-zero total, reordering the pairs gives the same size-weighted combination. |
| AggregationLaws.FedAvgPermutationInvariant | federated/aggregator.py:39-57 | Reordering hospitals together with their sizes does not change the FedAvg result, failures included. |
| AggregationLaws.WeightedScaleInvariant | federated/aggregator.py:74-86 | Multiplying every custom weight by the same non-zero factor does not change the weighted result. |
| AggregationLaws.WeightedBySizesIsFedAvg | federated/aggregator.py:24-90 | Weighted aggregation with the data sizes as weights equals FedAvg. |
| AggregationLaws.WeightedIsWeightedMean | federated/aggregator.py:74-86 | Each element of a weighted result is the sum of custom weight times client value, divided by the sum of the weights. |
| AggregationLaws.NormalizeSumsToOne | federated/aggregator.py:75-76 | Normalised weights of a non-zero total add up to one. |
| AggregationLaws.WeightedWithinBounds | federated/aggregator.py:74-86 | With non-negative custom weights, every element of the weighted result lies between the smallest and largest client values. |
| AggregationLaws.DefaultStrategiesAgree | federated/aggregator.py:109-118 | With no sizes and no weights, both strategies give the same result. |
| AggregationLaws.DefaultFedAvgIsPlainMean | federated/aggregator.py:109-113 | With no sizes, "fedavg" gives the plain unweighted mean of the clients. |
| AggregationLaws.TwoHospitalExample | federated/aggregator.py:24-57 | Two hospitals with values 1.0 and 2.0 and sizes 100 and 300 average to 1.75. |
| AggregationLaws.SquareSign | federated/aggregator.py:142 | A square is non-negative, and zero only for zero. |
| AggregationLaws.TensorSqDistZeroIff | federated/aggregator.py:141-142 | One parameter's squared distance is non-negative, and zero exactly when the two tensors are equal. |
| AggregationLaws.ModelDiffZeroIff | federated/aggregator.py:138-146 | The squared model difference is non-negative, and zero exactly when every old parameter is unchanged. |
| Orchestration.LoadStateDict | federated/orchestrator.py:87 | The strict load succeeds exactly when the names and shapes match, and then installs the incoming weights. On a mismatch, the entries whose name and shape match are still copied and the rest are kept. |
| Orchestration.MetricMean | federated/orchestrator.py:110-123 | The average has exactly the first client's metric names. |
| Orchestration.AverageClientMetrics | federated/orchestrator.py:104-123 | Succeeds exactly when every zipped client reports each metric of the first client and the total size is non-zero. The result is then the size-weighted mean. A failure names its cause. |
| Orchestration.AggregateUpdates | federated/orchestrator.py:56-102 | Never moves the counter. Below the quorum it fails and changes nothing. On success the global weights are the aggregator's output, which is also returned. |
| Orchestration.RunRoundSpec | federated/orchestrator.py:125-153 | The counter advances by exactly one, whatever happens next. |
| Orchestration.FederatedOrchestrator.constructor | federated/orchestrator.py:17-45 | Starts at round 0 with empty round, client-count and metric histories and the given weights. |
| Orchestration.FederatedOrchestrator.GetGlobalWeights | federated/orchestrator.py:47-49 | Returns the current global weights. |
| Orchestration.FederatedOrchestrator.GetHistory | federated/orchestrator.py:167-169 | Returns the current history. |
| Orchestration.FederatedOrchestrator.AggregateClientUpdates | federated/orchestrator.py:56-102 | Performs the round specification on the object's state. The norm it returns is the squared distance of the update from the weights before the load. |
| Orchestration.FederatedOrchestrator.RunRound | federated/orchestrator.py:125-165 | Advances the counter by one, then performs the round specification. |
| Orchestration.InitialHistoryConsistent | federated/orchestrator.py:38-43 | A fresh history is consistent. |
| Orchestration.AggregateKeepsHistoryConsistent | federated/orchestrator.py:93-99 | Every round, successful or not, keeps these facts: equal-length round and count lists, at most one metric entry per round, every count at least the quorum, and no round beyond the counter. |
| Orchestration.RunRoundKeepsRoundsIncreasing | federated/orchestrator.py:94-144 | Through `run_round`, the recorded round numbers stay strictly increasing. |
| Orchestration.RunRoundSuccess | federated/orchestrator.py:80-153 | A successful round meets the quorum and advances the counter by one. It appends the new round number and the client count, and installs the aggregate. |
| Orchestration.RunRoundWithoutQuorum | federated/orchestrator.py:73-153 | Below the quorum, `run_round` still advances the counter, and leaves weights and history untouched. |
| Orchestration.MetricsFailureIsPartial | federated/orchestrator.py:86-99 | When metric averaging fails, the new weights are already installed and the round already recorded, with no metrics entry. |
| Orchestration.DirectCallsRepeatRound | federated/orchestrator.py:56-99 | Two successful direct calls record the same round number twice, so the rounds list is not strictly increasing. |
| Orchestration.AggregateSuccessRecordsRound | federated/orchestrator.py:94 | A successful aggregation appends the current round number once. |
| Orchestration.MetricMeanIsFedAvg | federated/orchestrator.py:110-123 | The size-weighted metric average is FedAvg applied to the metrics as one-element tensors. |
| Orchestration.LoggedNormAsWritten | federated/orchestrator.py:86-91 | As written, the logged norm is computed from a view that the load overwrote, and it is zero for every update. |
| Orchestration.UpdateNormCorrected | federated/orchestrator.py:86-91 | Measured against the weights before the load, the norm is non-negative and zero exactly when the update changes nothing. |
| Standalone.AppendKeepsDense | run_fl_standalone.py:146-153 | Appending a block numbered by the current length keeps every index equal to its position. |
| Standalone.SimpleLedger.constructor | run_fl_standalone.py:137-144 | A new ledger holds one block: index 0, type "genesis", the fixed genesis message. |
| Standalone.SimpleLedger.AddBlock | run_fl_standalone.py:146-154 | Appends and returns one block whose index is the old length, with the given type and data. |
| Standalone.FedavgAggregate | run_fl_standalone.py:115-133 | Computes the same FedAvg as the aggregator, so every FedAvg law above applies to it. |
| Standalone.Successes | run_fl_standalone.py:186-192 | The participants are hospitals whose training returned exactly the recorded result. |
| Standalone.SuccessesStep | run_fl_standalone.py:186-192 | Training one more hospital adds it exactly when its training returns a result. |
| Standalone.SuccessesComplete | run_fl_standalone.py:186-192 | Every hospital whose training returns a result is among the participants. |
| Standalone.RecordUpdatesShape | run_fl_standalone.py:194-200 | Recording keeps the existing blocks. The i-th participant's `client_update` block sits right after them, at the i-th next index. |
| Standalone.TrainHospitals | run_fl_standalone.py:182-200 | Collects exactly the participants' weights, sizes and metrics, in training order, and appends one `client_update` block per participant. |
| Standalone.FinishRound | run_fl_standalone.py:202-224 | Ends the round as `CloseRound` defines it, keeps the genesis block, and keeps the indices dense. |
| Standalone.RunFlSimulation | run_fl_standalone.py:161-224 | Computes the whole simulation specification. The ledger starts with the genesis block and keeps every index equal to its position. |
| Standalone.FailureIsFinal | run_fl_standalone.py:174-224 | After an aggregation or load failure, later rounds change nothing. The source raises there, ending the run. |
| Standalone.SimulationStep | run_fl_standalone.py:174 | A run that has not failed performs its next round. |
| Standalone.RoundRecords | run_fl_standalone.py:186-222 | A round appends one `client_update` block per participant, in order. With fewer than two participants the weights stay and no `fl_round` block follows. Otherwise the weights become the participants' FedAvg and one `fl_round` block with the unweighted means closes the round. |
| Standalone.MissingDataContributesNothing | run_fl_standalone.py:186-192 | A hospital whose training returns nothing is not a participant. |
| Standalone.CloseRoundChain | run_fl_standalone.py:203-222 | Closing a round keeps the recorded blocks and adds at most one, at the next index. |
| Standalone.RecordKeepsDense | run_fl_standalone.py:194-200 | Recording participants keeps a dense ledger dense, with its first block in place. |
| Standalone.RoundKeepsDense | run_fl_standalone.py:186-222 | A whole round keeps a dense ledger dense, with its first block in place. |
| Standalone.MeanWithinBounds | run_fl_standalone.py:209-210 | The round's average loss or accuracy lies between the smallest and largest client value. |
| ModelUtils.ContainsIffOccurs | models/model_utils.py:95 | Python's substring test holds exactly when the substring occurs at some position. |
| ModelUtils.FirstUnfreezing | models/model_utils.py:92-98 | Finds the first parameter whose name contains `freeze_until`, or reports that there is none. |
| ModelUtils.FreezeLayers | models/model_utils.py:84-101 | Every parameter ends trainable exactly when it is at or after the first name containing `freeze_until`. |
| ModelUtils.TrainableIsUpwardClosed | models/model_utils.py:95-98 | Once a parameter is trainable, every later one is too: the flag never flips back. |
| ModelUtils.TrainableIffEarlierMatch | models/model_utils.py:92-100 | A parameter is trainable exactly when it, or an earlier one, contains `freeze_until`. Everything before the first match is frozen. |
| ModelUtils.NoMatchFreezesAll | models/model_utils.py:92-98 | With no `freeze_until`, an empty one, or no name containing it, every parameter is frozen. |

## Left out

- **Persistence.** File I/O is not modelled: `save_to_file`, the JSON read of `load_from_file` (only its rebuild loop is modelled, from already parsed records), `SimpleLedger.save`, checkpointing in `run_round`, and the final model save.
- **Logging and printing.** These have no effect on state.
- **The digest.** SHA-256 and the key-sorted JSON rendering that `calculate_hash` feeds it are not computed. The digest is an uninterpreted function, so collisions are not ruled out and not relied on.
- **Training.** `train_hospital` (local training, evaluation, and reading the hospital CSV) is an opaque parameter. So is the wall clock.
- **Floating point.** Arithmetic is exact real arithmetic, so float rounding and summation order are not modelled.
- Aggregation.FederatedAggregator.ComputeModelDiff: returns the squared norm. The final square root is not modelled, since it is monotone and zero only at zero.
- Standalone.FedavgAggregate: omits the dtype cast back to the first client's dtype at the end. Dtypes are not modelled.
- **Tensor broadcasting.** Two tensors of different shapes are treated as a mismatch error. The PyTorch broadcasting of compatible shapes is not modelled.
- Orchestration.AverageClientMetrics: when several metrics fail, the one reported depends on Python's dictionary order, so the contract states only the failure's cause. The round records such a failure as `MetricsFailed`.
- **Dictionary order.** Iteration order of parameter and metric dictionaries is not modelled: results are maps. `get_active_clients` returns its ids in registration order; `Governance.ActiveIds` gives them as a set.
- Standalone.RunFlSimulation: density of the ledger is stated as a property of this method's result, together with `RoundKeepsDense` for a single round. There is no separate lemma over any number of rounds of the specification function.
- **`distribute_global_model` and `get_latest_block`.** These read-only getters are not modelled separately: `distribute_global_model` returns `get_global_weights()`, and `get_latest_block` is the tail read inside `AddBlock`.
- **Default arguments.** `min_clients=2`, `min_data_quality=0.6` and `data_quality=1.0` of the smart contract, and `aggregation_method="fedavg"` and `min_clients=2` of the aggregator and orchestrator, are not defaults in the model: every argument is passed explicitly.
- Ledger.FromRecord: loaded fields are typed. The source rebuilds any record that has the four keys, whatever JSON values they hold (a string index, a list as data), and only a missing key raises. The model rejects a record whose index is not an integer, whose timestamp or previous hash is not a string, or whose data is not an object.
- Ledger.BlockchainLedger.LoadFromRecords: stops at the first record with an ill-typed field, as `Ledger.FromRecord` rejects it, and reports `MalformedRecord`, keeping the blocks rebuilt before it. The source would rebuild that record and go on loading.
- Aggregation.FedAvg: dtypes are not modelled. In the source an integer-typed entry, such as BatchNorm's `num_batches_tracked`, starts as an integer `zeros_like` accumulator, and the in-place `+=` of a float product into it raises. The model averages such an entry like any other.
- Aggregation.Weighted: the same dtype gap as `Aggregation.FedAvg`, for the same in-place `+=`.
- Ledger.BlockchainLedger.AddBlock: aliasing is not modelled. The source stores the caller's `data` dictionary by reference, and `to_dict`, `get_chain` and `get_fl_rounds` hand that same dictionary back. Mutating it later changes a stored block without any ledger call, and can make `is_valid` false. The model's blocks are values.
- Orchestration.FederatedOrchestrator.GetGlobalWeights: returns a value. The source returns the live `state_dict()`, whose tensors share storage with the model; the one consequence this model tracks is the logged-norm finding below.
- Orchestration.FederatedOrchestrator.GetHistory: returns a value. The source returns `self.history` itself, so a caller can mutate the orchestrator's history through it.
- Governance.SmartContract.GetClientInfo: returns a value. The source hands back the stored record dictionary itself, so a caller can set its `active` entry back to True and reactivate a deactivated client without any contract call. Such a reactivation is outside `Governance.DeactivatedStaysOut` and the no-reactivation guarantee of `RegisterClient`, which cover the contract's own operations only.

## Findings

| source | as written | input that shows it | evidently intended | confidence | as-written member | corrected member |
|---|---|---|---|---|---|---|
| federated/orchestrator.py:86-91 | `old_weights` is the model's own `state_dict()`, whose tensors share storage with the parameters that `load_state_dict` then overwrites in place. The logged update norm is therefore always 0. | global weights `{w: [0.0]}`, two clients `{w: [1.0]}`: the update moves `w` by 1.0, yet the logged norm is 0 | the norm of the change from the weights before the load (1.0 here) | not executed | Orchestration.LoggedNormAsWritten | Orchestration.UpdateNormCorrected |
