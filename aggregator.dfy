/** The federated aggregator (`FederatedAggregator`): FedAvg, normalised
    weighted averaging, the strategy dispatch and the squared L2 distance
    between two weight sets.

    A weight set maps a parameter name to a tensor; a tensor is a
    sequence of reals and its shape is its length.  Clients are matched
    with their sizes or weights pairwise, and, as with Python's `zip`,
    only the first min(#clients, #sizes) pairs take part, while the total
    used for normalising is the sum of ALL sizes. */
module Aggregation {
  import opened Wrappers

  type Tensor = seq<real>
  type WeightSet = map<string, Tensor>

  datatype AggError =
    | NoClients              // `client_weights[0]` on an empty list
    | ZeroTotal              // division by a total of zero
    | ClientMismatch         // a client lacks a parameter, or its shape differs
    | UnknownMethod(name: string)

  const FedAvgMethod: string := "fedavg"
  const WeightedMethod: string := "weighted"

  /** Python's `sum` over integers. */
  function SumInts(s: seq<int>): int
  {
    if s == [] then 0 else SumInts(s[..|s| - 1]) + s[|s| - 1]
  }

  /** Python's `sum` over floats, taken as reals. */
  function SumReals(s: seq<real>): real
  {
    if s == [] then 0.0 else SumReals(s[..|s| - 1]) + s[|s| - 1]
  }

  function Min(a: nat, b: nat): nat
  {
    if a <= b then a else b
  }

  /** The first n clients all carry parameter `key` with the shape it has
      in the first client. */
  predicate KeyConforms(ws: seq<WeightSet>, n: nat, key: string)
    requires n <= |ws| && 0 < |ws| && key in ws[0]
  {
    forall i :: 0 <= i < n ==> key in ws[i] && |ws[i][key]| == |ws[0][key]|
  }

  /** The first n clients carry every parameter of the first client, with
      its shape (extra parameters are ignored). */
  predicate Uniform(ws: seq<WeightSet>, n: nat)
    requires n <= |ws| && 0 < |ws|
  {
    forall key :: key in ws[0] ==> KeyConforms(ws, n, key)
  }

  /** c[0] * ws[0][key][j] + ... + c[n-1] * ws[n-1][key][j]. */
  function Combo(ws: seq<WeightSet>, c: seq<real>, n: nat, key: string, j: nat): real
    requires 0 < |ws| && n <= |ws| && n <= |c| && key in ws[0] && KeyConforms(ws, n, key)
    requires j < |ws[0][key]|
    decreases n
  {
    if n == 0 then 0.0 else Combo(ws, c, n - 1, key, j) + ws[n - 1][key][j] * c[n - 1]
  }

  /** The tensor of parameter `key` in the combination of the first n clients. */
  function Row(ws: seq<WeightSet>, c: seq<real>, n: nat, key: string): (r: Tensor)
    requires 0 < |ws| && n <= |ws| && n <= |c| && key in ws[0] && KeyConforms(ws, n, key)
    ensures |r| == |ws[0][key]|
  {
    seq(|ws[0][key]|, j requires 0 <= j < |ws[0][key]| => Combo(ws, c, n, key, j))
  }

  /** The linear combination of the first n clients with coefficients c,
      on the parameters of the first client. */
  function Combination(ws: seq<WeightSet>, c: seq<real>, n: nat): (r: WeightSet)
    requires 0 < |ws| && n <= |ws| && n <= |c| && Uniform(ws, n)
    ensures r.Keys == ws[0].Keys
    ensures forall key :: key in r ==> |r[key]| == |ws[0][key]|
  {
    map key | key in ws[0] :: Row(ws, c, n, key)
  }

  /** `data_size / total_size` for every client. */
  function SizeCoefficients(sizes: seq<int>): (c: seq<real>)
    ensures |c| == |sizes|
  {
    var total := SumInts(sizes);
    seq(|sizes|, i requires 0 <= i < |sizes| => if total == 0 then 0.0 else sizes[i] as real / total as real)
  }

  /** `w / total_weight` for every custom weight. */
  function Normalize(weights: seq<real>): (c: seq<real>)
    ensures |c| == |weights|
  {
    var total := SumReals(weights);
    seq(|weights|, i requires 0 <= i < |weights| => if total == 0.0 then 0.0 else weights[i] / total)
  }

  /** What `federated_averaging` computes: the empty list fails first,
      then a zero total (met by the first client's coefficient), then a
      client without a parameter of the first client or with another
      shape. */
  function FedAvg(ws: seq<WeightSet>, sizes: seq<int>): (r: Result<WeightSet, AggError>)
    ensures r.Success? ==> 0 < |ws| && Uniform(ws, Min(|ws|, |sizes|)) && r.value.Keys == ws[0].Keys
    ensures r.Success? ==> forall key :: key in r.value ==> |r.value[key]| == |ws[0][key]|
  {
    if |ws| == 0 then Failure(NoClients)
    else
      var n := Min(|ws|, |sizes|);
      if n > 0 && SumInts(sizes) == 0 then Failure(ZeroTotal)
      else if !Uniform(ws, n) then Failure(ClientMismatch)
      else Success(Combination(ws, SizeCoefficients(sizes), n))
  }

  /** What `weighted_aggregation` computes: the weights are normalised
      first (a zero total fails there), then the empty client list fails. */
  function Weighted(ws: seq<WeightSet>, weights: seq<real>): (r: Result<WeightSet, AggError>)
    ensures r.Success? ==> 0 < |ws| && Uniform(ws, Min(|ws|, |weights|)) && r.value.Keys == ws[0].Keys
  {
    if |weights| > 0 && SumReals(weights) == 0.0 then Failure(ZeroTotal)
    else if |ws| == 0 then Failure(NoClients)
    else
      var n := Min(|ws|, |weights|);
      if !Uniform(ws, n) then Failure(ClientMismatch)
      else Success(Combination(ws, Normalize(weights), n))
  }

  function Ones(n: nat): (s: seq<int>)
    ensures |s| == n && forall i :: 0 <= i < n ==> s[i] == 1
  {
    seq(n, _ => 1)
  }

  function OnesReal(n: nat): (s: seq<real>)
    ensures |s| == n && forall i :: 0 <= i < n ==> s[i] == 1.0
  {
    seq(n, _ => 1.0)
  }

  /** What `aggregate` computes: FedAvg with a default size of 1 per
      client, weighted aggregation with a default weight of 1.0 per
      client, and any other method name rejected. */
  function AggregateSpec(name: string, ws: seq<WeightSet>, sizes: Option<seq<int>>, custom: Option<seq<real>>)
    : (r: Result<WeightSet, AggError>)
    ensures name != FedAvgMethod && name != WeightedMethod ==> r == Failure(UnknownMethod(name))
  {
    if name == FedAvgMethod then
      FedAvg(ws, if sizes.Some? then sizes.value else Ones(|ws|))
    else if name == WeightedMethod then
      Weighted(ws, if custom.Some? then custom.value else OnesReal(|ws|))
    else Failure(UnknownMethod(name))
  }

  /** `acc + w * x` on tensors of the same shape. */
  function AddScaled(acc: Tensor, w: Tensor, x: real): (r: Tensor)
    requires |acc| == |w|
    ensures |r| == |acc| && forall j :: 0 <= j < |r| ==> r[j] == acc[j] + w[j] * x
  {
    seq(|acc|, j requires 0 <= j < |acc| => acc[j] + w[j] * x)
  }

  /** A weight set holding, for every parameter of the first client, the
      combination of the first n clients is their combination. */
  lemma RowsFormCombination(ws: seq<WeightSet>, c: seq<real>, n: nat, agg: WeightSet)
    requires 0 < |ws| && n <= |ws| && n <= |c| && agg.Keys == ws[0].Keys
    requires forall key :: key in agg ==> KeyConforms(ws, n, key) && agg[key] == Row(ws, c, n, key)
    ensures Uniform(ws, n) && agg == Combination(ws, c, n)
  {
  }

  /** Adding client i's tensor, scaled, extends the combination by one
      client. */
  lemma RowStep(ws: seq<WeightSet>, c: seq<real>, i: nat, key: string)
    requires 0 < |ws| && i < |ws| && i < |c| && key in ws[0] && KeyConforms(ws, i + 1, key)
    ensures KeyConforms(ws, i, key)
    ensures Row(ws, c, i + 1, key) == AddScaled(Row(ws, c, i, key), ws[i][key], c[i])
  {
    var prev := Row(ws, c, i, key);
    var next := Row(ws, c, i + 1, key);
    var step := AddScaled(prev, ws[i][key], c[i]);
    forall j | 0 <= j < |next|
      ensures next[j] == step[j]
    {
      assert next[j] == Combo(ws, c, i + 1, key, j);
    }
  }

  function Zeros(n: nat): (r: Tensor)
    ensures |r| == n && forall j :: 0 <= j < n ==> r[j] == 0.0
  {
    seq(n, _ => 0.0)
  }

  function Square(x: real): real
  {
    x * x
  }

  /** The squared Euclidean distance between two tensors of one shape. */
  function TensorSqDist(a: Tensor, b: Tensor): real
    requires |a| == |b|
  {
    if a == [] then 0.0
    else TensorSqDist(a[..|a| - 1], b[..|b| - 1]) + Square(b[|b| - 1] - a[|a| - 1])
  }

  /** Every parameter of `keys` is in both weight sets with one shape. */
  predicate ConformsOn(previous: WeightSet, current: WeightSet, keys: set<string>)
  {
    forall k :: k in keys ==> k in previous && k in current && |current[k]| == |previous[k]|
  }

  /** The sum, over the parameters in `keys`, of their squared distances. */
  ghost function SqDistOver(previous: WeightSet, current: WeightSet, keys: set<string>): real
    requires ConformsOn(previous, current, keys)
    decreases keys
  {
    if keys == {} then 0.0
    else
      var k :| k in keys;
      TensorSqDist(previous[k], current[k]) + SqDistOver(previous, current, keys - {k})
  }

  /** The squared value of `compute_model_diff`: summed over the
      parameters of the old weight set. */
  ghost function SquaredDistance(previous: WeightSet, current: WeightSet): real
    requires ConformsOn(previous, current, previous.Keys)
  {
    SqDistOver(previous, current, previous.Keys)
  }

  /** The sum over a key set does not depend on which key is taken first. */
  lemma {:induction false} SqDistOverPick(previous: WeightSet, current: WeightSet, keys: set<string>, k: string)
    requires ConformsOn(previous, current, keys) && k in keys
    ensures SqDistOver(previous, current, keys)
         == TensorSqDist(previous[k], current[k]) + SqDistOver(previous, current, keys - {k})
    decreases keys
  {
    var k0 :| k0 in keys && SqDistOver(previous, current, keys)
      == TensorSqDist(previous[k0], current[k0]) + SqDistOver(previous, current, keys - {k0});
    if k0 != k {
      SqDistOverPick(previous, current, keys - {k0}, k);
      SqDistOverPick(previous, current, keys - {k}, k0);
      assert keys - {k0} - {k} == keys - {k} - {k0};
    }
  }

  /** One client's step of the accumulation: for every parameter add
      client i's tensor times its coefficient; a client without that
      parameter, or with a tensor of another length, is a mismatch. */
  method AddClient(ws: seq<WeightSet>, c: seq<real>, i: nat, agg: WeightSet) returns (r: Result<WeightSet, AggError>)
    requires 0 < |ws| && i < |ws| && i < |c| && Uniform(ws, i) && agg == Combination(ws, c, i)
    ensures Uniform(ws, i + 1) ==> r == Success(Combination(ws, c, i + 1))
    ensures !Uniform(ws, i + 1) ==> r == Failure(ClientMismatch)
  {
    var acc := agg;
    var pending := acc.Keys;
    ghost var done: set<string> := {};
    while pending != {}
      invariant pending + done == ws[0].Keys && pending !! done
      invariant acc.Keys == ws[0].Keys
      invariant forall key :: key in done ==> KeyConforms(ws, i + 1, key) && acc[key] == Row(ws, c, i + 1, key)
      invariant forall key :: key in pending ==> acc[key] == Row(ws, c, i, key)
      decreases pending
    {
      var key :| key in pending;
      if key !in ws[i] || |ws[i][key]| != |ws[0][key]| {
        assert !KeyConforms(ws, i + 1, key);
        return Failure(ClientMismatch);
      }
      RowStep(ws, c, i, key);
      acc := acc[key := AddScaled(acc[key], ws[i][key], c[i])];
      pending := pending - {key};
      done := done + {key};
    }
    RowsFormCombination(ws, c, i + 1, acc);
    return Success(acc);
  }

  /** The accumulation loop of `federated_averaging` (and of the weighted
      strategy): start from zero tensors shaped like the first client's,
      then add each of the first n clients in turn. */
  method Accumulate(ws: seq<WeightSet>, c: seq<real>, n: nat) returns (r: Result<WeightSet, AggError>)
    requires 0 < |ws| && n <= |ws| && n <= |c|
    ensures Uniform(ws, n) ==> r == Success(Combination(ws, c, n))
    ensures !Uniform(ws, n) ==> r == Failure(ClientMismatch)
  {
    var agg: WeightSet := map key | key in ws[0] :: Zeros(|ws[0][key]|);
    forall key | key in ws[0]
      ensures KeyConforms(ws, 0, key) && agg[key] == Row(ws, c, 0, key)
    {
      RowOfNoClients(ws, c, key);
    }
    RowsFormCombination(ws, c, 0, agg);
    var i := 0;
    while i < n
      invariant 0 <= i <= n
      invariant Uniform(ws, i)
      invariant agg == Combination(ws, c, i)
    {
      var step := AddClient(ws, c, i, agg);
      if step.Failure? {
        MismatchPersists(ws, i + 1, n);
        return step;
      }
      agg := step.value;
      i := i + 1;
    }
    return Success(agg);
  }

  /** Combining no clients gives zero tensors. */
  lemma RowOfNoClients(ws: seq<WeightSet>, c: seq<real>, key: string)
    requires 0 < |ws| && key in ws[0]
    ensures KeyConforms(ws, 0, key) && Row(ws, c, 0, key) == Zeros(|ws[0][key]|)
  {
    assert KeyConforms(ws, 0, key);
    var r := Row(ws, c, 0, key);
    forall j | 0 <= j < |r| ensures r[j] == 0.0 {
      assert r[j] == Combo(ws, c, 0, key, j);
    }
  }

  /** A mismatch among the first m clients is a mismatch among the first
      n >= m. */
  lemma MismatchPersists(ws: seq<WeightSet>, m: nat, n: nat)
    requires 0 < |ws| && m <= n <= |ws| && !Uniform(ws, m)
    ensures !Uniform(ws, n)
  {
    var key :| key in ws[0] && !KeyConforms(ws, m, key);
    assert !KeyConforms(ws, n, key);
  }

  class FederatedAggregator {
    /** The strategy name; any string is accepted here. */
    const aggregationMethod: string

    /** `__init__`; the source's default strategy is "fedavg", here the
        name is always given. */
    constructor (aggregationMethod: string)
      ensures this.aggregationMethod == aggregationMethod
    {
      this.aggregationMethod := aggregationMethod;
    }

    /** `federated_averaging`. */
    method FederatedAveraging(ws: seq<WeightSet>, sizes: seq<int>) returns (r: Result<WeightSet, AggError>)
      ensures r == FedAvg(ws, sizes)
    {
      var total := SumInts(sizes);
      if |ws| == 0 {
        return Failure(NoClients);
      }
      var n := Min(|ws|, |sizes|);
      if n > 0 && total == 0 {
        return Failure(ZeroTotal);
      }
      r := Accumulate(ws, SizeCoefficients(sizes), n);
    }

    /** `weighted_aggregation`. */
    method WeightedAggregation(ws: seq<WeightSet>, weights: seq<real>) returns (r: Result<WeightSet, AggError>)
      ensures r == Weighted(ws, weights)
    {
      var total := SumReals(weights);
      if |weights| > 0 && total == 0.0 {
        return Failure(ZeroTotal);
      }
      var normalized := Normalize(weights);
      if |ws| == 0 {
        return Failure(NoClients);
      }
      r := Accumulate(ws, normalized, Min(|ws|, |weights|));
    }

    /** `aggregate`: dispatch on the strategy name given at construction. */
    method Aggregate(ws: seq<WeightSet>, sizes: Option<seq<int>>, custom: Option<seq<real>>)
      returns (r: Result<WeightSet, AggError>)
      ensures r == AggregateSpec(aggregationMethod, ws, sizes, custom)
    {
      if aggregationMethod == FedAvgMethod {
        var s := if sizes.Some? then sizes.value else Ones(|ws|);
        r := FederatedAveraging(ws, s);
      } else if aggregationMethod == WeightedMethod {
        var w := if custom.Some? then custom.value else OnesReal(|ws|);
        r := WeightedAggregation(ws, w);
      } else {
        r := Failure(UnknownMethod(aggregationMethod));
      }
    }

    /** `compute_model_diff`, squared (the final square root is not
        modelled): for each parameter of the old weight set, the squared
        norm of new minus old, summed.  A parameter missing from the new
        set, or of another shape, fails. */
    method ComputeModelDiff(previous: WeightSet, current: WeightSet) returns (r: Result<real, AggError>)
      ensures r.Success? <==> ConformsOn(previous, current, previous.Keys)
      ensures r.Failure? ==> r.error == ClientMismatch
      ensures r.Success? ==> r.value == SquaredDistance(previous, current)
    {
      var diffNorm := 0.0;
      var pending := previous.Keys;
      ghost var done: set<string> := {};
      while pending != {}
        invariant pending + done == previous.Keys && pending !! done
        invariant ConformsOn(previous, current, done)
        invariant diffNorm == SqDistOver(previous, current, done)
        decreases pending
      {
        var key :| key in pending;
        if key !in current || |current[key]| != |previous[key]| {
          return Failure(ClientMismatch);
        }
        SqDistOverPick(previous, current, done + {key}, key);
        assert done + {key} - {key} == done;
        diffNorm := diffNorm + TensorSqDist(previous[key], current[key]);
        pending := pending - {key};
        done := done + {key};
      }
      return Success(diffNorm);
    }
  }
}
