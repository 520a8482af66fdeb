/** What federated averaging and weighted aggregation mean, proved about
    the functions that specify them: FedAvg is the size-weighted mean of
    the clients' tensors, it returns a common model unchanged, it stays
    within the clients' bounds, it does not depend on the order of the
    clients, the weighted strategy is the mean by its custom weights,
    stays within bounds for non-negative weights and ignores their scale,
    and the model distance is zero exactly when nothing changed. */
module AggregationLaws {
  import opened Wrappers
  import opened Aggregation

  // ---------------------------------------------------------------------
  // Small real-arithmetic steps

  lemma DivAdd(a: real, b: real, t: real)
    requires t != 0.0
    ensures a / t + b / t == (a + b) / t
  {
  }

  lemma DivStep(a: real, w: real, s: real, t: real)
    requires t != 0.0
    ensures a / t + w * (s / t) == (a + s * w) / t
  {
    assert w * (s / t) == (s * w) / t;
    DivAdd(a, s * w, t);
  }

  lemma DivSelf(t: real)
    requires t != 0.0
    ensures t / t == 1.0
  {
  }

  lemma MulMono(a: real, b: real, c: real)
    requires a <= b && 0.0 <= c
    ensures a * c <= b * c
  {
  }

  // ---------------------------------------------------------------------
  // FedAvg is the size-weighted mean

  /** sizes[0] * ws[0][key][j] + ... + sizes[n-1] * ws[n-1][key][j]. */
  function SizeWeightedSum(ws: seq<WeightSet>, sizes: seq<int>, n: nat, key: string, j: nat): real
    requires 0 < |ws| && n <= |ws| && n <= |sizes| && key in ws[0] && KeyConforms(ws, n, key)
    requires j < |ws[0][key]|
  {
    if n == 0 then 0.0
    else SizeWeightedSum(ws, sizes, n - 1, key, j) + sizes[n - 1] as real * ws[n - 1][key][j]
  }

  lemma {:induction false} ComboBySizes(ws: seq<WeightSet>, sizes: seq<int>, m: nat, key: string, j: nat)
    requires 0 < |ws| && m <= |ws| && m <= |sizes| && key in ws[0] && KeyConforms(ws, m, key)
    requires j < |ws[0][key]| && SumInts(sizes) != 0
    ensures Combo(ws, SizeCoefficients(sizes), m, key, j)
         == SizeWeightedSum(ws, sizes, m, key, j) / SumInts(sizes) as real
  {
    if m > 0 {
      ComboBySizes(ws, sizes, m - 1, key, j);
      DivStep(SizeWeightedSum(ws, sizes, m - 1, key, j), ws[m - 1][key][j],
              sizes[m - 1] as real, SumInts(sizes) as real);
    }
  }

  /** Each element of the FedAvg result is the sum of the clients'
      elements weighted by their data sizes, divided by the total size. */
  lemma FedAvgIsWeightedMean(ws: seq<WeightSet>, sizes: seq<int>, key: string, j: nat)
    requires FedAvg(ws, sizes).Success? && 0 < |sizes|
    requires key in FedAvg(ws, sizes).value && j < |FedAvg(ws, sizes).value[key]|
    ensures SumInts(sizes) != 0
    ensures FedAvg(ws, sizes).value[key][j]
         == SizeWeightedSum(ws, sizes, Min(|ws|, |sizes|), key, j) / SumInts(sizes) as real
  {
    ComboBySizes(ws, sizes, Min(|ws|, |sizes|), key, j);
  }

  /** With no sizes at all nothing is accumulated: the result is the
      first client's parameters, zeroed. */
  lemma FedAvgWithoutSizesIsZero(ws: seq<WeightSet>)
    requires 0 < |ws|
    ensures FedAvg(ws, []) == Success(map key | key in ws[0] :: Zeros(|ws[0][key]|))
  {
    var r := Combination(ws, SizeCoefficients([]), 0);
    forall key | key in ws[0] ensures r[key] == Zeros(|ws[0][key]|) {
      assert KeyConforms(ws, 0, key);
    }
    assert r == map key | key in ws[0] :: Zeros(|ws[0][key]|);
  }

  // ---------------------------------------------------------------------
  // A common model comes back unchanged; the result stays within bounds

  lemma {:induction false} SizeCoefficientsPrefixSum(sizes: seq<int>, m: nat)
    requires m <= |sizes| && SumInts(sizes) != 0
    ensures SumReals(SizeCoefficients(sizes)[..m]) == SumInts(sizes[..m]) as real / SumInts(sizes) as real
  {
    if m > 0 {
      SizeCoefficientsPrefixSum(sizes, m - 1);
      var c := SizeCoefficients(sizes);
      assert c[..m][..m - 1] == c[..m - 1];
      assert sizes[..m][..m - 1] == sizes[..m - 1];
      DivAdd(SumInts(sizes[..m - 1]) as real, sizes[m - 1] as real, SumInts(sizes) as real);
    }
  }

  /** The coefficients of a non-zero total add up to one. */
  lemma SizeCoefficientsSumToOne(sizes: seq<int>)
    requires SumInts(sizes) != 0
    ensures SumReals(SizeCoefficients(sizes)) == 1.0
  {
    SizeCoefficientsPrefixSum(sizes, |sizes|);
    assert sizes[..|sizes|] == sizes;
    assert SizeCoefficients(sizes)[..|sizes|] == SizeCoefficients(sizes);
    DivSelf(SumInts(sizes) as real);
  }

  lemma {:induction false} ComboOfIdentical(ws: seq<WeightSet>, c: seq<real>, m: nat, key: string, j: nat)
    requires 0 < |ws| && m <= |ws| && m <= |c| && key in ws[0] && KeyConforms(ws, m, key)
    requires j < |ws[0][key]|
    requires forall i :: 0 <= i < m ==> ws[i] == ws[0]
    ensures Combo(ws, c, m, key, j) == ws[0][key][j] * SumReals(c[..m])
  {
    if m > 0 {
      ComboOfIdentical(ws, c, m - 1, key, j);
      assert c[..m][..m - 1] == c[..m - 1];
    }
  }

  /** When every hospital sends the same model and the sizes add up to a
      non-zero total, FedAvg returns that model. */
  lemma FedAvgOfIdentical(ws: seq<WeightSet>, sizes: seq<int>)
    requires 0 < |ws| && |sizes| == |ws| && SumInts(sizes) != 0
    requires forall i :: 0 <= i < |ws| ==> ws[i] == ws[0]
    ensures FedAvg(ws, sizes) == Success(ws[0])
  {
    var n := |ws|;
    var c := SizeCoefficients(sizes);
    SizeCoefficientsSumToOne(sizes);
    assert c[..n] == c;
    assert Uniform(ws, n);
    forall key | key in ws[0] ensures Row(ws, c, n, key) == ws[0][key] {
      forall j | 0 <= j < |ws[0][key]| ensures Row(ws, c, n, key)[j] == ws[0][key][j] {
        ComboOfIdentical(ws, c, n, key, j);
      }
    }
    assert Combination(ws, c, n) == ws[0];
  }

  lemma {:induction false} ComboBounds(ws: seq<WeightSet>, c: seq<real>, m: nat, key: string, j: nat, lo: real, hi: real)
    requires 0 < |ws| && m <= |ws| && m <= |c| && key in ws[0] && KeyConforms(ws, m, key)
    requires j < |ws[0][key]|
    requires forall i :: 0 <= i < m ==> 0.0 <= c[i] && lo <= ws[i][key][j] <= hi
    ensures lo * SumReals(c[..m]) <= Combo(ws, c, m, key, j) <= hi * SumReals(c[..m])
  {
    if m > 0 {
      ComboBounds(ws, c, m - 1, key, j, lo, hi);
      assert c[..m][..m - 1] == c[..m - 1];
      MulMono(lo, ws[m - 1][key][j], c[m - 1]);
      MulMono(ws[m - 1][key][j], hi, c[m - 1]);
    }
  }

  /** With non-negative sizes, one per client, every element of the
      FedAvg result lies between the smallest and the largest value the
      clients hold at that position. */
  lemma FedAvgWithinBounds(ws: seq<WeightSet>, sizes: seq<int>, key: string, j: nat, lo: real, hi: real)
    requires FedAvg(ws, sizes).Success? && 0 < |sizes| <= |ws|
    requires forall i :: 0 <= i < |sizes| ==> 0 <= sizes[i]
    requires key in ws[0] && j < |ws[0][key]|
    requires forall i :: 0 <= i < |sizes| ==> lo <= ws[i][key][j] <= hi
    ensures lo <= FedAvg(ws, sizes).value[key][j] <= hi
  {
    var c := SizeCoefficients(sizes);
    var n := |sizes|;
    assert SumInts(sizes) != 0;
    assert SumInts(sizes) > 0 by { SumNonNegative(sizes); }
    SizeCoefficientsSumToOne(sizes);
    assert c[..n] == c;
    ComboBounds(ws, c, n, key, j, lo, hi);
  }

  lemma {:induction false} SumNonNegative(s: seq<int>)
    requires forall i :: 0 <= i < |s| ==> 0 <= s[i]
    ensures 0 <= SumInts(s)
  {
    if s != [] {
      SumNonNegative(s[..|s| - 1]);
    }
  }

  // ---------------------------------------------------------------------
  // FedAvg does not depend on the order of the clients

  /** A generic sum of f over a sequence, taken from the end. */
  function SumOf<T>(s: seq<T>, f: T -> real): real
  {
    if s == [] then 0.0 else SumOf(s[..|s| - 1], f) + f(s[|s| - 1])
  }

  lemma {:induction false} SumOfConcat<T>(a: seq<T>, b: seq<T>, f: T -> real)
    ensures SumOf(a + b, f) == SumOf(a, f) + SumOf(b, f)
    decreases |b|
  {
    if b == [] {
      assert a + b == a;
    } else {
      SumOfConcat(a, b[..|b| - 1], f);
      assert (a + b)[..|a + b| - 1] == a + b[..|b| - 1];
    }
  }

  lemma {:induction false} SumOfPermutation<T>(a: seq<T>, b: seq<T>, f: T -> real)
    requires multiset(a) == multiset(b)
    ensures SumOf(a, f) == SumOf(b, f)
    decreases |a|
  {
    if a != [] {
      var x := a[|a| - 1];
      assert x in multiset(b);
      var k :| 0 <= k < |b| && b[k] == x;
      var rest := b[..k] + b[k + 1..];
      assert b == b[..k] + [x] + b[k + 1..];
      assert a == a[..|a| - 1] + [x];
      assert multiset(b) == multiset(b[..k]) + multiset([x]) + multiset(b[k + 1..]);
      assert multiset(rest) == multiset(b[..k]) + multiset(b[k + 1..]);
      assert multiset(a) == multiset(a[..|a| - 1]) + multiset([x]);
      assert multiset(a[..|a| - 1]) == multiset(a) - multiset([x]);
      assert multiset(rest) == multiset(b) - multiset([x]);
      SumOfPermutation(a[..|a| - 1], rest, f);
      SumOfConcat(b[..k], b[k + 1..], f);
      SumOfConcat(b[..k] + [x], b[k + 1..], f);
      SumOfConcat(b[..k], [x], f);
      assert SumOf([x], f) == f(x) by {
        assert [x][..0] == [];
      }
    }
  }

  /** Each client's update paired with its data size. */
  function Pairs(ws: seq<WeightSet>, sizes: seq<int>): (r: seq<(WeightSet, int)>)
    requires |ws| == |sizes|
    ensures |r| == |ws| && forall i :: 0 <= i < |r| ==> r[i] == (ws[i], sizes[i])
  {
    seq(|ws|, i requires 0 <= i < |ws| => (ws[i], sizes[i]))
  }

  /** One client's share of element j of parameter key. */
  function Contribution(key: string, j: nat, t: real, p: (WeightSet, int)): real
  {
    if t != 0.0 && key in p.0 && j < |p.0[key]| then p.0[key][j] * (p.1 as real / t) else 0.0
  }

  lemma {:induction false} ComboAsSumOf(ws: seq<WeightSet>, sizes: seq<int>, m: nat, key: string, j: nat)
    requires 0 < |ws| && |ws| == |sizes| && m <= |ws| && key in ws[0] && KeyConforms(ws, m, key)
    requires j < |ws[0][key]| && SumInts(sizes) != 0
    ensures Combo(ws, SizeCoefficients(sizes), m, key, j)
         == SumOf(Pairs(ws, sizes)[..m], p => Contribution(key, j, SumInts(sizes) as real, p))
  {
    if m > 0 {
      ComboAsSumOf(ws, sizes, m - 1, key, j);
      assert Pairs(ws, sizes)[..m][..m - 1] == Pairs(ws, sizes)[..m - 1];
    }
  }

  lemma {:induction false} SizesAsSumOf(ws: seq<WeightSet>, sizes: seq<int>)
    requires |ws| == |sizes|
    ensures SumInts(sizes) as real == SumOf(Pairs(ws, sizes), (p: (WeightSet, int)) => p.1 as real)
    decreases |ws|
  {
    if ws != [] {
      var m := |ws| - 1;
      SizesAsSumOf(ws[..m], sizes[..m]);
      assert Pairs(ws, sizes)[..m] == Pairs(ws[..m], sizes[..m]);
    }
  }

  lemma PairMember(a: seq<(WeightSet, int)>, b: seq<(WeightSet, int)>, i: nat)
    requires multiset(a) == multiset(b) && i < |b|
    ensures exists k :: 0 <= k < |a| && a[k] == b[i]
  {
    assert b[i] in multiset(a);
  }

  /** Every client of the second list also sends the parameters of the
      first client of the first list. */
  lemma UniformTransfer(ws: seq<WeightSet>, sizes: seq<int>, ws2: seq<WeightSet>, sizes2: seq<int>)
    requires 0 < |ws| && |ws| == |sizes| && |ws2| == |sizes2| && |ws2| == |ws|
    requires multiset(Pairs(ws, sizes)) == multiset(Pairs(ws2, sizes2))
    requires forall i :: 0 <= i < |ws| ==> ws[i].Keys == ws[0].Keys
    requires Uniform(ws, |ws|)
    ensures Uniform(ws2, |ws2|)
  {
    PairMember(Pairs(ws, sizes), Pairs(ws2, sizes2), 0);
    var k0 :| 0 <= k0 < |ws| && Pairs(ws, sizes)[k0] == Pairs(ws2, sizes2)[0];
    forall key | key in ws2[0] ensures KeyConforms(ws2, |ws2|, key) {
      forall i | 0 <= i < |ws2| ensures key in ws2[i] && |ws2[i][key]| == |ws2[0][key]| {
        PairMember(Pairs(ws, sizes), Pairs(ws2, sizes2), i);
        var k :| 0 <= k < |ws| && Pairs(ws, sizes)[k] == Pairs(ws2, sizes2)[i];
        assert ws2[i] == ws[k] && ws2[0] == ws[k0];
        assert KeyConforms(ws, |ws|, key);
      }
    }
  }

  /** Reordered pairs carry the same total size. */
  lemma PermutedTotal(ws: seq<WeightSet>, sizes: seq<int>, ws2: seq<WeightSet>, sizes2: seq<int>)
    requires |ws| == |sizes| && |ws2| == |sizes2|
    requires multiset(Pairs(ws, sizes)) == multiset(Pairs(ws2, sizes2))
    ensures SumInts(sizes) == SumInts(sizes2)
  {
    SizesAsSumOf(ws, sizes);
    SizesAsSumOf(ws2, sizes2);
    SumOfPermutation(Pairs(ws, sizes), Pairs(ws2, sizes2), (p: (WeightSet, int)) => p.1 as real);
  }

  /** Reordered updates that all carry the same parameter names still do,
      and they are the same names. */
  lemma PermutedKeys(ws: seq<WeightSet>, sizes: seq<int>, ws2: seq<WeightSet>, sizes2: seq<int>)
    requires 0 < |ws| && |ws| == |sizes| && |ws2| == |sizes2|
    requires multiset(Pairs(ws, sizes)) == multiset(Pairs(ws2, sizes2))
    requires forall i :: 0 <= i < |ws| ==> ws[i].Keys == ws[0].Keys
    ensures |ws2| == |ws| && ws2[0].Keys == ws[0].Keys
    ensures forall i :: 0 <= i < |ws2| ==> ws2[i].Keys == ws2[0].Keys
  {
    var ps, ps2 := Pairs(ws, sizes), Pairs(ws2, sizes2);
    assert |multiset(ps)| == |ps| && |multiset(ps2)| == |ps2|;
    PairMember(ps, ps2, 0);
    var k0 :| 0 <= k0 < |ws| && ps[k0] == ps2[0];
    assert ws2[0] == ws[k0];
    forall i | 0 <= i < |ws2| ensures ws2[i].Keys == ws2[0].Keys {
      PairMember(ps, ps2, i);
      var k :| 0 <= k < |ws| && ps[k] == ps2[i];
      assert ws2[i] == ws[k];
    }
  }

  /** With a non-zero total, reordering the pairs does not change the
      size-weighted combination. */
  lemma PermutedCombination(ws: seq<WeightSet>, sizes: seq<int>, ws2: seq<WeightSet>, sizes2: seq<int>)
    requires 0 < |ws| && |ws| == |sizes| && |ws2| == |sizes2| && |ws2| == |ws|
    requires multiset(Pairs(ws, sizes)) == multiset(Pairs(ws2, sizes2))
    requires Uniform(ws, |ws|) && Uniform(ws2, |ws|) && ws2[0].Keys == ws[0].Keys
    requires SumInts(sizes) != 0 && SumInts(sizes) == SumInts(sizes2)
    ensures Combination(ws, SizeCoefficients(sizes), |ws|) == Combination(ws2, SizeCoefficients(sizes2), |ws|)
  {
    var n := |ws|;
    var c, c2 := SizeCoefficients(sizes), SizeCoefficients(sizes2);
    PairMember(Pairs(ws, sizes), Pairs(ws2, sizes2), 0);
    var k0 :| 0 <= k0 < n && Pairs(ws, sizes)[k0] == Pairs(ws2, sizes2)[0];
    assert ws2[0] == ws[k0];
    var agg := Combination(ws, c, n);
    forall key | key in agg
      ensures KeyConforms(ws2, n, key) && agg[key] == Row(ws2, c2, n, key)
    {
      assert KeyConforms(ws, n, key) && KeyConforms(ws2, n, key);
      assert |ws2[0][key]| == |ws[0][key]|;
      var r, r2 := Row(ws, c, n, key), Row(ws2, c2, n, key);
      forall j | 0 <= j < |r| ensures r[j] == r2[j] {
        PermutedCombo(ws, sizes, ws2, sizes2, key, j);
      }
    }
    RowsFormCombination(ws2, c2, n, agg);
  }

  lemma PermutedCombo(ws: seq<WeightSet>, sizes: seq<int>, ws2: seq<WeightSet>, sizes2: seq<int>, key: string, j: nat)
    requires 0 < |ws| && |ws| == |sizes| && |ws2| == |sizes2| && |ws2| == |ws|
    requires multiset(Pairs(ws, sizes)) == multiset(Pairs(ws2, sizes2))
    requires key in ws[0] && key in ws2[0] && KeyConforms(ws, |ws|, key) && KeyConforms(ws2, |ws|, key)
    requires j < |ws[0][key]| && j < |ws2[0][key]|
    requires SumInts(sizes) != 0 && SumInts(sizes) == SumInts(sizes2)
    ensures Combo(ws, SizeCoefficients(sizes), |ws|, key, j) == Combo(ws2, SizeCoefficients(sizes2), |ws|, key, j)
  {
    var n := |ws|;
    var ps, ps2 := Pairs(ws, sizes), Pairs(ws2, sizes2);
    assert ps[..n] == ps && ps2[..n] == ps2;
    ComboAsSumOf(ws, sizes, n, key, j);
    ComboAsSumOf(ws2, sizes2, n, key, j);
    SumOfPermutation(ps, ps2, p => Contribution(key, j, SumInts(sizes) as real, p));
  }

  /** Reordering the (update, size) pairs of the hospitals leaves FedAvg
      unchanged, provided all updates carry the same parameter names (the
      result takes its names from whichever update comes first). */
  lemma FedAvgPermutationInvariant(ws: seq<WeightSet>, sizes: seq<int>, ws2: seq<WeightSet>, sizes2: seq<int>)
    requires |ws| == |sizes| && |ws2| == |sizes2|
    requires multiset(Pairs(ws, sizes)) == multiset(Pairs(ws2, sizes2))
    requires forall i :: 0 <= i < |ws| ==> ws[i].Keys == ws[0].Keys
    ensures FedAvg(ws, sizes) == FedAvg(ws2, sizes2)
  {
    assert |multiset(Pairs(ws, sizes))| == |ws| && |multiset(Pairs(ws2, sizes2))| == |ws2|;
    var n := |ws|;
    if n == 0 {
      return;
    }
    PermutedTotal(ws, sizes, ws2, sizes2);
    if SumInts(sizes) == 0 {
      return;
    }
    PermutedKeys(ws, sizes, ws2, sizes2);
    if Uniform(ws, n) {
      UniformTransfer(ws, sizes, ws2, sizes2);
    }
    if Uniform(ws2, n) {
      UniformTransfer(ws2, sizes2, ws, sizes);
    }
    if Uniform(ws, n) {
      PermutedCombination(ws, sizes, ws2, sizes2);
    }
  }

  // ---------------------------------------------------------------------
  // The weighted strategy

  /** Every weight multiplied by x. */
  function Scale(weights: seq<real>, x: real): (r: seq<real>)
    ensures |r| == |weights| && forall i :: 0 <= i < |r| ==> r[i] == weights[i] * x
  {
    seq(|weights|, i requires 0 <= i < |weights| => weights[i] * x)
  }

  lemma {:induction false} SumRealsScale(weights: seq<real>, x: real)
    ensures SumReals(Scale(weights, x)) == SumReals(weights) * x
  {
    if weights != [] {
      SumRealsScale(weights[..|weights| - 1], x);
      var m := |weights| - 1;
      forall i | 0 <= i < m ensures Scale(weights, x)[..m][i] == Scale(weights[..m], x)[i] {
        assert Scale(weights, x)[..m][i] == Scale(weights, x)[i];
      }
      assert Scale(weights, x)[..m] == Scale(weights[..m], x);
    }
  }

  /** Weighted aggregation normalises its weights: multiplying them all
      by the same non-zero factor changes nothing, errors included. */
  lemma WeightedScaleInvariant(ws: seq<WeightSet>, weights: seq<real>, x: real)
    requires x != 0.0
    ensures Weighted(ws, Scale(weights, x)) == Weighted(ws, weights)
  {
    SumRealsScale(weights, x);
    var total := SumReals(weights);
    assert total * x == 0.0 <==> total == 0.0;
    forall i | 0 <= i < |weights| ensures Normalize(Scale(weights, x))[i] == Normalize(weights)[i] {
      if total != 0.0 {
        assert (weights[i] * x) / (total * x) == weights[i] / total;
      }
    }
    assert Normalize(Scale(weights, x)) == Normalize(weights);
  }

  /** The sizes as reals. */
  function AsReals(sizes: seq<int>): (r: seq<real>)
    ensures |r| == |sizes| && forall i :: 0 <= i < |r| ==> r[i] == sizes[i] as real
  {
    seq(|sizes|, i requires 0 <= i < |sizes| => sizes[i] as real)
  }

  lemma {:induction false} SumRealsAsReals(sizes: seq<int>)
    ensures SumReals(AsReals(sizes)) == SumInts(sizes) as real
  {
    if sizes != [] {
      SumRealsAsReals(sizes[..|sizes| - 1]);
      assert AsReals(sizes)[..|sizes| - 1] == AsReals(sizes[..|sizes| - 1]);
    }
  }

  /** For a non-empty client list, weighted aggregation with the data
      sizes as weights is FedAvg, errors included.  (With no clients the
      two differ: the weighted strategy rejects a zero weight total
      before it looks at the clients.) */
  lemma WeightedBySizesIsFedAvg(ws: seq<WeightSet>, sizes: seq<int>)
    requires 0 < |ws|
    ensures Weighted(ws, AsReals(sizes)) == FedAvg(ws, sizes)
  {
    SumRealsAsReals(sizes);
    assert Normalize(AsReals(sizes)) == SizeCoefficients(sizes);
  }

  /** weights[0] * ws[0][key][j] + ... + weights[n-1] * ws[n-1][key][j]. */
  function RealWeightedSum(ws: seq<WeightSet>, weights: seq<real>, n: nat, key: string, j: nat): real
    requires 0 < |ws| && n <= |ws| && n <= |weights| && key in ws[0] && KeyConforms(ws, n, key)
    requires j < |ws[0][key]|
  {
    if n == 0 then 0.0
    else RealWeightedSum(ws, weights, n - 1, key, j) + weights[n - 1] * ws[n - 1][key][j]
  }

  lemma {:induction false} ComboByWeights(ws: seq<WeightSet>, weights: seq<real>, m: nat, key: string, j: nat)
    requires 0 < |ws| && m <= |ws| && m <= |weights| && key in ws[0] && KeyConforms(ws, m, key)
    requires j < |ws[0][key]| && SumReals(weights) != 0.0
    ensures Combo(ws, Normalize(weights), m, key, j)
         == RealWeightedSum(ws, weights, m, key, j) / SumReals(weights)
  {
    if m > 0 {
      ComboByWeights(ws, weights, m - 1, key, j);
      DivStep(RealWeightedSum(ws, weights, m - 1, key, j), ws[m - 1][key][j],
              weights[m - 1], SumReals(weights));
    }
  }

  /** Each element of a weighted result is the sum of the clients'
      elements times their custom weights, divided by the sum of the
      weights. */
  lemma WeightedIsWeightedMean(ws: seq<WeightSet>, weights: seq<real>, key: string, j: nat)
    requires Weighted(ws, weights).Success? && 0 < |weights|
    requires key in Weighted(ws, weights).value && j < |Weighted(ws, weights).value[key]|
    ensures SumReals(weights) != 0.0
    ensures Weighted(ws, weights).value[key][j]
         == RealWeightedSum(ws, weights, Min(|ws|, |weights|), key, j) / SumReals(weights)
  {
    ComboByWeights(ws, weights, Min(|ws|, |weights|), key, j);
  }

  lemma {:induction false} NormalizePrefixSum(weights: seq<real>, m: nat)
    requires m <= |weights| && SumReals(weights) != 0.0
    ensures SumReals(Normalize(weights)[..m]) == SumReals(weights[..m]) / SumReals(weights)
  {
    if m > 0 {
      NormalizePrefixSum(weights, m - 1);
      var c := Normalize(weights);
      assert c[..m][..m - 1] == c[..m - 1];
      assert weights[..m][..m - 1] == weights[..m - 1];
      DivAdd(SumReals(weights[..m - 1]), weights[m - 1], SumReals(weights));
    }
  }

  /** Normalised weights of a non-zero total add up to one. */
  lemma NormalizeSumsToOne(weights: seq<real>)
    requires SumReals(weights) != 0.0
    ensures SumReals(Normalize(weights)) == 1.0
  {
    NormalizePrefixSum(weights, |weights|);
    assert weights[..|weights|] == weights;
    assert Normalize(weights)[..|weights|] == Normalize(weights);
    DivSelf(SumReals(weights));
  }

  lemma {:induction false} SumRealsNonNegative(s: seq<real>)
    requires forall i :: 0 <= i < |s| ==> 0.0 <= s[i]
    ensures 0.0 <= SumReals(s)
  {
    if s != [] {
      SumRealsNonNegative(s[..|s| - 1]);
    }
  }

  /** With non-negative custom weights, one per client, every element of
      the weighted result lies between the smallest and the largest value
      the clients hold at that position. */
  lemma WeightedWithinBounds(ws: seq<WeightSet>, weights: seq<real>, key: string, j: nat, lo: real, hi: real)
    requires Weighted(ws, weights).Success? && 0 < |weights| <= |ws|
    requires forall i :: 0 <= i < |weights| ==> 0.0 <= weights[i]
    requires key in ws[0] && j < |ws[0][key]|
    requires forall i :: 0 <= i < |weights| ==> lo <= ws[i][key][j] <= hi
    ensures lo <= Weighted(ws, weights).value[key][j] <= hi
  {
    var c := Normalize(weights);
    var n := |weights|;
    var total := SumReals(weights);
    assert total != 0.0;
    assert total > 0.0 by { SumRealsNonNegative(weights); }
    forall i | 0 <= i < n ensures 0.0 <= c[i] {
      assert c[i] == weights[i] / total;
    }
    NormalizeSumsToOne(weights);
    assert c[..n] == c;
    ComboBounds(ws, c, n, key, j, lo, hi);
  }

  /** With no sizes and no weights given, both strategies take the plain
      mean, so they agree on every client list. */
  lemma DefaultStrategiesAgree(ws: seq<WeightSet>)
    ensures AggregateSpec(FedAvgMethod, ws, None, None) == AggregateSpec(WeightedMethod, ws, None, None)
  {
    if 0 < |ws| {
      WeightedBySizesIsFedAvg(ws, Ones(|ws|));
      assert AsReals(Ones(|ws|)) == OnesReal(|ws|);
    }
  }

  /** ws[0][key][j] + ... + ws[n-1][key][j]. */
  function ColumnSum(ws: seq<WeightSet>, n: nat, key: string, j: nat): real
    requires 0 < |ws| && n <= |ws| && key in ws[0] && KeyConforms(ws, n, key) && j < |ws[0][key]|
  {
    if n == 0 then 0.0 else ColumnSum(ws, n - 1, key, j) + ws[n - 1][key][j]
  }

  lemma {:induction false} SumOnes(n: nat)
    ensures SumInts(Ones(n)) == n
  {
    if n > 0 {
      SumOnes(n - 1);
      assert Ones(n)[..n - 1] == Ones(n - 1);
    }
  }

  lemma {:induction false} UnitSizesSum(ws: seq<WeightSet>, m: nat, key: string, j: nat)
    requires 0 < |ws| && m <= |ws| && key in ws[0] && KeyConforms(ws, m, key) && j < |ws[0][key]|
    ensures SizeWeightedSum(ws, Ones(|ws|), m, key, j) == ColumnSum(ws, m, key, j)
  {
    if m > 0 {
      UnitSizesSum(ws, m - 1, key, j);
    }
  }

  /** `aggregate` with the FedAvg strategy and no sizes is the plain,
      unweighted mean of the clients. */
  lemma DefaultFedAvgIsPlainMean(ws: seq<WeightSet>, key: string, j: nat)
    requires AggregateSpec(FedAvgMethod, ws, None, None).Success?
    requires key in ws[0] && j < |ws[0][key]|
    ensures KeyConforms(ws, |ws|, key)
    ensures AggregateSpec(FedAvgMethod, ws, None, None).value[key][j] == ColumnSum(ws, |ws|, key, j) / |ws| as real
  {
    var ones := Ones(|ws|);
    SumOnes(|ws|);
    FedAvgIsWeightedMean(ws, ones, key, j);
    UnitSizesSum(ws, |ws|, key, j);
  }

  /** Two hospitals holding one parameter, [1.0] and [2.0], with 100 and
      300 samples give [1.75]. */
  lemma TwoHospitalExample()
    ensures FedAvg([map["w" := [1.0]], map["w" := [2.0]]], [100, 300]) == Success(map["w" := [1.75]])
  {
    var ws: seq<WeightSet> := [map["w" := [1.0]], map["w" := [2.0]]];
    var sizes := [100, 300];
    assert SumInts(sizes) == 400 by {
      assert sizes[..1] == [100] && [100][..0] == [];
    }
    assert Uniform(ws, 2);
    var c := SizeCoefficients(sizes);
    assert c[0] == 0.25 && c[1] == 0.75;
    assert KeyConforms(ws, 2, "w");
    assert Combo(ws, c, 1, "w", 0) == 0.25;
    assert Combo(ws, c, 2, "w", 0) == 1.75;
    assert Row(ws, c, 2, "w") == [1.75];
    assert Combination(ws, c, 2) == map["w" := [1.75]];
  }

  // ---------------------------------------------------------------------
  // The model distance

  lemma MulPositive(a: real, b: real)
    requires 0.0 < a && 0.0 < b
    ensures 0.0 < a * b
  {
  }

  /** A square is non-negative and zero only for zero. */
  lemma SquareSign(d: real)
    ensures 0.0 <= Square(d)
    ensures Square(d) == 0.0 <==> d == 0.0
  {
    if d > 0.0 {
      calc {
        Square(d);
        d * d;
      >  { MulPositive(d, d); }
        0.0;
      }
    } else if d < 0.0 {
      calc {
        Square(d);
        (-d) * (-d);
      >  { MulPositive(-d, -d); }
        0.0;
      }
    }
  }

  /** The squared distance between two tensors is non-negative and zero
      exactly when they are equal. */
  lemma {:induction false} TensorSqDistZeroIff(a: Tensor, b: Tensor)
    requires |a| == |b|
    ensures 0.0 <= TensorSqDist(a, b)
    ensures TensorSqDist(a, b) == 0.0 <==> a == b
  {
    if a != [] {
      var m := |a| - 1;
      TensorSqDistZeroIff(a[..m], b[..m]);
      SquareSign(b[m] - a[m]);
      assert a == a[..m] + [a[m]] && b == b[..m] + [b[m]];
    }
  }

  lemma {:induction false} SqDistOverZeroIff(previous: WeightSet, current: WeightSet, keys: set<string>)
    requires ConformsOn(previous, current, keys)
    ensures 0.0 <= SqDistOver(previous, current, keys)
    ensures SqDistOver(previous, current, keys) == 0.0 <==> forall k :: k in keys ==> current[k] == previous[k]
    decreases keys
  {
    if keys != {} {
      var k :| k in keys;
      SqDistOverPick(previous, current, keys, k);
      SqDistOverZeroIff(previous, current, keys - {k});
      TensorSqDistZeroIff(previous[k], current[k]);
    }
  }

  /** The model difference is non-negative, and zero exactly when every
      parameter of the old model is unchanged in the new one. */
  lemma ModelDiffZeroIff(previous: WeightSet, current: WeightSet)
    requires ConformsOn(previous, current, previous.Keys)
    ensures 0.0 <= SquaredDistance(previous, current)
    ensures SquaredDistance(previous, current) == 0.0 <==> forall k :: k in previous ==> current[k] == previous[k]
  {
    SqDistOverZeroIff(previous, current, previous.Keys);
  }
}
