/**
 * A feed-forward network: an ordered stack of layers whose widths chain, the
 * forward pass through all of them, classification by the index of the
 * largest output, and the squared-error cost of one data point or a batch
 * (NeuralNetworks/Network.cs).
 */
module Networks {
  import opened Wrappers
  import opened Layers

  /** One training example: an input vector and the outputs it should produce. */
  datatype DataPoint = DataPoint(Inputs: seq<real>, ExpectedOutputs: seq<real>)

  /** The largest value of a non-empty list. */
  function Max(values: seq<real>): (m: real)
    requires |values| > 0
    ensures m in values
    ensures forall i :: 0 <= i < |values| ==> values[i] <= m
  {
    if |values| == 1 then values[0]
    else
      var rest := Max(values[1..]);
      assert forall i :: 1 <= i < |values| ==> values[i] == values[1..][i - 1];
      if values[0] >= rest then values[0] else rest
  }

  /** The position of the first occurrence of `v`, or -1 when `v` does not occur. */
  function IndexOf(values: seq<real>, v: real): (r: int)
    ensures -1 <= r < |values|
    ensures r == -1 <==> v !in values
    ensures 0 <= r ==> values[r] == v && forall j :: 0 <= j < r ==> values[j] != v
  {
    if |values| == 0 then -1
    else if values[0] == v then 0
    else
      var t := IndexOf(values[1..], v);
      assert forall j :: 1 <= j < |values| ==> values[j] == values[1..][j - 1];
      if t == -1 then -1 else t + 1
  }

  /** `i` is the first position holding the largest value of `values`. */
  ghost predicate IsFirstMax(values: seq<real>, i: int)
  {
    0 <= i < |values| &&
    (forall j :: 0 <= j < |values| ==> values[j] <= values[i]) &&
    (forall j :: 0 <= j < |values| && values[j] == values[i] ==> i <= j)
  }

  /**
   * `values.IndexOf(values.Max())`.  `Max` throws on an empty list, which is
   * modelled as `None`; otherwise ties go to the first occurrence.
   */
  function IndexOfMaxValue(values: seq<real>): (r: Option<nat>)
    ensures r.None? <==> |values| == 0
    ensures r.Some? ==> IsFirstMax(values, r.value)
  {
    if |values| == 0 then None
    else
      var m := Max(values);
      var i := IndexOf(values, m);
      Some(i)
  }

  /** At most one position is the first maximum. */
  lemma FirstMaxUnique(values: seq<real>, i: int, j: int)
    requires IsFirstMax(values, i) && IsFirstMax(values, j)
    ensures i == j
  {
    assert values[j] <= values[i];
    assert values[i] <= values[j];
  }

  /** `IndexOfMaxValue` returns `i` exactly when `i` is the first maximum. */
  lemma IndexOfMaxValueIff(values: seq<real>, i: nat)
    ensures IndexOfMaxValue(values) == Some(i) <==> IsFirstMax(values, i)
  {
    if IsFirstMax(values, i) {
      FirstMaxUnique(values, i, IndexOfMaxValue(values).value);
    }
  }

  /** Ties are broken towards the smaller index. */
  lemma IndexOfMaxValueTie()
    ensures IndexOfMaxValue([0.5, 0.5]) == Some(0)
  {
    IndexOfMaxValueIff([0.5, 0.5], 0);
  }

  /** The sum of the node costs of `outputs` against the matching prefix of `expected`. */
  function SumNodeCosts(outputs: seq<real>, expected: seq<real>): (r: real)
    requires |outputs| <= |expected|
    ensures r >= 0.0
  {
    if |outputs| == 0 then 0.0
    else SumNodeCosts(outputs[..|outputs| - 1], expected) + NodeCost(outputs[|outputs| - 1], expected[|outputs| - 1])
  }

  /** The summed cost is zero exactly when every output equals its expected value. */
  lemma {:induction false} SumNodeCostsZeroIff(outputs: seq<real>, expected: seq<real>)
    requires |outputs| <= |expected|
    ensures SumNodeCosts(outputs, expected) == 0.0 <==> outputs == expected[..|outputs|]
  {
    if |outputs| > 0 {
      var n := |outputs| - 1;
      SumNodeCostsZeroIff(outputs[..n], expected);
      NodeCostZeroIff(outputs[n], expected[n]);
      if outputs == expected[..|outputs|] {
        assert outputs[..n] == expected[..n];
      }
      if outputs[..n] == expected[..n] && outputs[n] == expected[n] {
        assert outputs == outputs[..n] + [outputs[n]];
        assert expected[..|outputs|] == expected[..n] + [expected[n]];
      }
    }
  }

  /** The sum of a list of costs, added left to right (LINQ `Sum`). */
  function Sum(costs: seq<real>): (r: real)
    ensures |costs| == 0 ==> r == 0.0
    ensures |costs| == 1 ==> r == costs[0]
  {
    if |costs| == 0 then 0.0 else Sum(costs[..|costs| - 1]) + costs[|costs| - 1]
  }

  /** No cost in the list is negative. */
  ghost predicate NonNegative(costs: seq<real>)
  {
    forall i :: 0 <= i < |costs| ==> costs[i] >= 0.0
  }

  /** A sum of costs that are never negative is never negative. */
  lemma {:induction false} SumNonNegative(costs: seq<real>)
    requires NonNegative(costs)
    ensures Sum(costs) >= 0.0
  {
    if |costs| > 0 {
      SumNonNegative(costs[..|costs| - 1]);
    }
  }

  /** Summing two lists one after the other is summing each and adding. */
  lemma {:induction false} SumAppend(first: seq<real>, second: seq<real>)
    ensures Sum(first + second) == Sum(first) + Sum(second)
  {
    if |second| > 0 {
      var m := |second| - 1;
      SumAppend(first, second[..m]);
      assert (first + second)[..|first + second| - 1] == first + second[..m];
    } else {
      assert first + second == first;
    }
  }

  /** A sum of costs that are never negative is zero exactly when every cost is zero. */
  lemma {:induction false} SumZeroIff(costs: seq<real>)
    requires NonNegative(costs)
    ensures Sum(costs) == 0.0 <==> forall i :: 0 <= i < |costs| ==> costs[i] == 0.0
  {
    if |costs| > 0 {
      var n := |costs| - 1;
      var prefix := costs[..n];
      assert forall i :: 0 <= i < n ==> prefix[i] == costs[i];
      SumNonNegative(prefix);
      SumZeroIff(prefix);
    }
  }

  /** A fresh array holding `s`: the `double[]` fields of a data point. */
  method ToArray(s: seq<real>) returns (a: array<real>)
    ensures fresh(a) && a[..] == s
  {
    a := new real[|s|](i requires 0 <= i < |s| => s[i]);
  }

  /**
   * The loop of the `Network` constructor: one fresh, zero-initialised layer
   * per pair of adjacent widths, in order.  `parts` collects the layers and
   * their arrays.
   */
  method NewLayers(layerSizes: seq<nat>) returns (built: seq<Layer>, ghost parts: set<object>)
    requires |layerSizes| >= 1
    ensures |built| == |layerSizes| - 1
    ensures forall k :: 0 <= k < |built| ==> built[k].Shaped(layerSizes[k], layerSizes[k + 1])
    ensures forall k :: 0 <= k < |built| ==> built[k].Valid() && built[k].Zeroed()
    ensures forall k :: 0 <= k < |built| - 1 ==> built[k].Nodes == built[k + 1].NodesIn
    ensures forall k :: 0 <= k < |built| ==>
      built[k] in parts && built[k].Weights in parts && built[k].Biases in parts
    ensures forall j, k :: 0 <= j < k < |built| ==>
      built[j] != built[k] && built[j].Weights != built[k].Weights && built[j].Biases != built[k].Biases
    ensures fresh(parts)
  {
    built, parts := [], {};
    for i := 0 to |layerSizes| - 1
      invariant |built| == i
      invariant forall k :: 0 <= k < i ==> built[k].Shaped(layerSizes[k], layerSizes[k + 1])
      invariant forall k :: 0 <= k < i ==> built[k].Valid() && built[k].Zeroed()
      invariant forall k :: 0 <= k < i ==>
        built[k] in parts && built[k].Weights in parts && built[k].Biases in parts
      invariant forall j, k :: 0 <= j < k < i ==>
        built[j] != built[k] && built[j].Weights != built[k].Weights && built[j].Biases != built[k].Biases
      invariant fresh(parts)
    {
      var layer := new Layer(layerSizes[i], layerSizes[i + 1]);
      built := built + [layer];
      parts := parts + {layer, layer.Weights, layer.Biases};
    }
    forall k | 0 <= k < |built| - 1
      ensures built[k].Nodes == built[k + 1].NodesIn
    {
      assert built[k].Shaped(layerSizes[k], layerSizes[k + 1]);
      assert built[k + 1].Shaped(layerSizes[k + 1], layerSizes[k + 2]);
    }
  }

  class Network {
    const Layers: array<Layer>

    /** Every object the forward pass reads: the network, its layer array, the layers and their arrays. */
    ghost var Repr: set<object>

    /**
     * The footprint is accurate, every layer is usable, and adjacent widths
     * chain: layer k feeds layer k + 1.
     */
    ghost predicate Valid()
      reads this, Repr
    {
      this in Repr && Layers in Repr &&
      (forall k :: 0 <= k < Layers.Length ==>
        Layers[k] in Repr && Layers[k].Weights in Repr && Layers[k].Biases in Repr) &&
      (forall k :: 0 <= k < Layers.Length ==> Layers[k].Valid()) &&
      (forall k :: 0 <= k < Layers.Length - 1 ==> Layers[k].Nodes == Layers[k + 1].NodesIn)
    }

    /** An input of length `n` is long enough for the first layer. */
    ghost predicate InputFits(n: nat)
      reads this, Layers, Layers[..]
    {
      Layers.Length == 0 || Layers[0].NodesIn <= n
    }

    /** The length of the network's output for an input of length `n`. */
    ghost function OutputLength(n: nat): nat
      reads this, Layers, Layers[..]
    {
      if Layers.Length == 0 then n else Layers[Layers.Length - 1].Nodes
    }

    /** The input after passing through the first `k` layers, in layer order (a left fold). */
    ghost function ForwardThrough(exp: ExpFn, x: seq<real>, k: nat): (r: seq<real>)
      reads this, Repr
      requires Valid() && InputFits(|x|) && k <= Layers.Length
      ensures k == 0 ==> r == x
      ensures 0 < k ==> |r| == Layers[k - 1].Nodes
    {
      if k == 0 then x
      else
        var previous := ForwardThrough(exp, x, k - 1);
        assert 1 < k ==> Layers[k - 2].Nodes == Layers[k - 1].NodesIn;
        Layers[k - 1].Forward(exp, previous)
    }

    /** The output of the whole network for input `x`. */
    ghost function Outputs(exp: ExpFn, x: seq<real>): (r: seq<real>)
      reads this, Repr
      requires Valid() && InputFits(|x|)
      ensures |r| == OutputLength(|x|)
    {
      ForwardThrough(exp, x, Layers.Length)
    }

    /**
     * Chains `|layerSizes| - 1` freshly allocated, zero-initialised layers:
     * layer k maps `layerSizes[k]` inputs to `layerSizes[k + 1]` outputs.
     */
    constructor (layerSizes: seq<nat>)
      requires |layerSizes| >= 1
      ensures Layers.Length == |layerSizes| - 1
      ensures forall k :: 0 <= k < Layers.Length ==> Layers[k].Shaped(layerSizes[k], layerSizes[k + 1])
      ensures Valid() && Untrained()
      ensures forall j, k :: 0 <= j < k < Layers.Length ==>
        Layers[j] != Layers[k] && Layers[j].Weights != Layers[k].Weights && Layers[j].Biases != Layers[k].Biases
      ensures fresh(Repr)
    {
      var n := |layerSizes| - 1;
      var built, parts := NewLayers(layerSizes);
      Layers := new Layer[n](i requires 0 <= i < n => built[i]);
      Repr := {this, Layers} + parts;
    }

    /**
     * Feeds `inputs` through every layer in order.  With no layers the very
     * same array is returned.  There is no modifies clause: the layers'
     * weights and biases and the input array are left as they were.
     */
    method CalculateOutputs(inputs: array<real>, exp: ExpFn) returns (outputs: array<real>)
      requires Valid() && InputFits(inputs.Length)
      ensures outputs[..] == Outputs(exp, inputs[..])
      ensures outputs.Length == OutputLength(inputs.Length)
      ensures Layers.Length == 0 ==> outputs == inputs
      ensures 0 < Layers.Length ==> fresh(outputs)
    {
      ghost var x := inputs[..];
      outputs := inputs;
      for k := 0 to Layers.Length
        invariant outputs[..] == ForwardThrough(exp, x, k)
        invariant k == 0 ==> outputs == inputs
        invariant 0 < k ==> fresh(outputs)
      {
        assert 0 < k ==> Layers[k - 1].Nodes == Layers[k].NodesIn;
        outputs := Layers[k].CalculateOutputs(outputs, exp);
      }
    }

    /**
     * The index of the largest output, ties going to the first; `None` when the
     * output is empty, where the C# code throws.
     */
    method Classify(inputs: array<real>, exp: ExpFn) returns (index: Option<nat>)
      requires Valid() && InputFits(inputs.Length)
      ensures index.None? <==> OutputLength(inputs.Length) == 0
      ensures index.Some? ==> IsFirstMax(Outputs(exp, inputs[..]), index.value)
    {
      var outputs := CalculateOutputs(inputs, exp);
      index := IndexOfMaxValue(outputs[..]);
    }

    /** The data point's input fits the network and it expects at least as many outputs as it gives. */
    ghost predicate Fits(dataPoint: DataPoint)
      reads this, Layers, Layers[..]
    {
      InputFits(|dataPoint.Inputs|) && OutputLength(|dataPoint.Inputs|) <= |dataPoint.ExpectedOutputs|
    }

    /** The cost of one data point: the summed node costs of the network's output. */
    ghost function PointCost(exp: ExpFn, dataPoint: DataPoint): (r: real)
      reads this, Repr
      requires Valid() && Fits(dataPoint)
      ensures r >= 0.0
    {
      SumNodeCosts(Outputs(exp, dataPoint.Inputs), dataPoint.ExpectedOutputs)
    }

    /** A data point costs nothing exactly when the network reproduces its expected outputs. */
    lemma PointCostZeroIff(exp: ExpFn, dataPoint: DataPoint)
      requires Valid() && Fits(dataPoint)
      ensures PointCost(exp, dataPoint) == 0.0 <==>
        Outputs(exp, dataPoint.Inputs) == dataPoint.ExpectedOutputs[..OutputLength(|dataPoint.Inputs|)]
    {
      SumNodeCostsZeroIff(Outputs(exp, dataPoint.Inputs), dataPoint.ExpectedOutputs);
    }

    /** Every data point of the batch fits the network. */
    ghost predicate AllFit(dataPoints: seq<DataPoint>)
      reads this, Layers, Layers[..]
    {
      forall i :: 0 <= i < |dataPoints| ==> Fits(dataPoints[i])
    }

    /** The cost of every point of the batch, in order (LINQ `Select`). */
    ghost function PointCosts(exp: ExpFn, dataPoints: seq<DataPoint>): (r: seq<real>)
      reads this, Repr
      requires Valid() && AllFit(dataPoints)
      ensures |r| == |dataPoints|
      ensures forall i :: 0 <= i < |dataPoints| ==> r[i] == PointCost(exp, dataPoints[i])
    {
      if |dataPoints| == 0 then []
      else
        var n := |dataPoints| - 1;
        var prefix := dataPoints[..n];
        assert forall i :: 0 <= i < n ==> prefix[i] == dataPoints[i];
        PointCosts(exp, prefix) + [PointCost(exp, dataPoints[n])]
    }

    /**
     * `Cost(DataPoint[])`: the cost of every point (`Select`) added up
     * (`Sum`) -- the plain sum, not the mean.  An empty batch costs nothing.
     */
    ghost function BatchCost(exp: ExpFn, dataPoints: seq<DataPoint>): (r: real)
      reads this, Repr
      requires Valid() && AllFit(dataPoints)
      ensures r >= 0.0
      ensures |dataPoints| == 0 ==> r == 0.0
    {
      var costs := PointCosts(exp, dataPoints);
      SumNonNegative(costs);
      Sum(costs)
    }

    /** A batch costs nothing exactly when each of its points costs nothing. */
    lemma BatchCostZeroIff(exp: ExpFn, dataPoints: seq<DataPoint>)
      requires Valid() && AllFit(dataPoints)
      ensures BatchCost(exp, dataPoints) == 0.0 <==>
        forall i :: 0 <= i < |dataPoints| ==> PointCost(exp, dataPoints[i]) == 0.0
    {
      SumZeroIff(PointCosts(exp, dataPoints));
    }

    /** The cost of two batches, one after the other, is the sum of their costs. */
    lemma BatchCostAppend(exp: ExpFn, first: seq<DataPoint>, second: seq<DataPoint>)
      requires Valid() && AllFit(first) && AllFit(second)
      ensures AllFit(first + second)
      ensures BatchCost(exp, first + second) == BatchCost(exp, first) + BatchCost(exp, second)
    {
      var both := first + second;
      assert forall i :: 0 <= i < |both| ==> both[i] == if i < |first| then first[i] else second[i - |first|];
      assert PointCosts(exp, both) == PointCosts(exp, first) + PointCosts(exp, second);
      SumAppend(PointCosts(exp, first), PointCosts(exp, second));
    }

    /**
     * `LayerCost`: adds the node cost of every output against the expected
     * value at the same position.  Extra expected values are ignored; fewer
     * would make the C# code throw, so they are excluded here.
     */
    static method LayerCost(outputs: array<real>, expectedOutputs: array<real>) returns (cost: real)
      requires outputs.Length <= expectedOutputs.Length
      ensures cost == SumNodeCosts(outputs[..], expectedOutputs[..])
    {
      cost := 0.0;
      for i := 0 to outputs.Length
        invariant cost == SumNodeCosts(outputs[..i], expectedOutputs[..])
      {
        assert outputs[..i + 1][..i] == outputs[..i];
        cost := cost + NodeCost(outputs[i], expectedOutputs[i]);
      }
      assert outputs[..] == outputs[..outputs.Length];
    }

    /** The cost of one data point: the layer cost of the network's output. */
    method Cost(dataPoint: DataPoint, exp: ExpFn) returns (cost: real)
      requires Valid() && Fits(dataPoint)
      ensures cost == PointCost(exp, dataPoint)
    {
      var inputs := ToArray(dataPoint.Inputs);
      var expected := ToArray(dataPoint.ExpectedOutputs);
      var outputs := CalculateOutputs(inputs, exp);
      cost := LayerCost(outputs, expected);
    }

    /** Every layer still has the zero weights and biases it was constructed with. */
    ghost predicate Untrained()
      reads this, Repr
      requires Valid()
    {
      forall k :: 0 <= k < Layers.Length ==> Layers[k].Zeroed()
    }

    /** An untrained network with at least one layer outputs one half everywhere. */
    lemma UntrainedOutputs(exp: ExpFn, x: seq<real>)
      requires Valid() && Untrained() && InputFits(|x|) && 0 < Layers.Length
      ensures forall i :: 0 <= i < |Outputs(exp, x)| ==> Outputs(exp, x)[i] == 0.5
    {
      var last := Layers.Length - 1;
      var previous := ForwardThrough(exp, x, last);
      assert 0 < last ==> Layers[last - 1].Nodes == Layers[last].NodesIn;
      Layers[last].ZeroedForward(exp, previous);
    }

    /** An untrained network classifies every input as class 0, unless its output is empty. */
    lemma UntrainedClassify(exp: ExpFn, x: seq<real>)
      requires Valid() && Untrained() && InputFits(|x|) && 0 < Layers.Length
      ensures IndexOfMaxValue(Outputs(exp, x)) ==
        if Layers[Layers.Length - 1].Nodes == 0 then None else Some(0)
    {
      var out := Outputs(exp, x);
      UntrainedOutputs(exp, x);
      if |out| > 0 {
        IndexOfMaxValueIff(out, 0);
      }
    }
  }
}
