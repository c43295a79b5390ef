/**
 * One dense layer of the network: a `NodesIn x Nodes` weight matrix, a
 * `Nodes`-long bias vector and the sigmoid activation
 * (NeuralNetworks/Layer.cs).
 *
 * `double` is modelled as `real`.  `Math.Exp` is not part of this model: it is
 * a parameter of type `ExpFn`, which only promises what the real exponential
 * promises and the sigmoid needs, namely exp(0) = 1 and exp(y) > 0.
 */
module Layers {

  /** The exponential function `Math.Exp`, as far as this model relies on it. */
  type PositiveReal = r: real | r > 0.0 witness 1.0

  type ExpFn = f: real -> PositiveReal | f(0.0) == 1.0
    witness (y: real) => 1.0

  /** The logistic sigmoid 1 / (1 + e^-x); its value lies strictly between 0 and 1. */
  function SigmoidActivationFunction(exp: ExpFn, activation: real): (r: real)
    ensures 0.0 < r < 1.0
  {
    var e := exp(-activation);
    assert 1.0 + e > 1.0;
    1.0 / (1.0 + e)
  }

  /** The sigmoid is exactly one half at zero. */
  lemma SigmoidAtZero(exp: ExpFn)
    ensures SigmoidActivationFunction(exp, 0.0) == 0.5
  {
    assert exp(-0.0) == 1.0;
  }

  /** The step activation: 1 for a positive argument, 0 otherwise. */
  function ActivationFunction(activation: real): (r: real)
    ensures r == 0.0 || r == 1.0
    ensures r == 1.0 <==> activation > 0.0
  {
    if activation > 0.0 then 1.0 else 0.0
  }

  /**
   * Squared error of one output node.  It is the squared distance between
   * the two values, so it is never negative and it is zero when they agree.
   */
  function NodeCost(output: real, expectedValue: real): (r: real)
    ensures r >= 0.0
    ensures r == (output - expectedValue) * (output - expectedValue)
    ensures output == expectedValue ==> r == 0.0
  {
    var error := expectedValue - output;
    error * error
  }

  /** Two different values have a positive node cost. */
  lemma NodeCostPositive(output: real, expectedValue: real)
    requires output != expectedValue
    ensures NodeCost(output, expectedValue) > 0.0
  {
    var distance := if output < expectedValue then expectedValue - output else output - expectedValue;
    assert distance > 0.0;
    calc {
      NodeCost(output, expectedValue);
      ==
      (expectedValue - output) * (expectedValue - output);
      ==
      distance * distance;
      >
      0.0;
    }
  }

  /** The node cost is zero exactly when the output equals the expected value. */
  lemma NodeCostZeroIff(output: real, expectedValue: real)
    ensures NodeCost(output, expectedValue) == 0.0 <==> output == expectedValue
  {
    if output != expectedValue {
      NodeCostPositive(output, expectedValue);
    }
  }

  /** The node cost does not depend on which argument is the expected one. */
  lemma NodeCostSymmetric(output: real, expectedValue: real)
    ensures NodeCost(output, expectedValue) == NodeCost(expectedValue, output)
  {
  }

  class Layer {
    const NodesIn: nat
    const Nodes: nat
    var Weights: array2<real>
    var Biases: array<real>

    /**
     * The arrays are large enough for the forward pass to read.  The C#
     * properties `Weights` and `Biases` have public setters, so this is a
     * condition on the current arrays, not a consequence of construction.
     */
    ghost predicate Valid()
      reads this
    {
      NodesIn <= Weights.Length0 && Nodes <= Weights.Length1 && Nodes <= Biases.Length
    }

    /** The layer maps exactly `nodesIn` inputs to `nodes` outputs, and its arrays have exactly those dimensions. */
    ghost predicate Shaped(nodesIn: nat, nodes: nat)
      reads this
    {
      NodesIn == nodesIn && Nodes == nodes &&
      Weights.Length0 == nodesIn && Weights.Length1 == nodes && Biases.Length == nodes
    }

    /** Every weight and bias the forward pass reads is zero. */
    ghost predicate Zeroed()
      reads this, Weights, Biases
      requires Valid()
    {
      (forall i, j :: 0 <= i < NodesIn && 0 <= j < Nodes ==> Weights[i, j] == 0.0) &&
      (forall j :: 0 <= j < Nodes ==> Biases[j] == 0.0)
    }

    /**
     * Allocates the weight matrix and the bias vector.  They hold C#'s default
     * value 0; there is no random initialisation.
     */
    constructor (nodesIn: nat, nodes: nat)
      ensures NodesIn == nodesIn && Nodes == nodes
      ensures Weights.Length0 == nodesIn && Weights.Length1 == nodes
      ensures Biases.Length == nodes
      ensures fresh(Weights) && fresh(Biases)
      ensures Valid() && Zeroed()
    {
      NodesIn := nodesIn;
      Nodes := nodes;
      Weights := new real[nodesIn, nodes]((i, j) => 0.0);
      Biases := new real[nodes](j => 0.0);
    }

    /** The sum of `x[i] * Weights[i, node]` over the first `n` inputs, left to right. */
    function Dot(x: seq<real>, node: nat, n: nat): (r: real)
      reads this, Weights
      requires Valid() && node < Nodes && n <= NodesIn && n <= |x|
      ensures n == 0 ==> r == 0.0
      ensures (forall i :: 0 <= i < n ==> x[i] == 0.0) ==> r == 0.0
    {
      if n == 0 then 0.0 else Dot(x, node, n - 1) + x[n - 1] * Weights[n - 1, node]
    }

    /** The pre-activation ("weighted") value of output node `node` for input `x`. */
    function WeightedInput(x: seq<real>, node: nat): (r: real)
      reads this, Weights, Biases
      requires Valid() && node < Nodes && NodesIn <= |x|
      ensures (forall i :: 0 <= i < NodesIn ==> x[i] == 0.0) ==> r == Biases[node]
    {
      Biases[node] + Dot(x, node, NodesIn)
    }

    /** The activations of the first `n` output nodes for input `x`, in node order. */
    function Activations(exp: ExpFn, x: seq<real>, n: nat): (r: seq<real>)
      reads this, Weights, Biases
      requires Valid() && NodesIn <= |x| && n <= Nodes
      ensures |r| == n
    {
      if n == 0 then []
      else Activations(exp, x, n - 1) + [SigmoidActivationFunction(exp, WeightedInput(x, n - 1))]
    }

    /** The activations this layer produces for input `x`. */
    function Forward(exp: ExpFn, x: seq<real>): (r: seq<real>)
      reads this, Weights, Biases
      requires Valid() && NodesIn <= |x|
      ensures |r| == Nodes
    {
      Activations(exp, x, Nodes)
    }

    /** Entry `node` of the forward pass is the sigmoid of that node's weighted input. */
    lemma {:induction false} ActivationsAt(exp: ExpFn, x: seq<real>, n: nat, node: nat)
      requires Valid() && NodesIn <= |x| && n <= Nodes && node < n
      ensures Activations(exp, x, n)[node] == SigmoidActivationFunction(exp, WeightedInput(x, node))
    {
      if node < n - 1 {
        ActivationsAt(exp, x, n - 1, node);
      }
    }

    /**
     * The forward pass: a fresh array whose entry `node` is
     * sigmoid(Biases[node] + sum_i inputs[i] * Weights[i, node]).
     * The method has no modifies clause, so the weights, the biases and
     * `inputs` are left as they were.
     */
    method CalculateOutputs(inputs: array<real>, exp: ExpFn) returns (activations: array<real>)
      requires Valid() && NodesIn <= inputs.Length
      ensures fresh(activations) && activations.Length == Nodes
      ensures activations[..] == Forward(exp, inputs[..])
    {
      ghost var spec := Forward(exp, inputs[..]);
      activations := new real[Nodes];
      for node := 0 to Nodes
        invariant activations[..node] == spec[..node]
      {
        var output := WeightedSum(inputs, node);
        ActivationsAt(exp, inputs[..], Nodes, node);
        activations[node] := SigmoidActivationFunction(exp, output);
      }
      assert activations[..] == activations[..Nodes];
    }

    /**
     * The inner loop of the forward pass: starting from the bias of `node`,
     * add `inputs[nodeIn] * Weights[nodeIn, node]` for every input in turn.
     */
    method WeightedSum(inputs: array<real>, node: nat) returns (output: real)
      requires Valid() && NodesIn <= inputs.Length && node < Nodes
      ensures output == WeightedInput(inputs[..], node)
    {
      output := Biases[node];
      for nodeIn := 0 to NodesIn
        invariant output == Biases[node] + Dot(inputs[..], node, nodeIn)
      {
        output := output + inputs[nodeIn] * Weights[nodeIn, node];
      }
    }

    /** Entry `node` of the forward pass is the sigmoid of that node's weighted input. */
    lemma ForwardAt(exp: ExpFn, x: seq<real>, node: nat)
      requires Valid() && NodesIn <= |x| && node < Nodes
      ensures Forward(exp, x)[node] == SigmoidActivationFunction(exp, WeightedInput(x, node))
    {
      ActivationsAt(exp, x, Nodes, node);
    }

    /** A layer whose weights and biases are all zero maps every input to one half everywhere. */
    lemma {:induction false} ZeroedForward(exp: ExpFn, x: seq<real>)
      requires Valid() && Zeroed() && NodesIn <= |x|
      ensures forall node :: 0 <= node < Nodes ==> Forward(exp, x)[node] == 0.5
    {
      forall node | 0 <= node < Nodes
        ensures Forward(exp, x)[node] == 0.5
      {
        ZeroedDot(x, node, NodesIn);
        SigmoidAtZero(exp);
        ActivationsAt(exp, x, Nodes, node);
      }
    }

    lemma {:induction false} ZeroedDot(x: seq<real>, node: nat, n: nat)
      requires Valid() && Zeroed() && node < Nodes && n <= NodesIn && n <= |x|
      ensures Dot(x, node, n) == 0.0
    {
      if n > 0 {
        ZeroedDot(x, node, n - 1);
      }
    }
  }
}
