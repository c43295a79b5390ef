/**
 * The forward-pass scenario of NeuralNetworkTesting/LayerTests.cs: a 2 x 2
 * layer with weights {{1, 2}, {2, 1}} and biases {1, 2} applied to the input
 * {2, 2}.
 */
module LayerTests {
  import opened Layers

  /** `new Layer(2, 2)` followed by assigning the scenario's weights and biases. */
  method ScenarioLayer() returns (layer: Layer)
    ensures fresh(layer) && fresh(layer.Weights) && fresh(layer.Biases)
    ensures layer.NodesIn == 2 && layer.Nodes == 2 && layer.Valid()
    ensures layer.Weights[0, 0] == 1.0 && layer.Weights[0, 1] == 2.0
    ensures layer.Weights[1, 0] == 2.0 && layer.Weights[1, 1] == 1.0
    ensures layer.Biases[0] == 1.0 && layer.Biases[1] == 2.0
  {
    layer := new Layer(2, 2);
    var weights := new real[2, 2];
    weights[0, 0], weights[0, 1] := 1.0, 2.0;
    weights[1, 0], weights[1, 1] := 2.0, 1.0;
    var biases := new real[2];
    biases[0], biases[1] := 1.0, 2.0;
    layer.Weights, layer.Biases := weights, biases;
  }

  /** With the scenario's weights and biases, the input {2, 2} gives weighted inputs 7 and 8. */
  lemma ScenarioWeightedInputs(layer: Layer, x: seq<real>)
    requires layer.NodesIn == 2 && layer.Nodes == 2 && layer.Valid()
    requires layer.Weights[0, 0] == 1.0 && layer.Weights[0, 1] == 2.0
    requires layer.Weights[1, 0] == 2.0 && layer.Weights[1, 1] == 1.0
    requires layer.Biases[0] == 1.0 && layer.Biases[1] == 2.0
    requires x == [2.0, 2.0]
    ensures layer.WeightedInput(x, 0) == 7.0 && layer.WeightedInput(x, 1) == 8.0
  {
    assert layer.Dot(x, 0, 1) == 2.0;
    assert layer.Dot(x, 1, 1) == 4.0;
  }

  /**
   * The weighted inputs of the two nodes are 1 + 2*1 + 2*2 = 7 and
   * 2 + 2*2 + 2*1 = 8, and the outputs are their sigmoids.
   */
  method TestCalculateOutput(exp: ExpFn) returns (sums: seq<real>, outputs: array<real>)
    ensures sums == [7.0, 8.0]
    ensures outputs[..] == [SigmoidActivationFunction(exp, 7.0), SigmoidActivationFunction(exp, 8.0)]
  {
    var layer := ScenarioLayer();
    var inputs := new real[2](i => 2.0);
    ghost var x := inputs[..];
    assert x == [2.0, 2.0];
    ScenarioWeightedInputs(layer, x);
    layer.ForwardAt(exp, x, 0);
    layer.ForwardAt(exp, x, 1);

    var first := layer.WeightedSum(inputs, 0);
    var second := layer.WeightedSum(inputs, 1);
    sums := [first, second];
    outputs := layer.CalculateOutputs(inputs, exp);
  }
}
