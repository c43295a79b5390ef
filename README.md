# Feed-forward neural network: layers, forward pass, classification and cost

This project is a Dafny model of the inference core of a small C# neural-network
library: the dense `Layer` (NeuralNetworks/Layer.cs) and the `Network` that
stacks layers (NeuralNetworks/Network.cs).

- **Layer** (module `Layers`, class `Layer`) holds a `NodesIn x Nodes` weight
  matrix and a `Nodes`-long bias vector. Both are zero after construction.
  `CalculateOutputs` returns a fresh array. Its entry `node` is the sigmoid of
  `Biases[node] + sum_i inputs[i] * Weights[i, node]`, summed left to right.
  The module also holds the step activation, the sigmoid and the squared-error
  `NodeCost`.
- **Network** (module `Networks`, class `Network`) chains
  `|layerSizes| - 1` layers whose widths match. It provides:
  - the forward pass, a left fold of the layers' forward passes;
  - `Classify`, the first index of the largest output;
  - `LayerCost` and `Cost`, the summed node costs of one data point;
  - the batch cost, the plain sum of the per-point costs.
- **LayerTests** (module `LayerTests`) replays the forward-pass scenario of
  NeuralNetworkTesting/LayerTests.cs. The pre-activations are exactly 7 and 8.
- **Wrappers** holds `Option`. `None` stands for the case where the C# code
  throws: `Max()` of an empty list.

`double` is modelled as `real`. `Math.Exp` is the parameter `exp` of type
`ExpFn`. That type promises only `exp(0) = 1` and `exp(y) > 0`, so the sigmoid
`1 / (1 + exp(-x))` is proved to lie strictly between 0 and 1 and to equal 1/2
at 0.

The layers' weights and biases are arrays read in place. The network's layers
are an array of `Layer` objects. The methods that only read the network have
no `modifies` clause, so Dafny checks that they change no existing object: not
the weights, not the biases and not the input array.

Three behaviours of the code are worth stating plainly:

- The batch cost is a plain sum of the per-point costs, not a mean
  (NeuralNetworks/Network.cs:43-44).
- Weights and biases start at zero; there is no random initialisation
  (NeuralNetworks/Layer.cs:10-17).
- A single width gives a network with no layers, whose forward pass returns
  its input array (NeuralNetworks/Network.cs:13-29).

## Model

| member | source | states |
|---|---|---|
| Layers.SigmoidActivationFunction | NeuralNetworks/Layer.cs:37-38 | the logistic sigmoid of any activation lies strictly between 0 and 1 |
| Layers.SigmoidAtZero | NeuralNetworks/Layer.cs:37-38 | the sigmoid of 0 is exactly 1/2 |
| Layers.ActivationFunction | NeuralNetworks/Layer.cs:34-35 | the step activation is always 0 or 1, and it is 1 exactly when the activation is positive |
| Layers.NodeCost | NeuralNetworks/Layer.cs:40-44 | the node cost is the squared distance between output and expected value, never negative, and 0 when they agree |
| Layers.NodeCostPositive | NeuralNetworks/Layer.cs:40-44 | an output that differs from the expected value has a strictly positive cost |
| Layers.NodeCostZeroIff | NeuralNetworks/Layer.cs:40-44 | the node cost is 0 if and only if the output equals the expected value |
| Layers.NodeCostSymmetric | NeuralNetworks/Layer.cs:40-44 | swapping output and expected value does not change the cost |
| Layers.Layer.constructor | NeuralNetworks/Layer.cs:10-17 | the sizes are stored, fresh `nodesIn x nodes` weights and `nodes` biases are allocated, and every weight and bias is 0 |
| Layers.Layer.Dot | NeuralNetworks/Layer.cs:25-28 | the sum of `x[i] * Weights[i, node]` over the first `n` inputs, added left to right; 0 for no inputs or an all-zero input |
| Layers.Layer.WeightedInput | NeuralNetworks/Layer.cs:24-28 | a node's weighted input is its bias plus the weighted sum of all `NodesIn` inputs; an all-zero input leaves just the bias |
| Layers.Layer.Activations | NeuralNetworks/Layer.cs:19-32 | the activations of the first `n` nodes form a list of length `n` |
| Layers.Layer.Forward | NeuralNetworks/Layer.cs:19-32 | a layer's forward pass produces exactly `Nodes` activations |
| Layers.Layer.ActivationsAt | NeuralNetworks/Layer.cs:22-30 | entry `node` of the activations is the sigmoid of that node's bias plus its weighted sum of inputs |
| Layers.Layer.ForwardAt | NeuralNetworks/Layer.cs:22-30 | entry `node` of the forward pass is the sigmoid of that node's bias plus its weighted sum of inputs |
| Layers.Layer.WeightedSum | NeuralNetworks/Layer.cs:24-28 | starting from the bias and adding `inputs[i] * Weights[i, node]` for each input in turn gives the node's weighted input |
| Layers.Layer.CalculateOutputs | NeuralNetworks/Layer.cs:19-32 | the result is a fresh array of length `Nodes` equal to the forward pass of the inputs; nothing existing is modified |
| Layers.Layer.ZeroedDot | NeuralNetworks/Layer.cs:10-17 | with all weights zero, every partial weighted sum is 0 |
| Layers.Layer.ZeroedForward | NeuralNetworks/Layer.cs:10-32 | a freshly constructed (all-zero) layer outputs 1/2 at every node, whatever the input |
| Networks.Max | NeuralNetworks/Network.cs:58 | the maximum of a non-empty list is one of its elements and no element exceeds it |
| Networks.IndexOf | NeuralNetworks/Network.cs:58 | the result is the first position holding the value, or -1 exactly when the value does not occur |
| Networks.IndexOfMaxValue | NeuralNetworks/Network.cs:56-59 | an empty list yields `None` (the C# code throws); otherwise the result is the first position of the maximum |
| Networks.FirstMaxUnique | NeuralNetworks/Network.cs:56-59 | at most one position is the first position of the maximum |
| Networks.IndexOfMaxValueIff | NeuralNetworks/Network.cs:56-59 | `IndexOfMaxValue` returns `i` if and only if `i` is the first position of the maximum |
| Networks.IndexOfMaxValueTie | NeuralNetworks/Network.cs:56-59 | ties are broken towards the smaller index: [0.5, 0.5] gives 0 |
| Networks.SumNodeCosts | NeuralNetworks/Network.cs:46-54 | the summed node costs of a list of outputs against its expected values are never negative |
| Networks.SumNodeCostsZeroIff | NeuralNetworks/Network.cs:46-54 | the summed node costs are 0 if and only if every output equals the expected value at its position |
| Networks.Sum | NeuralNetworks/Network.cs:44 | the costs added left to right; 0 for an empty list and the single cost for a one-element list |
| Networks.SumNonNegative | NeuralNetworks/Network.cs:43-44 | a sum of non-negative costs is non-negative |
| Networks.SumAppend | NeuralNetworks/Network.cs:43-44 | the sum of two lists of costs, one after the other, is the sum of their sums |
| Networks.SumZeroIff | NeuralNetworks/Network.cs:43-44 | a sum of non-negative costs is 0 if and only if every cost is 0 |
| Networks.Network.ForwardThrough | NeuralNetworks/Network.cs:22-29 | folding the first `k` layers over the input gives the input when `k` is 0, and otherwise a list as long as layer `k - 1` is wide |
| Networks.Network.Outputs | NeuralNetworks/Network.cs:22-29 | the network's output is as long as its last layer is wide, or as long as the input when there are no layers |
| Networks.Network.constructor | NeuralNetworks/Network.cs:13-20 | there are `|layerSizes| - 1` fresh layers; layer k maps `layerSizes[k]` inputs to `layerSizes[k + 1]` outputs, so adjacent widths chain; each layer's weights are exactly `layerSizes[k] x layerSizes[k + 1]` and its biases exactly `layerSizes[k + 1]` long; the layers, and their weight and bias arrays, are pairwise distinct objects; every weight and bias is 0 |
| Networks.NewLayers | NeuralNetworks/Network.cs:16-19 | the loop creates one fresh, zero-initialised layer per pair of adjacent widths, in order, with exact array sizes; the layers and their arrays are pairwise distinct, and adjacent widths chain |
| Networks.Network.CalculateOutputs | NeuralNetworks/Network.cs:22-29 | the result is the left fold of the layers' forward passes over the input, in layer order; with no layers it is the input array itself; nothing existing is modified |
| Networks.Network.Classify | NeuralNetworks/Network.cs:31-35 | the result is `None` exactly when the output is empty, and otherwise the first position of the largest output |
| Networks.Network.PointCost | NeuralNetworks/Network.cs:37-41 | the cost of one data point is never negative |
| Networks.Network.PointCostZeroIff | NeuralNetworks/Network.cs:37-41 | a data point costs 0 if and only if the network's output equals the first `OutputLength` entries of its expected outputs (extra expected values are ignored) |
| Networks.Network.PointCosts | NeuralNetworks/Network.cs:43-44 | selecting the costs of a batch gives one cost per point, in order, each the point's cost |
| Networks.Network.BatchCost | NeuralNetworks/Network.cs:43-44 | the batch cost is never negative and is 0 for an empty batch |
| Networks.Network.BatchCostZeroIff | NeuralNetworks/Network.cs:43-44 | a batch costs 0 if and only if each of its points costs 0 |
| Networks.Network.BatchCostAppend | NeuralNetworks/Network.cs:43-44 | the cost of two batches one after the other is the sum of their costs |
| Networks.Network.LayerCost | NeuralNetworks/Network.cs:46-54 | the loop's total is the sum of the node costs of every output against the expected value at the same position |
| Networks.Network.Cost | NeuralNetworks/Network.cs:37-41 | the result is the layer cost of the network's output for the point's inputs against its expected outputs |
| Networks.Network.UntrainedOutputs | NeuralNetworks/Network.cs:13-29 | a network whose weights and biases are all zero, with at least one layer, outputs 1/2 everywhere |
| Networks.Network.UntrainedClassify | NeuralNetworks/Network.cs:31-35 | such a network classifies every input as 0, or gives `None` when its last layer has no nodes |
| LayerTests.ScenarioLayer | NeuralNetworkTesting/LayerTests.cs:9-11 | a fresh 2 x 2 layer carries weights {{1, 2}, {2, 1}} and biases {1, 2} |
| LayerTests.ScenarioWeightedInputs | NeuralNetworks/Layer.cs:24-28 | with those weights and biases, the input {2, 2} gives weighted inputs 7 and 8 |
| LayerTests.TestCalculateOutput | NeuralNetworkTesting/LayerTests.cs:7-14 | the scenario's pre-activation sums are [7, 8], and its outputs are the sigmoids of 7 and 8 |

## Left out

- The `Parallel.For` loops in `Layer.CalculateOutputs` are modelled as sequential loops. Their concurrent `output +=` on a shared local is a data race. The model states the intended sequential sum.
- The inner accumulation loop of `Layer.CalculateOutputs` is the separate method `WeightedSum`.
- IEEE-754 behaviour (rounding, overflow, NaN, infinities) is not modelled: `double` is `real`.
- Layers.SigmoidActivationFunction: the strict bound 0 < sigmoid < 1 is a property of the real-valued model, not of the double-precision code. In `double`, `1 + Math.Exp(-40)` rounds to 1, giving exactly 1.0. `Math.Exp(710)` overflows to infinity, giving exactly 0.0.
- `Math.Exp` is a parameter. The model assumes only that it is positive and equals 1 at 0.
- Backpropagation, gradients, training and random initialisation are not part of this model. The two source files have none of them.
- The `DataPoint` class is not part of this model. It is a datatype with `Inputs` and `ExpectedOutputs` sequences. `Cost` copies them into fresh arrays (`ToArray`) before calling the array-based methods.
- The MSTest attributes are not modelled. The test method makes no assertions; only its scenario is modelled.
- Index-out-of-range exceptions become preconditions. These cover an input shorter than the first layer's `NodesIn`, expected outputs shorter than the outputs, and weight or bias arrays smaller than the layer's sizes. The public setters `Weights` and `Biases` can install such arrays.
- The empty `Max()` exception in `IndexOfMaxValue` is modelled as `None`.
- Negative layer sizes, and the exception for an empty list of sizes (`new Layer[-1]`), are excluded: sizes are `nat` and the list holds at least one width.
- Networks.Network.constructor: its loop (`NewLayers`) creates the layers into a sequence first, and the constructor then allocates the array holding them. Dafny needs initial values for an array of objects; the C# code fills a null-initialised array in the same loop.
- Networks.Network.BatchCost: `Cost(DataPoint[])` is a LINQ `Select`/`Sum` with no loop. It is modelled as a function over `PointCost`, which `Cost(DataPoint)` is proved to compute, rather than as an executable method.
- Networks.Network.Cost, Networks.Network.Classify: "leaves every weight and bias unchanged" is not written as an `ensures`. It follows from the missing `modifies` clause, which Dafny enforces.
