/**
 * The feed-forward neural network: neurons with a bias and one weight per input, layers of
 * neurons, and a network that folds its input through the layers in order, each neuron
 * applying a rectifier (ReLU) to its bias plus the dot product of its weights and inputs.
 * Weights, biases and signals are reals; f32 rounding is not modelled.
 */
module NeuralNetwork {
  import opened Random

  /** One entry of the topology list: a layer's neuron count, an i32 as in the source. */
  datatype LayerTopology = LayerTopology(neurons: int)

  datatype Neuron = Neuron(bias: real, weights: seq<real>)

  datatype Layer = Layer(neurons: seq<Neuron>)

  datatype Network = Network(layers: seq<Layer>)

  /** The length of the range `0..n` over an i32 `n`: empty when `n` is not positive. */
  function Count(n: int): nat
  {
    if n < 0 then 0 else n
  }

  // ---------------------------------------------------------------------------------------
  // Propagation
  // ---------------------------------------------------------------------------------------

  /** `weights.iter().zip(inputs).map(|(w, x)| w * x).sum()`. */
  function Dot(weights: seq<real>, inputs: seq<real>): real
    requires |weights| == |inputs|
  {
    if |weights| == 0 then 0.0 else weights[0] * inputs[0] + Dot(weights[1..], inputs[1..])
  }

  /**
   * `Neuron::propagate`: the rectified activation. The source asserts that there is one input
   * per weight. The result is the larger of 0 and `bias + Dot(weights, inputs)`.
   */
  function PropagateNeuron(neuron: Neuron, inputs: seq<real>): (r: real)
    requires |inputs| == |neuron.weights|
    ensures r >= 0.0 && r >= neuron.bias + Dot(neuron.weights, inputs)
    ensures r == 0.0 || r == neuron.bias + Dot(neuron.weights, inputs)
  {
    var output := Dot(neuron.weights, inputs);
    if output + neuron.bias > 0.0 then output + neuron.bias else 0.0
  }

  /** The output is positive exactly when the pre-activation is, and then equals it. */
  lemma PropagateNeuronPositive(neuron: Neuron, inputs: seq<real>)
    requires |inputs| == |neuron.weights|
    ensures PropagateNeuron(neuron, inputs) > 0.0 <==> neuron.bias + Dot(neuron.weights, inputs) > 0.0
    ensures PropagateNeuron(neuron, inputs) > 0.0 ==> PropagateNeuron(neuron, inputs) == neuron.bias + Dot(neuron.weights, inputs)
  {
  }

  /** The neuron test of the repository: bias 0.5 and weights [-0.3, 0.8, 0.9]. */
  lemma NeuronTest()
    ensures PropagateNeuron(Neuron(0.5, [-0.3, 0.8, 0.9]), [-10.0, -10.0, -10.0]) == 0.0
    ensures PropagateNeuron(Neuron(0.5, [-0.3, 0.8, 0.9]), [0.5, 1.0, 2.0])
         == (-0.3 * 0.5) + (0.8 * 1.0) + (0.9 * 2.0) + 0.5
    ensures PropagateNeuron(Neuron(0.5, [-0.3, 0.8, 0.9]), [0.5, 1.0, 2.0]) == 2.95
  {
    var w := [-0.3, 0.8, 0.9];
    assert Dot(w, [-10.0, -10.0, -10.0]) == -14.0 by {
      assert w[1..] == [0.8, 0.9] && w[1..][1..] == [0.9];
    }
    assert Dot(w, [0.5, 1.0, 2.0]) == 2.45 by {
      assert w[1..] == [0.8, 0.9] && w[1..][1..] == [0.9];
    }
  }

  /** Every neuron of the layer takes `width` inputs. */
  predicate Fits(layer: Layer, width: nat)
  {
    forall i :: 0 <= i < |layer.neurons| ==> |layer.neurons[i].weights| == width
  }

  /** `Layer::propagate`: every neuron applied to the same input, in order. */
  function PropagateLayer(layer: Layer, inputs: seq<real>): (r: seq<real>)
    requires Fits(layer, |inputs|)
    ensures |r| == |layer.neurons|
    ensures forall i :: 0 <= i < |r| ==> r[i] == PropagateNeuron(layer.neurons[i], inputs) && r[i] >= 0.0
  {
    seq(|layer.neurons|, i requires 0 <= i < |layer.neurons| => PropagateNeuron(layer.neurons[i], inputs))
  }

  /** The layers chain: the first takes `width` inputs and each next one takes the previous one's outputs. */
  predicate Accepts(layers: seq<Layer>, width: nat)
    decreases |layers|
  {
    |layers| == 0 || (Fits(layers[0], width) && Accepts(layers[1..], |layers[0].neurons|))
  }

  /** The fold of `Network::propagate`: each layer's output is the next layer's input. */
  function Fold(layers: seq<Layer>, inputs: seq<real>): (r: seq<real>)
    requires Accepts(layers, |inputs|)
    ensures |layers| == 0 ==> r == inputs
    ensures |layers| > 0 ==> |r| == |layers[|layers| - 1].neurons| && forall i :: 0 <= i < |r| ==> r[i] >= 0.0
    decreases |layers|
  {
    if |layers| == 0 then inputs else Fold(layers[1..], PropagateLayer(layers[0], inputs))
  }

  /** `Network::propagate`. */
  function PropagateNetwork(network: Network, inputs: seq<real>): seq<real>
    requires Accepts(network.layers, |inputs|)
  {
    Fold(network.layers, inputs)
  }

  /** Folding through `front + back` is folding through `front`, then through `back`. */
  lemma {:induction false} FoldAppend(front: seq<Layer>, back: seq<Layer>, inputs: seq<real>)
    requires Accepts(front + back, |inputs|)
    ensures Accepts(front, |inputs|)
    ensures Accepts(back, |Fold(front, inputs)|)
    ensures Fold(front + back, inputs) == Fold(back, Fold(front, inputs))
    decreases |front|
  {
    if |front| == 0 {
      assert front + back == back;
    } else {
      assert (front + back)[1..] == front[1..] + back;
      FoldAppend(front[1..], back, PropagateLayer(front[0], inputs));
    }
  }

  /** A network with no layers returns its input; otherwise its output is as wide as its last layer and never negative. */
  lemma PropagateNetworkShape(network: Network, inputs: seq<real>)
    requires Accepts(network.layers, |inputs|)
    ensures |network.layers| == 0 ==> PropagateNetwork(network, inputs) == inputs
    ensures |network.layers| > 0 ==>
      var out := PropagateNetwork(network, inputs);
      |out| == |network.layers[|network.layers| - 1].neurons| && forall i :: 0 <= i < |out| ==> out[i] >= 0.0
  {
  }

  // ---------------------------------------------------------------------------------------
  // Random construction
  // ---------------------------------------------------------------------------------------

  /** A parameter as `gen_range(-1.0..=1.0)` draws it. */
  function RandomParameter(u: Unit): (r: real)
    ensures -1.0 <= r <= 1.0
  {
    UniformIn(u, -1.0, 1.0)
  }

  predicate NeuronBounded(neuron: Neuron)
  {
    -1.0 <= neuron.bias <= 1.0 && forall j :: 0 <= j < |neuron.weights| ==> -1.0 <= neuron.weights[j] <= 1.0
  }

  predicate LayerBounded(layer: Layer)
  {
    forall i :: 0 <= i < |layer.neurons| ==> NeuronBounded(layer.neurons[i])
  }

  /**
   * `Neuron::random`, its draws starting at `p`: the bias first, then one weight per input.
   * Returns the neuron and the cursor after its draws.
   */
  function RandomNeuron(s: Stream, p: nat, inputSize: int): (r: (Neuron, nat))
    ensures |r.0.weights| == Count(inputSize) && r.1 == p + 1 + Count(inputSize)
    ensures NeuronBounded(r.0)
    ensures r.0.bias == RandomParameter(s(p))
    ensures forall j :: 0 <= j < Count(inputSize) ==> r.0.weights[j] == RandomParameter(s(p + 1 + j))
  {
    var bias := RandomParameter(s(p));
    var weights := seq(Count(inputSize), j requires 0 <= j < Count(inputSize) => RandomParameter(s(p + 1 + j)));
    assert forall j :: 0 <= j < |weights| ==> -1.0 <= weights[j] <= 1.0 by {
      forall j | 0 <= j < |weights| ensures -1.0 <= weights[j] <= 1.0 {
        assert weights[j] == RandomParameter(s(p + 1 + j));
      }
    }
    (Neuron(bias, weights), p + 1 + Count(inputSize))
  }

  /** The first `k` neurons of `Layer::random`, each built after the previous one, and the cursor after them. */
  function RandomNeurons(s: Stream, p: nat, inputSize: int, k: nat): (r: (seq<Neuron>, nat))
    ensures |r.0| == k && r.1 == p + k * (1 + Count(inputSize))
    ensures forall i :: 0 <= i < k ==> |r.0[i].weights| == Count(inputSize) && NeuronBounded(r.0[i])
  {
    if k == 0 then ([], p)
    else
      var before := RandomNeurons(s, p, inputSize, k - 1);
      var next := RandomNeuron(s, before.1, inputSize);
      (before.0 + [next.0], next.1)
  }

  /** `Layer::random`: `output_size` neurons of `input_size` weights each. */
  function RandomLayer(s: Stream, p: nat, inputSize: int, outputSize: int): (r: (Layer, nat))
    ensures |r.0.neurons| == Count(outputSize) && Fits(r.0, Count(inputSize)) && LayerBounded(r.0)
    ensures r.1 == p + Count(outputSize) * (1 + Count(inputSize))
  {
    var neurons := RandomNeurons(s, p, inputSize, Count(outputSize));
    (Layer(neurons.0), neurons.1)
  }

  /** One layer per window of two adjacent topology entries, built in order. */
  function RandomLayers(s: Stream, p: nat, topology: seq<LayerTopology>): (r: (seq<Layer>, nat))
    ensures |r.0| == if |topology| < 2 then 0 else |topology| - 1
    ensures forall k :: 0 <= k < |r.0| ==>
      |r.0[k].neurons| == Count(topology[k + 1].neurons) && Fits(r.0[k], Count(topology[k].neurons))
      && LayerBounded(r.0[k])
    decreases |topology|
  {
    if |topology| < 2 then ([], p)
    else
      var first := RandomLayer(s, p, topology[0].neurons, topology[1].neurons);
      var rest := RandomLayers(s, first.1, topology[1..]);
      ([first.0] + rest.0, rest.1)
  }

  /** `Network::random`: the network and the cursor after its draws. */
  function RandomNetwork(s: Stream, p: nat, topology: seq<LayerTopology>): (r: (Network, nat))
  {
    var layers := RandomLayers(s, p, topology);
    (Network(layers.0), layers.1)
  }

  /** Layers whose shapes follow the topology chain from the width of its first entry. */
  lemma {:induction false} ShapedAccepts(layers: seq<Layer>, topology: seq<LayerTopology>)
    requires |topology| >= 1 && |layers| == |topology| - 1
    requires forall k :: 0 <= k < |layers| ==>
      |layers[k].neurons| == Count(topology[k + 1].neurons) && Fits(layers[k], Count(topology[k].neurons))
    ensures Accepts(layers, Count(topology[0].neurons))
    decreases |layers|
  {
    if |layers| > 0 {
      ShapedAccepts(layers[1..], topology[1..]);
    }
  }

  /**
   * The random network has one layer fewer than the topology has entries (none for fewer than
   * two), every parameter in [-1, 1], and it accepts an input as wide as the first entry:
   * propagating such an input never trips the neuron's assertion, and gives an output as wide as
   * the last entry, with no negative value.
   */
  lemma RandomNetworkShape(s: Stream, p: nat, topology: seq<LayerTopology>, inputs: seq<real>)
    requires |topology| >= 1 && |inputs| == Count(topology[0].neurons)
    ensures var network := RandomNetwork(s, p, topology).0;
      |network.layers| == |topology| - 1
      && (forall k :: 0 <= k < |network.layers| ==> LayerBounded(network.layers[k]))
      && Accepts(network.layers, |inputs|)
    ensures var network := RandomNetwork(s, p, topology).0;
      |topology| >= 2 ==> (
        var out := PropagateNetwork(network, inputs);
        |out| == Count(topology[|topology| - 1].neurons) && forall i :: 0 <= i < |out| ==> out[i] >= 0.0)
  {
    var layers := RandomLayers(s, p, topology).0;
    ShapedAccepts(layers, topology);
  }
}
