/**
  The fixed-topology feedforward network (UNeuralNetwork).

  A network holds its layer widths, one scratch vector of activations per
  layer and a three-level weight array: weights[l][j][k] connects neuron k of
  layer l to neuron j of layer l + 1. There are no biases. Floats are modelled
  as reals, the global random generator as a nondeterministic choice, and the
  activation function `tanh` as a parameter of which only its range is known.
 */
module NeuralNet {

  type Weights = seq<seq<seq<real>>>

  /** An activation function whose every value lies in [-1, 1]; the forward
      pass is given `tanh` in this form and uses nothing else about it. */
  type Squash = f: real -> real | forall x :: -1.0 <= f(x) <= 1.0
    witness (x: real) => 0.0

  predicate Within(x: real, lo: real, hi: real) {
    lo <= x <= hi
  }

  /** FMath::FRandRange: some value of the closed range [lo, hi]. */
  method FRandRange(lo: real, hi: real) returns (r: real)
    requires lo <= hi
    ensures lo <= r <= hi
  {
    assert Within(lo, lo, hi);
    r :| Within(r, lo, hi);
    assert Within(r, lo, hi);
  }

  /** TArray::SetNum on an array whose new elements are default-constructed
      as `fill`: the first n elements are kept, missing ones are added. */
  function Resized<T>(s: seq<T>, n: nat, fill: T): (r: seq<T>)
    ensures |r| == n
    ensures forall i :: 0 <= i < n ==> r[i] == if i < |s| then s[i] else fill
  {
    if n <= |s| then s[..n] else s + seq(n - |s|, _ => fill)
  }

  // ---------------------------------------------------------------------
  // Shapes

  /** A layer configuration that Initialize accepts: at least one layer (the
      weight array is resized to one entry fewer than the layers) and no
      negative width (TArray::SetNum refuses a negative count). */
  predicate Initializable(layers: seq<int>) {
    |layers| >= 1 && forall i :: 0 <= i < |layers| ==> layers[i] >= 0
  }

  /** One activation vector per layer, each as wide as its layer. */
  predicate NeuronsShaped(layers: seq<int>, neurons: seq<seq<real>>) {
    |neurons| == |layers| &&
    forall i :: 0 <= i < |neurons| ==> |neurons[i]| == layers[i]
  }

  /** One weight matrix per layer transition: layers[i + 1] rows of
      layers[i] weights each. */
  predicate WeightsShaped(layers: seq<int>, w: Weights) {
    |w| == |layers| - 1 &&
    forall i :: 0 <= i < |w| ==>
      |w[i]| == layers[i + 1] &&
      forall j :: 0 <= j < |w[i]| ==> |w[i][j]| == layers[i]
  }

  predicate WeightsBounded(w: Weights) {
    forall i, j, k :: 0 <= i < |w| && 0 <= j < |w[i]| && 0 <= k < |w[i][j]| ==>
      -1.0 <= w[i][j][k] <= 1.0
  }

  // ---------------------------------------------------------------------
  // The forward pass as functions

  /** The weighted sum of x through row w, accumulated from k = 0 upwards. */
  function Dot(w: seq<real>, x: seq<real>): real
    requires |w| == |x|
  {
    if |w| == 0 then 0.0 else Dot(w[..|w| - 1], x[..|x| - 1]) + w[|w| - 1] * x[|x| - 1]
  }

  lemma DotStep(w: seq<real>, x: seq<real>, k: nat)
    requires |w| == |x| && k < |w|
    ensures Dot(w[..k + 1], x[..k + 1]) == Dot(w[..k], x[..k]) + w[k] * x[k]
  {
    assert w[..k + 1][..k] == w[..k] && x[..k + 1][..k] == x[..k];
  }

  /** The next layer's activations: neuron j takes `tanh` of the weighted sum
      of x through row j. */
  function Layer(rows: seq<seq<real>>, x: seq<real>, tanh: Squash): (y: seq<real>)
    requires forall j :: 0 <= j < |rows| ==> |rows[j]| == |x|
    ensures |y| == |rows|
    ensures forall j :: 0 <= j < |y| ==> -1.0 <= y[j] <= 1.0
  {
    seq(|rows|, j requires 0 <= j < |rows| => tanh(Dot(rows[j], x)))
  }

  /** The activations of layer i when the network reads x: x itself for the
      input layer, and each later layer computed from the one before. */
  function Activation(layers: seq<int>, w: Weights, x: seq<real>, tanh: Squash, i: nat): (a: seq<real>)
    requires WeightsShaped(layers, w) && |layers| >= 1 && |x| == layers[0]
    requires i < |layers|
    ensures |a| == layers[i]
    ensures i >= 1 ==> forall k :: 0 <= k < |a| ==> -1.0 <= a[k] <= 1.0
  {
    if i == 0 then x else Layer(w[i - 1], Activation(layers, w, x, tanh, i - 1), tanh)
  }

  // ---------------------------------------------------------------------
  // Mutation as a relation

  /** What one weight becomes when the roll (drawn in [0, 100]) is compared
      with the mutation condition: the fresh pick if roll <= condition. */
  function Redraw(weight: real, condition: real, roll: real, pick: real): real {
    if roll <= condition then pick else weight
  }

  /** `after` is a possible outcome of mutating `before` with `condition`:
      some roll in [0, 100] and some pick in [-1, 1] lead to it. */
  ghost predicate MayBecome(before: real, after: real, condition: real) {
    exists roll, pick :: Within(roll, 0.0, 100.0) && Within(pick, -1.0, 1.0) &&
      after == Redraw(before, condition, roll, pick)
  }

  ghost predicate RowMutation(before: seq<real>, after: seq<real>, condition: real) {
    |after| == |before| &&
    forall k :: 0 <= k < |before| ==> MayBecome(before[k], after[k], condition)
  }

  ghost predicate LayerMutation(before: seq<seq<real>>, after: seq<seq<real>>, condition: real) {
    |after| == |before| &&
    forall j :: 0 <= j < |before| ==> RowMutation(before[j], after[j], condition)
  }

  /** `after` has the shape of `before` and each of its weights is a possible
      outcome of mutating the weight at the same place. */
  ghost predicate IsMutation(before: Weights, after: Weights, condition: real) {
    |after| == |before| &&
    forall i :: 0 <= i < |before| ==> LayerMutation(before[i], after[i], condition)
  }

  /** The three regimes of a mutation condition, both directions: a negative
      condition keeps the weight, a condition of 100 or more always replaces it
      by the pick, and in between the weight is kept or replaced by a value of
      [-1, 1]. */
  lemma MayBecomeExactly(before: real, after: real, condition: real)
    ensures MayBecome(before, after, condition) <==>
      if condition < 0.0 then after == before
      else if condition >= 100.0 then -1.0 <= after <= 1.0
      else after == before || -1.0 <= after <= 1.0
    ensures condition < 0.0 ==>
      forall roll, pick :: Within(roll, 0.0, 100.0) ==> Redraw(before, condition, roll, pick) == before
    ensures condition >= 100.0 ==>
      forall roll, pick :: Within(roll, 0.0, 100.0) ==> Redraw(before, condition, roll, pick) == pick
  {
    if condition < 0.0 {
      if after == before {
        assert Within(100.0, 0.0, 100.0) && Within(0.0, -1.0, 1.0);
        assert after == Redraw(before, condition, 100.0, 0.0);
      }
    } else if -1.0 <= after <= 1.0 {
      assert Within(0.0, 0.0, 100.0) && Within(after, -1.0, 1.0);
      assert after == Redraw(before, condition, 0.0, after);
    } else if condition < 100.0 && after == before {
      assert Within(100.0, 0.0, 100.0) && Within(0.0, -1.0, 1.0);
      assert after == Redraw(before, condition, 100.0, 0.0);
    }
  }

  /** A negative mutation condition leaves every weight as it was. */
  lemma {:induction false} NegativeConditionKeepsWeights(before: Weights, after: Weights, condition: real)
    requires condition < 0.0 && IsMutation(before, after, condition)
    ensures after == before
  {
    forall i | 0 <= i < |before| ensures after[i] == before[i] {
      forall j | 0 <= j < |before[i]| ensures after[i][j] == before[i][j] {
        forall k | 0 <= k < |before[i][j]| ensures after[i][j][k] == before[i][j][k] {
          MayBecomeExactly(before[i][j][k], after[i][j][k], condition);
        }
      }
    }
  }

  /** A mutation keeps the weights inside [-1, 1] when they were, and with a
      condition of 100 or more every weight ends inside [-1, 1] whatever it was. */
  lemma {:induction false} MutationBounds(before: Weights, after: Weights, condition: real)
    requires IsMutation(before, after, condition)
    requires WeightsBounded(before) || condition >= 100.0
    ensures WeightsBounded(after)
  {
    forall i, j, k | 0 <= i < |after| && 0 <= j < |after[i]| && 0 <= k < |after[i][j]|
      ensures -1.0 <= after[i][j][k] <= 1.0
    {
      MayBecomeExactly(before[i][j][k], after[i][j][k], condition);
    }
  }

  /** A mutation keeps the shape of the weight array. */
  lemma MutationKeepsShape(layers: seq<int>, before: Weights, after: Weights, condition: real)
    requires IsMutation(before, after, condition) && WeightsShaped(layers, before)
    ensures WeightsShaped(layers, after)
  {
  }

  // ---------------------------------------------------------------------
  // The network object

  /** The innermost loop: the running `Value` of one neuron, the weighted sum
      of the previous layer over `width` inputs. */
  method WeightedSum(row: seq<real>, previous: seq<real>, width: int) returns (value: real)
    requires |row| == |previous| == width
    ensures value == Dot(row, previous)
  {
    value := 0.0;
    for k := 0 to width
      invariant value == Dot(row[..k], previous[..k])
    {
      DotStep(row, previous, k);
      value := value + row[k] * previous[k];
    }
    assert row[..width] == row && previous[..width] == previous;
  }

  /** The middle loop: overwrite the `width` neurons of a layer with the
      squashed weighted sums of the previous layer's `inputWidth` neurons. */
  method FillLayer(rows: seq<seq<real>>, previous: seq<real>, width: int, inputWidth: int,
                   layer: seq<real>, tanh: Squash) returns (filled: seq<real>)
    requires |rows| == width == |layer| && |previous| == inputWidth
    requires forall j :: 0 <= j < width ==> |rows[j]| == inputWidth
    ensures filled == Layer(rows, previous, tanh)
  {
    filled := layer;
    for j := 0 to width
      invariant |filled| == width
      invariant forall m :: 0 <= m < j ==> filled[m] == tanh(Dot(rows[m], previous))
    {
      var value := WeightedSum(rows[j], previous, inputWidth);
      filled := filled[j := tanh(value)];
    }
  }

  /** The first loop of the forward pass: the input layer takes the inputs
      one by one. */
  method LoadInputs(layer: seq<real>, inputs: seq<real>) returns (loaded: seq<real>)
    requires |layer| == |inputs|
    ensures loaded == inputs
  {
    loaded := layer;
    for i := 0 to |inputs|
      invariant |loaded| == |inputs|
      invariant forall n :: 0 <= n < i ==> loaded[n] == inputs[n]
    {
      loaded := loaded[i := inputs[i]];
    }
  }

  /** One iteration of the layer loop: layer i is computed from layer i - 1,
      which already holds its activations; the layers below keep their
      activations and the layers above are untouched. */
  method AdvanceLayer(sizes: seq<int>, w: Weights, inputs: seq<real>, cells: seq<seq<real>>,
                      i: int, tanh: Squash) returns (next: seq<seq<real>>)
    requires 1 <= i < |sizes| && NeuronsShaped(sizes, cells) && WeightsShaped(sizes, w)
    requires |inputs| == sizes[0]
    requires forall l :: 0 <= l < i ==> cells[l] == Activation(sizes, w, inputs, tanh, l)
    ensures NeuronsShaped(sizes, next)
    ensures forall l :: 0 <= l <= i ==> next[l] == Activation(sizes, w, inputs, tanh, l)
    ensures forall l :: i < l < |sizes| ==> next[l] == cells[l]
  {
    var layer := FillLayer(w[i - 1], cells[i - 1], sizes[i], sizes[i - 1], cells[i], tanh);
    assert layer == Activation(sizes, w, inputs, tanh, i) by {
      assert cells[i - 1] == Activation(sizes, w, inputs, tanh, i - 1);
    }
    next := cells[i := layer];
  }

  /** The forward pass on a neuron buffer of the right shape: copy the
      inputs into layer 0, then fill every later layer from the one before. */
  method ForwardPass(sizes: seq<int>, w: Weights, inputs: seq<real>, buffer: seq<seq<real>>,
                     tanh: Squash) returns (cells: seq<seq<real>>)
    requires |sizes| >= 1 && NeuronsShaped(sizes, buffer) && WeightsShaped(sizes, w)
    requires |inputs| == sizes[0]
    ensures NeuronsShaped(sizes, cells)
    ensures forall i :: 0 <= i < |sizes| ==> cells[i] == Activation(sizes, w, inputs, tanh, i)
  {
    var first := LoadInputs(buffer[0], inputs);
    cells := buffer[0 := first];
    for i := 1 to |sizes|
      invariant NeuronsShaped(sizes, cells)
      invariant forall l :: 0 <= l < i ==> cells[l] == Activation(sizes, w, inputs, tanh, l)
    {
      cells := AdvanceLayer(sizes, w, inputs, cells, i, tanh);
    }
  }

  class Network {
    var layerSizes: seq<int>
    var neurons: seq<seq<real>>
    var weights: Weights
    var fitness: real

    /** The shape invariant established by Initialize. */
    ghost predicate Valid()
      reads this`layerSizes, this`neurons, this`weights
    {
      |layerSizes| >= 1 && NeuronsShaped(layerSizes, neurons) && WeightsShaped(layerSizes, weights)
    }

    /** NewObject: every array empty and the fitness zero. */
    constructor ()
      ensures layerSizes == [] && neurons == [] && weights == [] && fitness == 0.0
    {
      layerSizes, neurons, weights, fitness := [], [], [], 0.0;
    }

    /** Allocates the arrays for `layers` and draws every weight in [-1, 1].
        Existing neuron values are kept where TArray::SetNum keeps them. */
    method Initialize(layers: seq<int>)
      requires Initializable(layers)
      modifies this`layerSizes, this`neurons, this`weights
      ensures Valid() && layerSizes == layers
      ensures forall i :: 0 <= i < |layers| ==>
        neurons[i] == Resized(if i < |old(neurons)| then old(neurons)[i] else [], layers[i], 0.0)
      ensures WeightsBounded(weights)
    {
      var cells := Resized(neurons, |layers|, []);
      ghost var padded := cells;
      for i := 0 to |layers|
        invariant |cells| == |layers|
        invariant forall l :: 0 <= l < i ==> cells[l] == Resized(padded[l], layers[l], 0.0)
        invariant forall l :: i <= l < |layers| ==> cells[l] == padded[l]
      {
        cells := cells[i := Resized(cells[i], layers[i], 0.0)];
      }
      var w := Resized(weights, |layers| - 1, []);
      for i := 0 to |layers| - 1
        invariant |w| == |layers| - 1
        invariant forall l :: 0 <= l < i ==> |w[l]| == layers[l + 1]
        invariant forall l, j :: 0 <= l < i && 0 <= j < |w[l]| ==> |w[l][j]| == layers[l]
        invariant forall l, j, k :: 0 <= l < i && 0 <= j < |w[l]| && 0 <= k < |w[l][j]| ==>
          -1.0 <= w[l][j][k] <= 1.0
      {
        var layer := Resized(w[i], layers[i + 1], []);
        for j := 0 to layers[i + 1]
          invariant |layer| == layers[i + 1]
          invariant forall m :: 0 <= m < j ==> |layer[m]| == layers[i]
          invariant forall m, k :: 0 <= m < j && 0 <= k < |layer[m]| ==> -1.0 <= layer[m][k] <= 1.0
        {
          var row := Resized(layer[j], layers[i], 0.0);
          for k := 0 to layers[i]
            invariant |row| == layers[i]
            invariant forall n :: 0 <= n < k ==> -1.0 <= row[n] <= 1.0
          {
            var x := FRandRange(-1.0, 1.0);
            row := row[k := x];
          }
          layer := layer[j := row];
        }
        w := w[i := layer];
      }
      layerSizes, neurons, weights := layers, cells, w;
    }

    /** Takes over the three arrays of `source` wholesale, without any shape
        check; the fitness stays this network's own. */
    method CopyWeights(source: Network)
      modifies this`layerSizes, this`neurons, this`weights
      ensures layerSizes == old(source.layerSizes)
      ensures neurons == old(source.neurons)
      ensures weights == old(source.weights)
    {
      layerSizes := source.layerSizes;
      neurons := source.neurons;
      weights := source.weights;
    }

    /** The width of the input layer, 0 for a network without layers. */
    function GetInputSize(): (n: int)
      reads this
      ensures |layerSizes| > 0 ==> n == layerSizes[0]
      ensures |layerSizes| == 0 ==> n == 0
    {
      if |layerSizes| > 0 then layerSizes[0] else 0
    }

    /** The forward pass. An input of the wrong width yields the empty array
        and changes nothing; otherwise the neuron buffer is overwritten with
        the activations of every layer and the last layer is returned. */
    method FeedForward(inputs: seq<real>, tanh: Squash) returns (outputs: seq<real>)
      requires Valid()
      modifies this`neurons
      ensures Valid()
      ensures |inputs| != GetInputSize() ==> outputs == [] && neurons == old(neurons)
      ensures |inputs| == GetInputSize() ==>
        (forall i :: 0 <= i < |layerSizes| ==>
          neurons[i] == Activation(layerSizes, weights, inputs, tanh, i)) &&
        outputs == neurons[|layerSizes| - 1] &&
        |outputs| == layerSizes[|layerSizes| - 1]
      ensures |inputs| == GetInputSize() && |layerSizes| >= 2 ==>
        forall k :: 0 <= k < |outputs| ==> -1.0 <= outputs[k] <= 1.0
    {
      if |inputs| != GetInputSize() {
        return [];
      }
      var cells := ForwardPass(layerSizes, weights, inputs, neurons, tanh);
      neurons := cells;
      outputs := cells[|cells| - 1];
    }

    /** Every weight is re-drawn in [-1, 1] when a roll in [0, 100] is at most
        `condition`; nothing but the weights changes. */
    method Mutate(condition: real)
      modifies this`weights
      ensures IsMutation(old(weights), weights, condition)
    {
      ghost var before := weights;
      var w := weights;
      for i := 0 to |w|
        invariant |w| == |before|
        invariant forall l :: 0 <= l < i ==> LayerMutation(before[l], w[l], condition)
        invariant forall l :: i <= l < |w| ==> w[l] == before[l]
      {
        var layer := w[i];
        for j := 0 to |layer|
          invariant |layer| == |before[i]|
          invariant forall m :: 0 <= m < j ==> RowMutation(before[i][m], layer[m], condition)
          invariant forall m :: j <= m < |layer| ==> layer[m] == before[i][m]
        {
          var row := layer[j];
          for k := 0 to |row|
            invariant |row| == |before[i][j]|
            invariant forall n :: 0 <= n < k ==> MayBecome(before[i][j][n], row[n], condition)
            invariant forall n :: k <= n < |row| ==> row[n] == before[i][j][n]
          {
            var roll := FRandRange(0.0, 100.0);
            assert Within(roll, 0.0, 100.0);
            if roll <= condition {
              var pick := FRandRange(-1.0, 1.0);
              assert Within(pick, -1.0, 1.0) && pick == Redraw(row[k], condition, roll, pick);
              row := row[k := pick];
            } else {
              assert Within(0.0, -1.0, 1.0) && row[k] == Redraw(row[k], condition, roll, 0.0);
            }
          }
          layer := layer[j := row];
        }
        w := w[i := layer];
      }
      weights := w;
    }
  }
}
