/**
 The one-hidden-layer network of RawAI.go as an immutable record, with pure
 functions for construction, the forward pass and one training step. These
 functions are the reference definitions: they say what each layer and weight
 becomes in terms of weighted sums (`Dot`), and the loop-by-loop procedures in
 module RawAILoops are proved to produce exactly these values.
 */
module RawAI {
  import opened Activation
  import opened Matrix

  /** The network's state: three activation buffers and two weight matrices.
      `weightsIH[i][j]` connects input i to hidden unit j, `weightsHO[j][k]` hidden
      unit j to output k. */
  datatype Network = Network(
    inputLayer: seq<real>,
    hiddenLayer: seq<real>,
    outputLayer: seq<real>,
    weightsIH: seq<seq<real>>,
    weightsHO: seq<seq<real>>,
    learningRate: real)
  {
    /** The dimension invariant of an N-H-M network. */
    predicate Valid(n: nat, h: nat, m: nat)
    {
      && |inputLayer| == n
      && |hiddenLayer| == h
      && |outputLayer| == m
      && IsMatrix(weightsIH, n, h)
      && IsMatrix(weightsHO, h, m)
    }

    /** The weight matrices agree with the layer lengths. */
    predicate WellShaped()
    {
      Valid(|inputLayer|, |hiddenLayer|, |outputLayer|)
    }
  }

  /** The targets a training step can read without running off either slice: one per
      output; fewer only when there are no hidden units, since only the hidden-unit
      loops read an error for every output. Equivalently: the output-error loop reads
      output k for every k below |targets|, and, when there is a hidden unit, the
      hidden-error loop reads error k for every k below the number of outputs. */
  predicate TargetsFit(nn: Network, targets: seq<real>)
    ensures TargetsFit(nn, targets) <==>
      && |targets| <= |nn.outputLayer|
      && (|nn.hiddenLayer| > 0 ==> |nn.outputLayer| <= |targets|)
  {
    || |targets| == |nn.outputLayer|
    || (|nn.hiddenLayer| == 0 && |targets| < |nn.outputLayer|)
  }

  /** The initial weight matrix: despite its name, every entry is the constant 1. */
  function RandomMatrix(rows: nat, cols: nat): (m: seq<seq<real>>)
    ensures IsMatrix(m, rows, cols)
    ensures forall i, j :: 0 <= i < rows && 0 <= j < cols ==> m[i][j] == 1.0
  {
    seq(rows, _ => seq(cols, _ => 1.0))
  }

  /** A fresh network: zeroed layers, all-ones weights, the given learning rate. */
  function NewRawAI(inputSize: nat, hiddenSize: nat, outputSize: nat, learningRate: real): (nn: Network)
    ensures nn.Valid(inputSize, hiddenSize, outputSize)
    ensures forall i :: 0 <= i < inputSize ==> nn.inputLayer[i] == 0.0
    ensures forall j :: 0 <= j < hiddenSize ==> nn.hiddenLayer[j] == 0.0
    ensures forall k :: 0 <= k < outputSize ==> nn.outputLayer[k] == 0.0
    ensures forall i, j :: 0 <= i < inputSize && 0 <= j < hiddenSize ==> nn.weightsIH[i][j] == 1.0
    ensures forall j, k :: 0 <= j < hiddenSize && 0 <= k < outputSize ==> nn.weightsHO[j][k] == 1.0
    ensures nn.learningRate == learningRate
  {
    Network(
      Zeros(inputSize),
      Zeros(hiddenSize),
      Zeros(outputSize),
      RandomMatrix(inputSize, hiddenSize),
      RandomMatrix(hiddenSize, outputSize),
      learningRate)
  }

  /** The input buffer after `inputs` is copied over its prefix: the first |inputs|
      slots take the new values, the remaining slots keep whatever they held. */
  function LoadInputs(layer: seq<real>, inputs: seq<real>): (r: seq<real>)
    requires |inputs| <= |layer|
    ensures |r| == |layer|
    ensures forall i :: 0 <= i < |inputs| ==> r[i] == inputs[i]
    ensures forall i :: |inputs| <= i < |layer| ==> r[i] == layer[i]
  {
    inputs + layer[|inputs|..]
  }

  /** The next layer: unit i is the weighted sum of `layer` with column i of `w`.
      No bias and no activation function. */
  function Propagate(layer: seq<real>, w: seq<seq<real>>, width: nat): (r: seq<real>)
    requires IsMatrix(w, |layer|, width)
    ensures |r| == width
  {
    seq(width, i requires 0 <= i < width => Dot(layer, Column(w, i)))
  }

  /** The forward pass. Returns the updated network together with the output layer,
      which is also what the call returns. */
  function FeedForward(nn: Network, inputs: seq<real>): (r: (Network, seq<real>))
    requires nn.WellShaped()
    requires |inputs| <= |nn.inputLayer|
    ensures r.0.Valid(|nn.inputLayer|, |nn.hiddenLayer|, |nn.outputLayer|)
    ensures r.0.weightsIH == nn.weightsIH && r.0.weightsHO == nn.weightsHO
    ensures r.0.learningRate == nn.learningRate
    ensures r.1 == r.0.outputLayer
  {
    var input := LoadInputs(nn.inputLayer, inputs);
    var hidden := Propagate(input, nn.weightsIH, |nn.hiddenLayer|);
    var output := Propagate(hidden, nn.weightsHO, |nn.outputLayer|);
    (nn.(inputLayer := input, hiddenLayer := hidden, outputLayer := output), output)
  }

  /** The output errors, prediction minus target, one per target. */
  function OutputErrors(output: seq<real>, targets: seq<real>): (e: seq<real>)
    requires |targets| <= |output|
    ensures |e| == |targets|
  {
    seq(|targets|, k requires 0 <= k < |targets| => output[k] - targets[k])
  }

  /** The hidden errors: the output errors pulled back through row j of the
      hidden-to-output weights, times SigmoidDerivative of hidden unit j. */
  function HiddenErrors(hidden: seq<real>, outErr: seq<real>, who: seq<seq<real>>): (e: seq<real>)
    requires |who| == |hidden|
    requires forall j :: 0 <= j < |hidden| ==> |who[j]| == |outErr|
    ensures |e| == |hidden|
  {
    seq(|hidden|, j requires 0 <= j < |hidden| => Dot(outErr, who[j]) * SigmoidDerivative(hidden[j]))
  }

  /** The weight update of both layers: entry [a][b] gains lr * cols[b] * rows[a]. */
  function AddOuterProduct(w: seq<seq<real>>, lr: real, rows: seq<real>, cols: seq<real>): (r: seq<seq<real>>)
    requires IsMatrix(w, |rows|, |cols|)
    ensures IsMatrix(r, |rows|, |cols|)
  {
    seq(|rows|, a requires 0 <= a < |rows| =>
      seq(|cols|, b requires 0 <= b < |cols| => w[a][b] + lr * cols[b] * rows[a]))
  }

  /** The backward half of a training step, on a network whose layers hold the values
      of the forward pass just run: the output and hidden errors, then the update of
      the hidden-to-output weights and of the input-to-hidden weights. The hidden
      errors use the hidden-to-output weights from before their update. */
  function Backprop(f: Network, targets: seq<real>): (r: Network)
    requires f.WellShaped()
    requires TargetsFit(f, targets)
    ensures r.Valid(|f.inputLayer|, |f.hiddenLayer|, |f.outputLayer|)
    ensures r.inputLayer == f.inputLayer && r.hiddenLayer == f.hiddenLayer && r.outputLayer == f.outputLayer
    ensures r.learningRate == f.learningRate
  {
    var outErr := OutputErrors(f.outputLayer, targets);
    var hidErr := HiddenErrors(f.hiddenLayer, outErr, f.weightsHO);
    f.(weightsHO := AddOuterProduct(f.weightsHO, f.learningRate, f.hiddenLayer, outErr),
       weightsIH := AddOuterProduct(f.weightsIH, f.learningRate, f.inputLayer, hidErr))
  }

  /** One training step: a forward pass on `inputs`, then the backward half against
      `targets`. Only the weights change beyond what the forward pass writes. */
  function Train(nn: Network, inputs: seq<real>, targets: seq<real>): (r: Network)
    requires nn.WellShaped()
    requires |inputs| <= |nn.inputLayer|
    requires TargetsFit(nn, targets)
    ensures r.Valid(|nn.inputLayer|, |nn.hiddenLayer|, |nn.outputLayer|)
    ensures r.learningRate == nn.learningRate
    ensures var f := FeedForward(nn, inputs).0;
      r.inputLayer == f.inputLayer && r.hiddenLayer == f.hiddenLayer && r.outputLayer == f.outputLayer
  {
    Backprop(FeedForward(nn, inputs).0, targets)
  }

  // ---------------------------------------------------------------------------
  // Properties of the forward pass

  /** Running the forward pass again on the same inputs changes nothing: the hidden
      and output buffers are fully recomputed, and the stale input slots are left as
      they were by the first pass. */
  lemma FeedForwardIdempotent(nn: Network, inputs: seq<real>)
    requires nn.WellShaped()
    requires |inputs| <= |nn.inputLayer|
    ensures FeedForward(FeedForward(nn, inputs).0, inputs) == FeedForward(nn, inputs)
  {
    var input := LoadInputs(nn.inputLayer, inputs);
    assert LoadInputs(input, inputs) == input;
  }

  /** The forward pass depends only on the inputs, the stale input slots past them,
      and the weights: not on the previous hidden or output values. With a full
      input vector the stale part is empty, so equal weights give equal outputs. */
  lemma FeedForwardDeterministic(a: Network, b: Network, inputs: seq<real>)
    requires a.WellShaped() && b.WellShaped()
    requires |inputs| <= |a.inputLayer| == |b.inputLayer|
    requires |a.hiddenLayer| == |b.hiddenLayer| && |a.outputLayer| == |b.outputLayer|
    requires a.weightsIH == b.weightsIH && a.weightsHO == b.weightsHO
    requires a.inputLayer[|inputs|..] == b.inputLayer[|inputs|..]
    ensures FeedForward(a, inputs).1 == FeedForward(b, inputs).1
    ensures FeedForward(a, inputs).0.hiddenLayer == FeedForward(b, inputs).0.hiddenLayer
  {
    assert LoadInputs(a.inputLayer, inputs) == LoadInputs(b.inputLayer, inputs);
  }

  /** With fewer inputs than input units the stale slots do take part: two networks
      that differ only in a stale input slot give different outputs. */
  lemma StaleInputChangesOutput()
    ensures var a := NewRawAI(2, 1, 1, 0.0);
      var b := a.(inputLayer := [0.0, 5.0]);
      FeedForward(a, [1.0]).1 == [1.0] && FeedForward(b, [1.0]).1 == [6.0]
  {
    var a := NewRawAI(2, 1, 1, 0.0);
    var b := a.(inputLayer := [0.0, 5.0]);
    var inA := LoadInputs(a.inputLayer, [1.0]);
    var inB := LoadInputs(b.inputLayer, [1.0]);
    assert inA == [1.0, 0.0];
    assert inB == [1.0, 5.0];
    var c := Column(a.weightsIH, 0);
    assert c == [1.0, 1.0];
    assert Dot(inA, c) == 1.0 by {
      DotStep(inA, c, 0);
      DotStep(inA, c, 1);
      assert inA[..2] == inA && c[..2] == c;
    }
    assert Dot(inB, c) == 6.0 by {
      DotStep(inB, c, 0);
      DotStep(inB, c, 1);
      assert inB[..2] == inB && c[..2] == c;
    }
    var hA := Propagate(inA, a.weightsIH, 1);
    var hB := Propagate(inB, b.weightsIH, 1);
    assert hA == [1.0];
    assert hB == [6.0];
    var d := Column(a.weightsHO, 0);
    assert d == [1.0];
    assert Dot(hA, d) == 1.0 by { DotStep(hA, d, 0); assert hA[..1] == hA && d[..1] == d; }
    assert Dot(hB, d) == 6.0 by { DotStep(hB, d, 0); assert hB[..1] == hB && d[..1] == d; }
  }

  // ---------------------------------------------------------------------------
  // Properties of the training step

  /** The backward half entry by entry: each hidden-to-output weight gains
      lr * (output[k] - targets[k]) * hidden[j], and each input-to-hidden weight gains
      lr * hiddenError[j] * input[i]. */
  lemma BackpropEntries(f: Network, targets: seq<real>)
    requires f.WellShaped()
    requires TargetsFit(f, targets)
    ensures forall j, k :: 0 <= j < |f.hiddenLayer| && 0 <= k < |f.outputLayer| ==>
      Backprop(f, targets).weightsHO[j][k]
        == f.weightsHO[j][k] + f.learningRate * (f.outputLayer[k] - targets[k]) * f.hiddenLayer[j]
    ensures forall i, j :: 0 <= i < |f.inputLayer| && 0 <= j < |f.hiddenLayer| ==>
      Backprop(f, targets).weightsIH[i][j] == f.weightsIH[i][j]
        + f.learningRate * (Dot(OutputErrors(f.outputLayer, targets), f.weightsHO[j]) * SigmoidDerivative(f.hiddenLayer[j]))
          * f.inputLayer[i]
  {
    var outErr := OutputErrors(f.outputLayer, targets);
    var hidErr := HiddenErrors(f.hiddenLayer, outErr, f.weightsHO);
    var r := Backprop(f, targets);
    assert r.weightsHO == AddOuterProduct(f.weightsHO, f.learningRate, f.hiddenLayer, outErr);
    assert r.weightsIH == AddOuterProduct(f.weightsIH, f.learningRate, f.inputLayer, hidErr);
  }

  /** Adding an outer product leaves the matrix unchanged when the scale is zero or
      every column factor is zero. */
  lemma AddOuterProductZero(w: seq<seq<real>>, lr: real, rows: seq<real>, cols: seq<real>)
    requires IsMatrix(w, |rows|, |cols|)
    requires lr == 0.0 || forall b :: 0 <= b < |cols| ==> cols[b] == 0.0
    ensures AddOuterProduct(w, lr, rows, cols) == w
  {
    var r := AddOuterProduct(w, lr, rows, cols);
    forall a | 0 <= a < |rows|
      ensures r[a] == w[a]
    {
      assert forall b :: 0 <= b < |cols| ==> r[a][b] == w[a][b];
    }
  }

  /** A zero learning rate makes training a pure forward pass: both weight matrices
      come out unchanged. */
  lemma TrainZeroRate(nn: Network, inputs: seq<real>, targets: seq<real>)
    requires nn.WellShaped()
    requires |inputs| <= |nn.inputLayer|
    requires TargetsFit(nn, targets)
    requires nn.learningRate == 0.0
    ensures Train(nn, inputs, targets).weightsIH == nn.weightsIH
    ensures Train(nn, inputs, targets).weightsHO == nn.weightsHO
  {
    var f := FeedForward(nn, inputs).0;
    var outErr := OutputErrors(f.outputLayer, targets);
    var hidErr := HiddenErrors(f.hiddenLayer, outErr, f.weightsHO);
    AddOuterProductZero(f.weightsHO, f.learningRate, f.hiddenLayer, outErr);
    AddOuterProductZero(f.weightsIH, f.learningRate, f.inputLayer, hidErr);
  }

  /** Training on the very output the network already produces changes no weight:
      every output error is zero, hence every hidden error, hence every delta. */
  lemma TrainAtTarget(nn: Network, inputs: seq<real>, targets: seq<real>)
    requires nn.WellShaped()
    requires |inputs| <= |nn.inputLayer|
    requires targets == FeedForward(nn, inputs).1
    ensures Train(nn, inputs, targets).weightsIH == nn.weightsIH
    ensures Train(nn, inputs, targets).weightsHO == nn.weightsHO
  {
    var f := FeedForward(nn, inputs).0;
    var outErr := OutputErrors(f.outputLayer, targets);
    assert forall k :: 0 <= k < |outErr| ==> outErr[k] == 0.0;
    var hidErr := HiddenErrors(f.hiddenLayer, outErr, f.weightsHO);
    forall j | 0 <= j < |hidErr|
      ensures hidErr[j] == 0.0
    {
      DotZeroLeft(outErr, f.weightsHO[j]);
    }
    AddOuterProductZero(f.weightsHO, f.learningRate, f.hiddenLayer, outErr);
    AddOuterProductZero(f.weightsIH, f.learningRate, f.inputLayer, hidErr);
  }
}
