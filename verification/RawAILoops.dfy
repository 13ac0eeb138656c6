/**
 The network's operations written loop by loop as RawAI.go performs them: buffers
 overwritten slot by slot, sums accumulated in a running variable, weights bumped
 entry by entry. Each procedure is proved to produce exactly the value of the
 corresponding reference function in module RawAI, and states the per-entry
 formula it computes.
 */
module RawAILoops {
  import opened Activation
  import opened Matrix
  import opened RawAI

  /** Builds the initial weight matrix row by row, writing 1 into every entry. */
  method RandomMatrixLoops(rows: nat, cols: nat) returns (m: seq<seq<real>>)
    ensures m == RandomMatrix(rows, cols)
    ensures IsMatrix(m, rows, cols)
  {
    m := [];
    var i := 0;
    while i < rows
      invariant 0 <= i <= rows
      invariant IsMatrix(m, i, cols)
      invariant forall x, y :: 0 <= x < i && 0 <= y < cols ==> m[x][y] == 1.0
    {
      var row := Zeros(cols);
      var j := 0;
      while j < cols
        invariant 0 <= j <= cols
        invariant |row| == cols
        invariant forall y :: 0 <= y < j ==> row[y] == 1.0
      {
        row := row[j := 1.0];
        j := j + 1;
      }
      m := m + [row];
      i := i + 1;
    }
    var spec := RandomMatrix(rows, cols);
    forall x | 0 <= x < rows
      ensures m[x] == spec[x]
    {
      assert forall y :: 0 <= y < cols ==> m[x][y] == spec[x][y];
    }
  }

  /** Copies `inputs` into the input buffer one slot at a time, leaving the slots
      past |inputs| as they were. */
  method CopyInputs(layer: seq<real>, inputs: seq<real>) returns (r: seq<real>)
    requires |inputs| <= |layer|
    ensures r == LoadInputs(layer, inputs)
  {
    r := layer;
    var i := 0;
    while i < |inputs|
      invariant 0 <= i <= |inputs|
      invariant |r| == |layer|
      invariant forall t :: 0 <= t < i ==> r[t] == inputs[t]
      invariant forall t :: i <= t < |layer| ==> r[t] == layer[t]
    {
      r := r[i := inputs[i]];
      i := i + 1;
    }
    var spec := LoadInputs(layer, inputs);
    assert forall t :: 0 <= t < |r| ==> r[t] == spec[t];
  }

  /** Overwrites each of the `width` slots of `buffer` with a running sum over `layer`
      weighted by the matching column of `w`. */
  method WeightedSums(buffer: seq<real>, layer: seq<real>, w: seq<seq<real>>) returns (r: seq<real>)
    requires IsMatrix(w, |layer|, |buffer|)
    ensures |r| == |buffer|
    ensures forall i :: 0 <= i < |buffer| ==> r[i] == Dot(layer, Column(w, i))
  {
    r := buffer;
    var i := 0;
    while i < |buffer|
      invariant 0 <= i <= |buffer|
      invariant |r| == |buffer|
      invariant forall t :: 0 <= t < i ==> r[t] == Dot(layer, Column(w, t))
    {
      var col := Column(w, i);
      var sum := 0.0;
      var j := 0;
      while j < |layer|
        invariant 0 <= j <= |layer|
        invariant sum == Dot(layer[..j], col[..j])
      {
        DotStep(layer, col, j);
        sum := sum + layer[j] * w[j][i];
        j := j + 1;
      }
      assert layer[..|layer|] == layer && col[..|layer|] == col;
      r := r[i := sum];
      i := i + 1;
    }
  }

  /** The forward pass: load the inputs, then fill the hidden layer and the output
      layer with their weighted sums. No activation is applied to either layer. */
  method FeedForwardLoops(nn: Network, inputs: seq<real>) returns (r: Network, out: seq<real>)
    requires nn.WellShaped()
    requires |inputs| <= |nn.inputLayer|
    ensures (r, out) == FeedForward(nn, inputs)
    ensures forall i :: 0 <= i < |inputs| ==> r.inputLayer[i] == inputs[i]
    ensures forall i :: |inputs| <= i < |nn.inputLayer| ==> r.inputLayer[i] == nn.inputLayer[i]
    ensures forall j :: 0 <= j < |nn.hiddenLayer| ==> r.hiddenLayer[j] == Dot(r.inputLayer, Column(nn.weightsIH, j))
    ensures forall k :: 0 <= k < |nn.outputLayer| ==> r.outputLayer[k] == Dot(r.hiddenLayer, Column(nn.weightsHO, k))
    ensures out == r.outputLayer
  {
    var input := CopyInputs(nn.inputLayer, inputs);
    var hidden := WeightedSums(nn.hiddenLayer, input, nn.weightsIH);
    assert hidden == Propagate(input, nn.weightsIH, |nn.hiddenLayer|);
    var output := WeightedSums(nn.outputLayer, hidden, nn.weightsHO);
    assert output == Propagate(hidden, nn.weightsHO, |nn.outputLayer|);
    r := nn.(inputLayer := input, hiddenLayer := hidden, outputLayer := output);
    out := output;
  }

  /** Adds lr * cols[b] * rows[a] to every entry [a][b] of `w`, row by row. */
  method AddOuterProductLoops(w: seq<seq<real>>, lr: real, rows: seq<real>, cols: seq<real>)
    returns (r: seq<seq<real>>)
    requires IsMatrix(w, |rows|, |cols|)
    ensures r == AddOuterProduct(w, lr, rows, cols)
  {
    ghost var spec := AddOuterProduct(w, lr, rows, cols);
    r := w;
    var a := 0;
    while a < |rows|
      invariant 0 <= a <= |rows|
      invariant |r| == |rows|
      invariant forall x :: 0 <= x < a ==> r[x] == spec[x]
      invariant forall x :: a <= x < |rows| ==> r[x] == w[x]
    {
      var row := r[a];
      var b := 0;
      while b < |cols|
        invariant 0 <= b <= |cols|
        invariant |row| == |cols|
        invariant forall y :: 0 <= y < b ==> row[y] == w[a][y] + lr * cols[y] * rows[a]
        invariant forall y :: b <= y < |cols| ==> row[y] == w[a][y]
      {
        row := row[b := row[b] + lr * cols[b] * rows[a]];
        b := b + 1;
      }
      assert forall y :: 0 <= y < |cols| ==> row[y] == spec[a][y];
      r := r[a := row];
      a := a + 1;
    }
  }

  /** The output errors, prediction minus target, filled in slot by slot. */
  method OutputErrorsLoops(output: seq<real>, targets: seq<real>) returns (e: seq<real>)
    requires |targets| <= |output|
    ensures e == OutputErrors(output, targets)
  {
    e := Zeros(|targets|);
    var k := 0;
    while k < |targets|
      invariant 0 <= k <= |targets|
      invariant |e| == |targets|
      invariant forall t :: 0 <= t < k ==> e[t] == output[t] - targets[t]
    {
      e := e[k := output[k] - targets[k]];
      k := k + 1;
    }
    var spec := OutputErrors(output, targets);
    assert forall t :: 0 <= t < |e| ==> e[t] == spec[t];
  }

  /** The hidden errors: for each hidden unit a running sum of output errors weighted
      by that unit's outgoing weights, times SigmoidDerivative of the unit's value. */
  method HiddenErrorsLoops(hidden: seq<real>, outErr: seq<real>, who: seq<seq<real>>) returns (e: seq<real>)
    requires IsMatrix(who, |hidden|, |outErr|)
    ensures e == HiddenErrors(hidden, outErr, who)
  {
    e := Zeros(|hidden|);
    var j := 0;
    while j < |hidden|
      invariant 0 <= j <= |hidden|
      invariant |e| == |hidden|
      invariant forall t :: 0 <= t < j ==> e[t] == Dot(outErr, who[t]) * SigmoidDerivative(hidden[t])
    {
      var row := who[j];
      var errorSum := 0.0;
      var k := 0;
      while k < |outErr|
        invariant 0 <= k <= |outErr|
        invariant errorSum == Dot(outErr[..k], row[..k])
      {
        DotStep(outErr, row, k);
        errorSum := errorSum + outErr[k] * row[k];
        k := k + 1;
      }
      assert outErr[..|outErr|] == outErr && row[..|row|] == row;
      e := e[j := errorSum * SigmoidDerivative(hidden[j])];
      j := j + 1;
    }
    var spec := HiddenErrors(hidden, outErr, who);
    assert forall t :: 0 <= t < |e| ==> e[t] == spec[t];
  }

  /** The backward half as the loops perform it, on the layers of the forward pass
      just run: output errors, hidden errors (against the hidden-to-output weights
      before their update), then the two weight updates, each delta added to its
      weight. Every hidden-to-output weight gains lr * (output[k] - targets[k]) * hidden[j];
      every input-to-hidden weight gains lr * hiddenError[j] * input[i]. */
  method BackpropLoops(f: Network, targets: seq<real>) returns (r: Network)
    requires f.WellShaped()
    requires TargetsFit(f, targets)
    ensures r == Backprop(f, targets)
    ensures forall j, k :: 0 <= j < |f.hiddenLayer| && 0 <= k < |f.outputLayer| ==>
      r.weightsHO[j][k] == f.weightsHO[j][k] + f.learningRate * (f.outputLayer[k] - targets[k]) * f.hiddenLayer[j]
    ensures forall i, j :: 0 <= i < |f.inputLayer| && 0 <= j < |f.hiddenLayer| ==>
      r.weightsIH[i][j] == f.weightsIH[i][j]
        + f.learningRate * (Dot(OutputErrors(f.outputLayer, targets), f.weightsHO[j]) * SigmoidDerivative(f.hiddenLayer[j]))
          * f.inputLayer[i]
  {
    var outErr := OutputErrorsLoops(f.outputLayer, targets);
    var hidErr := HiddenErrorsLoops(f.hiddenLayer, outErr, f.weightsHO);
    var who := AddOuterProductLoops(f.weightsHO, f.learningRate, f.hiddenLayer, outErr);
    var wih := AddOuterProductLoops(f.weightsIH, f.learningRate, f.inputLayer, hidErr);
    r := f.(weightsHO := who, weightsIH := wih);
    BackpropEntries(f, targets);
  }

  /** One training step: the forward pass on `inputs`, then the backward half
      against `targets`. */
  method TrainLoops(nn: Network, inputs: seq<real>, targets: seq<real>) returns (r: Network)
    requires nn.WellShaped()
    requires |inputs| <= |nn.inputLayer|
    requires TargetsFit(nn, targets)
    ensures r == Train(nn, inputs, targets)
  {
    var f, _ := FeedForwardLoops(nn, inputs);
    r := BackpropLoops(f, targets);
  }
}
