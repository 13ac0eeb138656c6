/**
 Single training steps worked out exactly on small networks: the first call of the
 addition driver, one step on 2 + 3 = 5 from a fresh network, and a step showing
 which way the update moves the prediction.
 */
module Scenarios {
  import opened Activation
  import opened Matrix
  import opened RawAI

  lemma DotOne(u: seq<real>, v: seq<real>)
    requires |u| == |v| == 1
    ensures Dot(u, v) == u[0] * v[0]
  {
    DotStep(u, v, 0);
    assert u[..1] == u && v[..1] == v;
  }

  lemma DotTwo(u: seq<real>, v: seq<real>)
    requires |u| == |v| == 2
    ensures Dot(u, v) == u[0] * v[0] + u[1] * v[1]
  {
    DotStep(u, v, 0);
    DotStep(u, v, 1);
    assert u[..2] == u && v[..2] == v;
  }

  /** The forward half of one step on 2 + 3 = 5 from a fresh 2-2-1 network: both
      hidden units hold the raw sum 5 and the output is 5 + 5 = 10. */
  lemma TwoPlusThreeForward(lr: real)
    ensures var f := FeedForward(NewRawAI(2, 2, 1, lr), [2.0, 3.0]).0;
      && f == NewRawAI(2, 2, 1, lr).(inputLayer := [2.0, 3.0], hiddenLayer := [5.0, 5.0], outputLayer := [10.0])
  {
    var nn := NewRawAI(2, 2, 1, lr);
    var input := LoadInputs(nn.inputLayer, [2.0, 3.0]);
    assert input == [2.0, 3.0];
    forall i | 0 <= i < 2
      ensures Dot(input, Column(nn.weightsIH, i)) == 5.0
    {
      DotTwo(input, Column(nn.weightsIH, i));
    }
    var hidden := Propagate(input, nn.weightsIH, 2);
    assert hidden == [5.0, 5.0];
    DotTwo(hidden, Column(nn.weightsHO, 0));
    assert Propagate(hidden, nn.weightsHO, 1) == [10.0];
  }

  /** The backward half of that step: the output error is 10 - 5 = 5; SigmoidDerivative
      of the raw hidden sum 5 is 5 * (1 - 5) = -20, so each hidden error is
      5 * 1 * -20 = -100. */
  lemma TwoPlusThreeBackprop(f: Network, lr: real)
    requires f == NewRawAI(2, 2, 1, lr).(inputLayer := [2.0, 3.0], hiddenLayer := [5.0, 5.0], outputLayer := [10.0])
    ensures var t := Backprop(f, [5.0]);
      && t.weightsHO == [[1.0 + 25.0 * lr], [1.0 + 25.0 * lr]]
      && t.weightsIH == [[1.0 - 200.0 * lr, 1.0 - 200.0 * lr], [1.0 - 300.0 * lr, 1.0 - 300.0 * lr]]
  {
    var outErr := OutputErrors(f.outputLayer, [5.0]);
    assert outErr == [5.0];
    forall j | 0 <= j < 2
      ensures Dot(outErr, f.weightsHO[j]) == 5.0
    {
      DotOne(outErr, f.weightsHO[j]);
    }
    assert SigmoidDerivative(5.0) == -20.0;
    var hidErr := HiddenErrors(f.hiddenLayer, outErr, f.weightsHO);
    assert hidErr == [-100.0, -100.0];
    var t := Backprop(f, [5.0]);
    assert t.weightsHO == AddOuterProduct(f.weightsHO, lr, f.hiddenLayer, outErr);
    assert t.weightsIH == AddOuterProduct(f.weightsIH, lr, f.inputLayer, hidErr);
    assert t.weightsHO[0] == [1.0 + 25.0 * lr] && t.weightsHO[1] == [1.0 + 25.0 * lr];
    assert t.weightsIH[0] == [1.0 - 200.0 * lr, 1.0 - 200.0 * lr];
    assert t.weightsIH[1] == [1.0 - 300.0 * lr, 1.0 - 300.0 * lr];
  }

  /** One training step on 2 + 3 = 5 from a fresh 2-2-1 network. The output weights
      grow by 25 lr, while the input weights shrink by 200 lr and 300 lr, the sign
      coming from SigmoidDerivative of a raw sum above 1. */
  lemma TwoPlusThreeStep(lr: real)
    ensures var t := Train(NewRawAI(2, 2, 1, lr), [2.0, 3.0], [5.0]);
      && t.hiddenLayer == [5.0, 5.0]
      && t.outputLayer == [10.0]
      && t.weightsHO == [[1.0 + 25.0 * lr], [1.0 + 25.0 * lr]]
      && t.weightsIH == [[1.0 - 200.0 * lr, 1.0 - 200.0 * lr], [1.0 - 300.0 * lr, 1.0 - 300.0 * lr]]
  {
    TwoPlusThreeForward(lr);
    TwoPlusThreeBackprop(FeedForward(NewRawAI(2, 2, 1, lr), [2.0, 3.0]).0, lr);
  }

  /** The addition driver's first call trains a fresh 2-2-1 network (no weights file
      imported) on 0 + 0 = 0. The fresh network already outputs 0 for the inputs
      [0, 0], so every error is zero and the call changes no weight. */
  lemma DriverFirstCallKeepsWeights(lr: real)
    ensures var nn := NewRawAI(2, 2, 1, lr);
      var t := Train(nn, [0.0, 0.0], [0.0]);
      t.weightsIH == nn.weightsIH && t.weightsHO == nn.weightsHO
  {
    var nn := NewRawAI(2, 2, 1, lr);
    var input := LoadInputs(nn.inputLayer, [0.0, 0.0]);
    assert input == [0.0, 0.0];
    forall i | 0 <= i < 2
      ensures Dot(input, Column(nn.weightsIH, i)) == 0.0
    {
      DotZeroLeft(input, Column(nn.weightsIH, i));
    }
    var hidden := Propagate(input, nn.weightsIH, 2);
    assert hidden == [0.0, 0.0];
    DotZeroLeft(hidden, Column(nn.weightsHO, 0));
    assert Propagate(hidden, nn.weightsHO, 1) == [0.0];
    TrainAtTarget(nn, [0.0, 0.0], [0.0]);
  }

  /** With the update as written (the error term is prediction minus target and the
      delta is added), a positive learning rate moves the prediction AWAY from the
      target: a 1-1-1 network predicting 1 for target 0 predicts 1 + lr after a step. */
  lemma StepMovesAwayFromTarget(lr: real)
    requires lr > 0.0
    ensures var nn := NewRawAI(1, 1, 1, lr);
      && FeedForward(nn, [1.0]).1 == [1.0]
      && FeedForward(Train(nn, [1.0], [0.0]), [1.0]).1 == [1.0 + lr]
  {
    var nn := NewRawAI(1, 1, 1, lr);
    var input := LoadInputs(nn.inputLayer, [1.0]);
    assert input == [1.0];
    DotOne(input, Column(nn.weightsIH, 0));
    var hidden := Propagate(input, nn.weightsIH, 1);
    assert hidden == [1.0];
    DotOne(hidden, Column(nn.weightsHO, 0));
    var output := Propagate(hidden, nn.weightsHO, 1);
    assert output == [1.0];
    var f := FeedForward(nn, [1.0]).0;
    assert f.hiddenLayer == hidden && f.outputLayer == output && f.inputLayer == input;
    var outErr := OutputErrors(output, [0.0]);
    assert outErr == [1.0];
    DotOne(outErr, nn.weightsHO[0]);
    var hidErr := HiddenErrors(hidden, outErr, nn.weightsHO);
    assert hidErr == [0.0];
    var t := Train(nn, [1.0], [0.0]);
    assert t.weightsHO == AddOuterProduct(nn.weightsHO, lr, hidden, outErr);
    assert t.weightsIH == AddOuterProduct(nn.weightsIH, lr, input, hidErr);
    assert t.weightsIH[0] == [1.0];
    assert t.weightsHO[0] == [1.0 + lr];
    DotOne(input, Column(t.weightsIH, 0));
    var hidden2 := Propagate(input, t.weightsIH, 1);
    assert hidden2 == [1.0];
    DotOne(hidden2, Column(t.weightsHO, 0));
    assert LoadInputs(t.inputLayer, [1.0]) == input;
  }
}
