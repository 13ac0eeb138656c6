# RawAI: a verified model of a hand-written one-hidden-layer network

This project models `RawAI`, the small fully-connected network at the heart of the
AICalculator repository. The network has an input layer of N units, a hidden layer of H
units and an output layer of M units. It connects them through an N×H matrix `WeightsIH`
and an H×M matrix `WeightsHO`, and trains with a fixed learning rate. Its operations are:

- `NewRawAI`: builds the network with zeroed layers. `randomMatrix` fills both weight
  matrices, but with the constant 1.0 rather than random values.
- `FeedForward`: copies the inputs over the front of the input layer. It then computes
  plain weighted sums into the hidden layer and the output layer. It adds no bias and
  applies no activation function.
- `Train`: runs one forward pass and then one gradient step. The output error is
  prediction minus target. The hidden error is the back-propagated error times
  `sigmoidDerivative(hidden)`. Each weight delta is *added* to its weight.
- `exp`, `sigmoid` and `sigmoidDerivative`: the math helpers. `exp` is the
  fourth-order Taylor polynomial of the exponential.

The model covers the code as written. It does not correct the constant fill, the added
gradient, the derivative taken of the raw hidden sum, or the prefix-only input copy.
Lemmas document the effect of each of these.

Float64 arithmetic is idealised as Dafny's `real`. This makes shapes, the exact update
formulas, the "nothing else changes" facts and the polynomial identities exact
statements.

Layout:

- `Activation.dfy` (module `Activation`): `Exp`, `Sigmoid` and `SigmoidDerivative`.
- `Matrix.dfy` (module `Matrix`): the `IsMatrix` shape predicate, `Zeros`, `Column`, and
  `Dot`. `Dot` is a weighted sum accumulated from the left, in the order the source's
  loops add their terms.
- `RawAI.dfy` (module `RawAI`): the `Network` record and its `Valid(N, H, M)` dimension
  invariant. It also holds the pure reference functions `NewRawAI`, `FeedForward`,
  `Backprop` and `Train`, and the lemmas about them. `Train` is `FeedForward` followed
  by `Backprop`, the backward half of the step.
- `RawAILoops.dfy` (module `RawAILoops`): the same operations written loop by loop as
  the source performs them. Each one is proved to produce exactly the value of its
  reference function.
- `Scenarios.dfy` (module `Scenarios`): single training steps worked out exactly on
  small networks.

Preconditions follow the places where the source would index out of range and panic:

- `FeedForward` needs `|inputs| <= N` (RawAI.go line 33).
- `Train` needs one target per output (`TargetsFit`). More targets overrun the output
  layer at line 71. Fewer overrun the output errors at line 79. The one exception is a
  network without hidden units: the loop at line 79 then never runs, so fewer targets
  are accepted there.
- All operations need the weight matrices to match the layer lengths exactly
  (`WellShaped`). This is the model's own invariant, and it is stronger than what the
  source needs. The source's index accesses (RawAI.go lines 40, 53, 79, 92 and 100) only
  need at least N rows of at least H entries in `WeightsIH`, and at least H rows of at
  least M entries in `WeightsHO`. `NewRawAI` establishes the exact shape and every
  operation preserves it. Only weights loaded by `ImportWeights` could have the looser
  shape, and that function is left out (see below).

## Model

| member | source | states |
|---|---|---|
| Activation.Exp | RawAI.go:152-154 | the Taylor polynomial is positive everywhere, never below the tangent line 1 + x, and equals 1 at 0 |
| Activation.Sigmoid | RawAI.go:145-147 | the logistic built on the polynomial is defined for every input, lies strictly between 0 and 1, and is 1/2 at 0 |
| Activation.SigmoidDerivative | RawAI.go:148-150 | x(1 - x) is zero exactly at 0 and 1, positive exactly on the open unit interval, and at most 1/4 |
| Activation.ExpAboveOneBelowMinusThree | RawAI.go:152-154 | for x <= -3 the polynomial exceeds 1, unlike the true exponential of a negative number |
| Activation.SigmoidBelowHalfFromThree | RawAI.go:145-147 | for x >= 3 the logistic falls below 1/2, so it is not monotone |
| Matrix.DotZeroLeft | RawAI.go:77-80 | a running weighted sum whose left factors are all zero is zero, whatever the weights |
| RawAI.Network.Valid | RawAI.go:10-17 | the dimension invariant of an N-H-M network: layers of N, H and M units, an N×H input-to-hidden matrix and an H×M hidden-to-output matrix (a definition without a contract) |
| RawAI.TargetsFit | RawAI.go:68-80 | the targets fit exactly when the output-error loop stays inside the output layer (at most M targets) and, with at least one hidden unit, the hidden-error loop stays inside the output errors (at least M targets) |
| RawAI.RandomMatrix | RawAI.go:135-144 | the initial matrix has the requested rows × cols shape and every entry is 1 |
| RawAI.NewRawAI | RawAI.go:19-29 | a fresh network satisfies Valid(N, H, M), has all-zero layers and all-ones weights, and keeps the given learning rate |
| RawAI.LoadInputs | RawAI.go:32-34 | the input buffer keeps its length, takes the inputs in its first slots and keeps its old values in the rest |
| RawAI.Propagate | RawAI.go:37-60 | the next layer has the requested width; its values, Σⱼ layer[j]·w[j][i], are given by the body, and `RawAILoops.WeightedSums` is proved to compute exactly them |
| RawAI.FeedForward | RawAI.go:30-63 | the forward pass keeps the N-H-M dimensions, leaves both weight matrices and the learning rate unchanged, and returns the new output layer |
| RawAI.OutputErrors | RawAI.go:68-72 | one error per target; the values, output[k] − target[k], are given by the body, and `RawAILoops.OutputErrorsLoops` is proved equal to it |
| RawAI.HiddenErrors | RawAI.go:75-86 | one error per hidden unit; the values are given by the body, and `RawAILoops.HiddenErrorsLoops` is proved equal to it |
| RawAI.AddOuterProduct | RawAI.go:89-100 | the updated matrix keeps its shape; the entries, w[a][b] + lr·cols[b]·rows[a], are given by the body, and `RawAILoops.AddOuterProductLoops` is proved equal to it |
| RawAI.Backprop | RawAI.go:67-108 | the backward half keeps the dimensions and the learning rate and leaves all three layers as the forward pass left them |
| RawAI.Train | RawAI.go:64-110 | a training step keeps the dimensions and the learning rate, and its layers are exactly those of its forward pass |
| RawAI.BackpropEntries | RawAI.go:68-100 | each hidden-to-output weight gains lr·(output[k] − target[k])·hidden[j]; each input-to-hidden weight gains lr·(Σₖ outErr[k]·oldWeightsHO[j][k])·SigmoidDerivative(hidden[j])·input[i] |
| RawAI.FeedForwardIdempotent | RawAI.go:30-63 | a second forward pass on the same inputs changes neither the network nor the returned output |
| RawAI.FeedForwardDeterministic | RawAI.go:30-63 | the output depends only on the inputs, the stale input slots past them and the weights, never on the previous hidden or output values |
| RawAI.StaleInputChangesOutput | RawAI.go:32-42 | with fewer inputs than input units, a stale input slot does change the output (1 versus 6 in a 2-1-1 example) |
| RawAI.AddOuterProductZero | RawAI.go:89-100 | a weight update with a zero learning rate or all-zero errors leaves the matrix unchanged |
| RawAI.TrainZeroRate | RawAI.go:91-100 | with learning rate 0 a training step leaves both weight matrices unchanged |
| RawAI.TrainAtTarget | RawAI.go:65-100 | training on the output the network already produces leaves both weight matrices unchanged |
| RawAILoops.RandomMatrixLoops | RawAI.go:135-144 | the row-by-row constant fill yields exactly RandomMatrix: rows × cols entries of 1 |
| RawAILoops.CopyInputs | RawAI.go:32-34 | the slot-by-slot copy yields exactly LoadInputs: the inputs over the prefix, the old values after it |
| RawAILoops.WeightedSums | RawAI.go:37-60 | each slot of the rewritten layer holds Σⱼ layer[j]·w[j][i], accumulated left to right, and the layer keeps its length |
| RawAILoops.FeedForwardLoops | RawAI.go:30-63 | the loops give the reference forward pass: the inputs loaded over the prefix, hidden[j] = Σᵢ input[i]·WeightsIH[i][j], output[k] = Σⱼ hidden[j]·WeightsHO[j][k], and the returned value equal to the output layer |
| RawAILoops.OutputErrorsLoops | RawAI.go:68-72 | the output-error loop yields one error per target, output[k] − target[k] |
| RawAILoops.HiddenErrorsLoops | RawAI.go:75-86 | the hidden-error loops yield, per hidden unit, the output errors weighted by that unit's outgoing weights times SigmoidDerivative of the raw hidden value |
| RawAILoops.AddOuterProductLoops | RawAI.go:89-108 | the entry-by-entry update adds lr·cols[b]·rows[a] to each entry [a][b] and changes nothing else |
| RawAILoops.BackpropLoops | RawAI.go:67-108 | the loops give the reference backward half, with each weight's update stated entry by entry, the hidden errors using the hidden-to-output weights from before their update |
| RawAILoops.TrainLoops | RawAI.go:64-110 | the loop-level training step (forward pass, then backward half) equals the reference Train |
| Scenarios.TwoPlusThreeStep | RawAI.go:64-110 | one training step on a fresh 2-2-1 network with 2 + 3 = 5 gives hidden [5, 5], output [10], output weights 1 + 25·lr, and input weights 1 − 200·lr and 1 − 300·lr |
| Scenarios.DriverFirstCallKeepsWeights | testNN.go:69-86 | the addition driver's first call, 0 + 0 = 0 on a fresh 2-2-1 network, changes no weight, because the fresh network already outputs 0 |
| Scenarios.StepMovesAwayFromTarget | RawAI.go:71-100 | because the delta is added, a step with positive learning rate moves a 1-1-1 network's prediction from 1 to 1 + lr, away from the target 0 |

## Left out

- `ExportWeights` and `ImportWeights` (RawAI.go:111-132) are not modelled. They are file
  I/O plus JSON encoding by a library whose behaviour is not visible here. Because of
  that, the model never has to deal with a network whose loaded matrices disagree with
  its layer lengths: every operation takes `WellShaped` as a precondition.
- The NaN panics and the Inf/NaN diagnostics (RawAI.go:43-45, 56-58, 82-85, 101-106) are
  not modelled. They are unreachable over `real`, and their printing is console I/O.
- Float64 rounding, overflow to infinity and the order-dependence of float addition are
  not modelled. `Dot` still adds its terms in the source's left-to-right order.
- Exp: the model does not state how closely the polynomial tracks the true exponential
  for small |x|. The true exponential cannot be expressed over `real`. Only exact
  properties of the polynomial are stated.
- NewRawAI: sizes are `nat`. Go's `make` panics on a negative size, and that panic is not
  modelled.
- FeedForward: the source returns its own `OutputLayer` slice, so the caller's result
  aliases the network's state. The model returns a value equal to the output layer
  instead.
- Convergence and accuracy of training over many epochs are not modelled. They depend on
  float rounding and on very long runs.
- testNN.go and main.go are not part of this model. They hold driver loops, console
  output, random test picks, and examples built on the external gorgonia library. Only
  the addition driver's first call is worked out, in `Scenarios`, for the case where
  no weights file is imported.
