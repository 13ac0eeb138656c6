/**
 Vectors and matrices of reals as sequences, and the weighted sum that every layer
 of the network computes. Sums are accumulated left to right, the order in which
 the network's loops add their terms.
 */
module Matrix {

  /** `m` has exactly `rows` rows of exactly `cols` entries each. */
  predicate IsMatrix(m: seq<seq<real>>, rows: nat, cols: nat)
  {
    |m| == rows && forall i :: 0 <= i < rows ==> |m[i]| == cols
  }

  /** A fresh vector of `n` zeros, as the network allocates its layers. */
  function Zeros(n: nat): (v: seq<real>)
    ensures |v| == n
    ensures forall i :: 0 <= i < n ==> v[i] == 0.0
  {
    seq(n, _ => 0.0)
  }

  /** Column `col` of `m`: entry `j` is `m[j][col]`. */
  function Column(m: seq<seq<real>>, col: nat): (c: seq<real>)
    requires forall j :: 0 <= j < |m| ==> col < |m[j]|
    ensures |c| == |m|
    ensures forall j :: 0 <= j < |m| ==> c[j] == m[j][col]
  {
    seq(|m|, j requires 0 <= j < |m| => m[j][col])
  }

  /** u[0]*v[0] + u[1]*v[1] + ... accumulated from the left, starting at 0. */
  function Dot(u: seq<real>, v: seq<real>): real
    requires |u| == |v|
    decreases |u|
  {
    if |u| == 0 then 0.0
    else Dot(u[..|u| - 1], v[..|v| - 1]) + u[|u| - 1] * v[|v| - 1]
  }

  /** Extending both prefixes by one position adds exactly one product to the sum:
      the step a running accumulator takes. */
  lemma DotStep(u: seq<real>, v: seq<real>, j: nat)
    requires |u| == |v|
    requires j < |u|
    ensures Dot(u[..j + 1], v[..j + 1]) == Dot(u[..j], v[..j]) + u[j] * v[j]
  {
    assert u[..j + 1][..j] == u[..j];
    assert v[..j + 1][..j] == v[..j];
  }

  /** A weighted sum whose left factors are all zero is zero, whatever the weights. */
  lemma {:induction false} DotZeroLeft(u: seq<real>, v: seq<real>)
    requires |u| == |v|
    requires forall i :: 0 <= i < |u| ==> u[i] == 0.0
    ensures Dot(u, v) == 0.0
    decreases |u|
  {
    if |u| > 0 {
      DotZeroLeft(u[..|u| - 1], v[..|v| - 1]);
    }
  }
}
