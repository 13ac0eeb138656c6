/**
 The scalar helpers of the network: a fourth-order Taylor polynomial standing in
 for the exponential, the logistic function built on it, and the "derivative in
 terms of the output" x * (1 - x). Float64 arithmetic is idealised as `real`.
 */
module Activation {

  /** The degree-4 Taylor polynomial of e^x around 0. It is positive everywhere and,
      like the true exponential, never below the tangent line 1 + x. */
  function Exp(x: real): (r: real)
    ensures r > 0.0
    ensures r >= 1.0 + x
    ensures x == 0.0 ==> r == 1.0
  {
    var r := 1.0 + x + (x * x) / 2.0 + (x * x * x) / 6.0 + (x * x * x * x) / 24.0;
    var s := x * x + 2.0 * x;
    var t := x + 1.5;
    var u := x + 2.0;
    assert 24.0 * r == s * s + 8.0 * (t * t) + 6.0;
    assert 24.0 * (r - 1.0 - x) == (x * x) * (u * u + 8.0);
    assert s * s >= 0.0 && t * t >= 0.0 && x * x >= 0.0;
    r
  }

  /** The logistic function 1 / (1 + Exp(-x)); since Exp is positive the denominator
      exceeds 1, so the result lies strictly between 0 and 1. */
  function Sigmoid(x: real): (r: real)
    ensures 0.0 < r < 1.0
    ensures x == 0.0 ==> r == 0.5
  {
    1.0 / (1.0 + Exp(-x))
  }

  /** x * (1 - x): the logistic derivative expressed through the logistic's own
      output. It is positive exactly on the open unit interval, vanishes at 0 and 1,
      and never exceeds 1/4. */
  function SigmoidDerivative(x: real): (r: real)
    ensures r > 0.0 <==> 0.0 < x < 1.0
    ensures r == 0.0 <==> x == 0.0 || x == 1.0
    ensures r <= 0.25
  {
    var r := x * (1.0 - x);
    var d := x - 0.5;
    assert 0.25 - r == d * d;
    r
  }

  /** Far enough below zero the polynomial turns back up: from -3 downwards it
      exceeds 1 = Exp(0), whereas the true exponential of a negative number is below 1. */
  lemma ExpAboveOneBelowMinusThree(x: real)
    requires x <= -3.0
    ensures Exp(x) > 1.0
  {
    var t := -3.0 - x;
    var c := x * x * x + 4.0 * x * x + 12.0 * x + 24.0;
    assert c == -3.0 - 15.0 * t - 5.0 * (t * t) - t * t * t;
    assert t * t >= 0.0;
    assert t * t * t >= 0.0;
    assert c < 0.0;
    assert 24.0 * (Exp(x) - 1.0) == x * c;
  }

  /** Consequently the logistic built on Exp falls below 1/2 for inputs of 3 and more,
      where the true logistic is above 1/2: it is not monotone. */
  lemma SigmoidBelowHalfFromThree(x: real)
    requires x >= 3.0
    ensures Sigmoid(x) < 0.5
  {
    ExpAboveOneBelowMinusThree(-x);
  }
}
