/**
 * The sigmoid activation and the derivative the back-propagation uses.
 * The exponential function of the math library is not modelled; it is a
 * parameter of type `Exp`, any real function whose values are all positive.
 */
module Activations {

  /** Stands for `math.Exp`: the only fact used about it is that it is positive. */
  type Exp = f: real -> real | forall x :: f(x) > 0.0 witness (x: real) => 1.0

  /** The logistic function 1 / (1 + e^-x); it never reaches 0 or 1. */
  function Sigmoid(exp: Exp, x: real): (r: real)
    ensures 0.0 < r < 1.0
  {
    var d := 1.0 + exp(-x);
    assert d > 1.0;
    1.0 / d
  }

  /** `Sigmoid` for a fixed exponential, as a value to apply element-wise. */
  function SigmoidOf(exp: Exp): real -> real {
    x => Sigmoid(exp, x)
  }

  /**
   * The derivative of the sigmoid, expressed through the sigmoid's OUTPUT:
   * if s = sigmoid(v) then d sigmoid / dv = s * (1 - s). It is applied to
   * activations, never to pre-activations.
   */
  function SigmoidPrime(s: real): (r: real)
    ensures s == 0.0 || s == 1.0 ==> r == 0.0
    ensures 0.0 < s < 1.0 ==> r > 0.0
  {
    s * (1.0 - s)
  }

  /** On [0, 1] the derivative lies in [0, 1/4]. */
  lemma SigmoidPrimeBounds(s: real)
    requires 0.0 <= s <= 1.0
    ensures 0.0 <= SigmoidPrime(s) <= 0.25
  {
    // s * (1 - s) = 1/4 - (s - 1/2)^2
    assert SigmoidPrime(s) == 0.25 - (s - 0.5) * (s - 0.5);
  }

  /** The derivative is symmetric about 1/2. */
  lemma SigmoidPrimeSymmetric(s: real)
    ensures SigmoidPrime(s) == SigmoidPrime(1.0 - s)
  {
  }

  /**
   * Where back-propagation uses it, on a sigmoid output, the derivative is
   * strictly positive and at most 1/4 over the reals.
   */
  lemma SigmoidPrimeOfSigmoid(exp: Exp, x: real)
    ensures 0.0 < SigmoidPrime(Sigmoid(exp, x)) <= 0.25
  {
    SigmoidPrimeBounds(Sigmoid(exp, x));
  }
}
