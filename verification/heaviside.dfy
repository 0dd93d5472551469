/** Section 4 of the teaching script: the Heaviside step function on exact
    real numbers. */
module Step {

  /** H(x) = 0 below zero, 1/2 at zero and 1 above zero. */
  function Heaviside(x: real): (r: real)
    ensures r == 0.0 <==> x < 0.0
    ensures r == 0.5 <==> x == 0.0
    ensures r == 1.0 <==> x > 0.0
  {
    if x < 0.0 then 0.0
    else if x == 0.0 then 0.5
    else 1.0
  }

  /** The sign of a real number, defined independently of the step function. */
  function Sign(x: real): int
  {
    if x < 0.0 then -1 else if x == 0.0 then 0 else 1
  }

  /** The step function is the sign rescaled from [-1, 1] onto [0, 1]. */
  lemma HeavisideFromSign(x: real)
    ensures Heaviside(x) == (1.0 + Sign(x) as real) / 2.0
  {
  }

  /** Reflecting the input reflects the output about 1/2. */
  lemma HeavisideReflection(x: real)
    ensures Heaviside(x) + Heaviside(-x) == 1.0
  {
  }

  /** The step function never decreases and stays within [0, 1]. */
  lemma HeavisideMonotone(x: real, y: real)
    requires x <= y
    ensures 0.0 <= Heaviside(x) <= Heaviside(y) <= 1.0
  {
  }

  /** The three values the script evaluates: H(-10), H(0) and H(10). */
  lemma ExampleHeaviside()
    ensures Heaviside(-10.0) == 0.0 && Heaviside(0.0) == 0.5 && Heaviside(10.0) == 1.0
  {
  }
}
