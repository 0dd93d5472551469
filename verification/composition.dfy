/** Section 5 of the teaching script: f(x) = x², h(y) = y + 1 and the
    composite g = h ∘ f, over the script's integers. */
module Composition {

  /** f(x) = x². */
  function F(x: int): (r: int)
    ensures r >= 0
  {
    x * x
  }

  /** h(y) = y + 1. */
  function H(y: int): (r: int)
    ensures r > y
  {
    y + 1
  }

  /** Function composition as a value: first `inner`, then `outer`. */
  function Compose<A, B, C>(outer: B -> C, inner: A -> B): A -> C
  {
    x => outer(inner(x))
  }

  /** g = h ∘ f, which is x² + 1. */
  function G(x: int): (r: int)
    ensures r == x * x + 1
    ensures r >= 1
  {
    H(F(x))
  }

  /** g agrees everywhere with the composition of the function values h and f. */
  lemma GIsComposition(x: int)
    ensures G(x) == Compose(H, F)(x)
    ensures G(x) == F(x) + 1
  {
  }

  /** f and g are even functions. */
  lemma Even(x: int)
    ensures F(-x) == F(x)
    ensures G(-x) == G(x)
  {
  }

  /** g reaches its least value 1 only at 0. */
  lemma GMinimum(x: int)
    ensures G(x) == 1 <==> x == 0
  {
  }

  /** The script's demonstration loop: g over range(-2, 3) gives 5, 2, 1, 2, 5. */
  lemma ExampleComposition()
    ensures seq(5, i => G(i - 2)) == [5, 2, 1, 2, 5]
  {
  }
}
