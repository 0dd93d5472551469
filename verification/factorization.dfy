/** The integer-factorization stub at the end of the teaching script: given x
    it returns x together with the real quotient N / x for the fixed N = 100. */
module Factorization {

  /** The hard-coded number the stub divides. */
  const N: int := 100

  /** The text the stub returns for a negative input. */
  const NegativeInputMessage: string := "X deve ser um valor positivo"

  /** The three ways the stub can end: the error text for a negative input,
      the division by zero raised for 0, or the pair (x, y). */
  datatype Outcome =
    | InvalidInput(message: string)
    | DivisionByZero
    | Factors(x: int, y: real)

  /** The stub itself, with real (not integer) division. */
  function Factor(x: int): (r: Outcome)
    ensures r.InvalidInput? <==> x < 0
    ensures r.InvalidInput? ==> r.message == NegativeInputMessage
    ensures r.DivisionByZero? <==> x == 0
    ensures r.Factors? <==> x > 0
    ensures r.Factors? ==> r.x == x && (r.x as real) * r.y == N as real
  {
    if x < 0 then InvalidInput(NegativeInputMessage)
    else
      var n := N;
      if x == 0 then DivisionByZero
      else Factors(x, (n as real) / (x as real))
  }

  /** The pair is determined by its product: the stub returns (x, y) exactly
      when x is positive and x · y = N. */
  lemma FactorCharacterization(x: int, y: real)
    ensures Factor(x) == Factors(x, y) <==> x > 0 && (x as real) * y == N as real
  {
  }

  /** The quotient is a whole number exactly when x divides N, and then it is
      the integer quotient. */
  lemma FactorIntegral(x: int, k: int)
    requires x > 0
    ensures Factor(x).y == k as real <==> x * k == N
  {
  }

  /** The stub does not meet the "pair of integers greater than 1" contract of
      its comment: for x = 3 the quotient 100/3 is no integer, and for x = 1
      the first component is not greater than 1. */
  lemma FactorContractNotMet(k: int)
    ensures Factor(3).Factors? && Factor(3).y != k as real
    ensures Factor(1) == Factors(1, 100.0)
  {
  }

  /** The call the script makes at import time: Factor(10) is the pair (10, 10). */
  lemma ExampleFactor()
    ensures Factor(10) == Factors(10, 10.0)
  {
  }
}
