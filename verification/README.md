# Sets and functions of the introductory algebra script

This project models `funcoes.py`, a teaching script for an introductory
linear-algebra course. The script illustrates sets and functions. Each of its
pure helpers becomes a Dafny function, and lemmas prove what the script's
docstrings and comments promise about it.

- `Sets` (`sets.dfy`): `definir_conjuntos` and `operacoes_conjuntos`.
  Python's `range(lo, hi)` is the sequence `Range`, and its values form the set `IntRange`.
  The two example sets are `s`, the non-negative values of `range(-10, 11)`, and `a`, the values of `range(5, 15)`.
  The dictionary with keys "uniao", "diferenca" and "intersecao" becomes the record `SetOps`, with fields `union`, `difference` and `intersection`.
- `Cartesian` (`cartesian.dfy`): `produto_cartesiano`, the set comprehension
  `{(x, y) for x in s for y in a}`. `ProductSize` proves |s × a| = |s| · |a|
  by induction on `s`. It uses `RowSize`, which shows that each row
  `{(x, y) | y in a}` has |a| pairs, by induction on `a`.
- `Step` (`heaviside.dfy`): `heaviside` on exact reals, so 0.5 and the
  comparison with zero are exact.
- `Composition` (`composition.dfy`): `f(x) = x²`, `h(y) = y + 1` and
  `g = h ∘ f` on integers, plus a generic `Compose` on function values.
- `Factorization` (`factorization.dfy`): `fatoracao_inteiros`.
  Python's mixed return type is replaced by the tagged datatype `Outcome`, which has three cases:
  - `InvalidInput(message)` is the string the script returns for a negative input.
  - `DivisionByZero` is the exception `100 / 0` raises for input 0.
  - `Factors(x, y)` is the pair `(x, 100 / x)`.

The factorization stub does not do what its comment promises
(funcoes.py:142-146). The comment asks for a pair of integers greater than 1
whose product is the input n. The code instead fixes n = 100 and returns
`(x, 100 / x)` with real division.
- With exact reals, `x · y = 100` does hold for every positive `x` (`Factor`, `FactorCharacterization`).
- `y` is a whole number only when `x` divides 100 (`FactorIntegral`).
- `x = 3` yields a non-integer, and `x = 1` yields a first component that is not greater than 1 (`FactorContractNotMet`).
- Input 0 raises a division by zero, which is modelled as its own outcome rather than ruled out by a precondition.

The model states these deviations as they are and does not guess a fix.

## Model

| member | source | states |
|---|---|---|
| Sets.RangeMembership | funcoes.py:20-22 | `range(lo, hi)` contains exactly the integers x with lo <= x < hi |
| Sets.IntRange | funcoes.py:20-23 | the set of a range's values has exactly the members of [lo, hi) |
| Sets.RangeSize | funcoes.py:20-23 | the set of a range's values has hi - lo elements, or none when hi <= lo |
| Sets.DefineSets | funcoes.py:11-24 | `s` filters range(-10, 11) down to exactly 0..10 (11 elements); `a` is exactly 5..14 (10 elements) |
| Sets.Operations | funcoes.py:44-48 | for any two sets, the union holds exactly the elements in `s` or `a`, the difference exactly those in `s` and not in `a`, the intersection exactly those in both |
| Sets.OperationsPartition | funcoes.py:45-47 | difference and intersection are disjoint and together make up `s`; `s` and `a` both lie inside the union |
| Sets.OperationsSizes | funcoes.py:45-47 | inclusion-exclusion: card(union) = card(s) + card(a) - card(intersection), and card(difference) = card(s) - card(intersection) |
| Sets.ExampleOperations | funcoes.py:44-48 | on the example sets the union is 0..14 (15 elements), the difference 0..4 and the intersection 5..10 |
| Cartesian.ProductMembership | funcoes.py:57-66 | (x, y) is in the product iff x is in `s` and y is in `a` |
| Cartesian.RowSize | funcoes.py:66 | the pairs with a fixed first component x number exactly card(a) |
| Cartesian.ProductSplit | funcoes.py:66 | removing x from `s` splits the product into the product of the rest and the row of x, which do not overlap |
| Cartesian.ProductSize | funcoes.py:66 | card(s × a) = card(s) · card(a) for all finite sets |
| Cartesian.ProductEmpty | funcoes.py:66 | the product is empty iff `s` or `a` is empty |
| Cartesian.ExampleProduct | funcoes.py:128 | {1, 2} × {3, 4} is exactly {(1,3), (1,4), (2,3), (2,4)} |
| Step.Heaviside | funcoes.py:72-90 | the result is 0 iff x < 0, 0.5 iff x = 0, 1 iff x > 0 |
| Step.HeavisideFromSign | funcoes.py:75-77 | H(x) = (1 + sign(x)) / 2, with the sign defined independently |
| Step.HeavisideReflection | funcoes.py:75-77 | H(x) + H(-x) = 1 for every real x |
| Step.HeavisideMonotone | funcoes.py:75-77 | H never decreases and stays within [0, 1] |
| Step.ExampleHeaviside | funcoes.py:131-133 | H(-10) = 0, H(0) = 0.5, H(10) = 1 exactly |
| Composition.F | funcoes.py:96-98 | f(x) = x² is never negative |
| Composition.H | funcoes.py:100-102 | h(y) = y + 1 exceeds its argument |
| Composition.G | funcoes.py:104-109 | g(x) = x² + 1, so g(x) >= 1 |
| Composition.GIsComposition | funcoes.py:104-109 | g agrees at every x with the composition of the function values h and f, and with f(x) + 1 |
| Composition.Even | funcoes.py:96-109 | f(-x) = f(x) and g(-x) = g(x) |
| Composition.GMinimum | funcoes.py:104-109 | g(x) = 1 iff x = 0 |
| Composition.ExampleComposition | funcoes.py:137-138 | g over range(-2, 3) yields 5, 2, 1, 2, 5 |
| Factorization.Factor | funcoes.py:148-153 | a negative input gives the error text, 0 gives division by zero, and a positive x gives the pair (x, y) with x · y = 100 |
| Factorization.FactorCharacterization | funcoes.py:148-153 | the stub returns (x, y) iff x > 0 and x · y = 100, so y is determined by x |
| Factorization.FactorIntegral | funcoes.py:151-152 | for x > 0 the quotient equals the integer k iff x · k = 100 |
| Factorization.FactorContractNotMet | funcoes.py:145-146 | the commented contract fails: 100/3 is no integer, and x = 1 is accepted |
| Factorization.ExampleFactor | funcoes.py:154 | Factor(10) is the pair (10, 10) |

## Left out

- The `__main__` demonstration block and its `print` calls (funcoes.py:115-138) are console output. Only the values they display are stated, in the `Example…` lemmas.
- The module-level `print(fatoracao_inteiros(10))` (funcoes.py:154) is an import-time side effect. Its value is stated in `Factorization.ExampleFactor`.
- IEEE floating point is not modelled. `heaviside` and the quotient `100 / x` use exact `real` arithmetic, so rounding in `100 / x` (for example x = 3) is not modelled.
- Python's dynamic typing is replaced by fixed types:
  - `heaviside` returns the integers 0 and 1 and the float 0.5; here all three are reals.
  - `fatoracao_inteiros` returns either a string or a tuple; here it returns the `Outcome` datatype.
  - `f`, `h` and `g` accept floats as well; here they work on integers, the type the script evaluates them on.
  - `fatoracao_inteiros` also accepts non-integer numbers; here its input is an integer, as its comment asks.
- The script's sets are integer sets. Python sets of other element types, and the iteration order of Python sets, are not modelled; every result here is a set.
