/** Facts about products of reals that the solver is best told one at a time. */
module Reals {
  lemma ProductIsPositive(a: real, b: real, product: real)
    requires a > 0.0 && b > 0.0 && product == a * b
    ensures product > 0.0
  {
  }

  lemma ProductOfNegatives(a: real, b: real, product: real)
    requires a < 0.0 && b < 0.0 && product == a * b
    ensures product > 0.0
  {
  }

  lemma Distributes(a: real, b: real, c: real)
    ensures a * (b + c) == a * b + a * c
  {
  }

  lemma ProductIsNotNegative(a: real, b: real, product: real)
    requires a >= 0.0 && b >= 0.0 && product == a * b
    ensures product >= 0.0
  {
  }
}
