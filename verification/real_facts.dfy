/** Sign facts about products of reals that the solver does not find on its own. */
module RealFacts {

  lemma NonNegativeProduct(a: real, b: real)
    requires a >= 0.0 && b >= 0.0
    ensures a * b >= 0.0
  {
  }

  lemma PositiveProduct(a: real, b: real)
    requires a > 0.0 && b > 0.0
    ensures a * b > 0.0
  {
  }

  lemma GreaterProduct(x: real, y: real, a: real)
    requires x > y && a > 0.0
    ensures x * a > y * a
  {
    assert x * a - y * a == (x - y) * a;
    PositiveProduct(x - y, a);
  }
}
