/** Small facts about real arithmetic used by the survey and the capital allocation. */
module Reals {

  /** The `**2` of the source. */
  function Square(x: real): real {
    x * x
  }

  lemma PositiveProduct(x: real, y: real)
    requires x > 0.0 && y > 0.0
    ensures x * y > 0.0
  {
  }

  /** Stated on plain values, so that a difference of nonlinear terms can be compared linearly. */
  lemma GreaterByPositiveDifference(x: real, y: real, d: real)
    requires x - y == d && d > 0.0
    ensures x > y
  {
  }

  /** Replaces a factor by an equal one. */
  lemma SameFactor(a: real, b: real, c: real)
    requires b == c
    ensures a * b == a * c
  {
  }

  lemma NonNegativeProduct(x: real, y: real)
    requires (x >= 0.0 && y >= 0.0) || (x <= 0.0 && y <= 0.0)
    ensures x * y >= 0.0
  {
    if x < 0.0 && y < 0.0 {
      PositiveProduct(-x, -y);
      assert (-x) * (-y) == x * y;
    }
  }

  lemma SquarePositive(x: real)
    requires x != 0.0
    ensures Square(x) > 0.0
  {
    // Stated through x * (x / 2): the solver handles a product of two distinct terms more readily.
    var h := x / 2.0;
    assert Square(x) == 2.0 * (x * h);
    if x > 0.0 {
      PositiveProduct(x, h);
    } else {
      PositiveProduct(-x, -h);
      assert (-x) * (-h) == x * h;
    }
  }

  lemma SquareNonNegative(x: real)
    ensures Square(x) >= 0.0
  {
    if x != 0.0 {
      SquarePositive(x);
    }
  }

  /** u^2 - w^2 = (u - w) * (u + w) */
  lemma SquareDifference(u: real, w: real)
    ensures Square(u) - Square(w) == (u - w) * (u + w)
  {
  }
}
