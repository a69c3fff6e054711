/** The process-wide generator behind Python's `random.random()`.

    The generator is modelled as an oracle: a fixed, infinite stream of draws
    `draw(0), draw(1), ...` and a cursor saying how many of them have been
    consumed. Every call of `random.random()` in the tuner is one `Next()`.
 */
module Rng {

  /** `random.random()` promises a value in the half-open interval [0, 1). */
  ghost predicate UnitDraws(draw: nat -> real)
  {
    forall i: nat :: 0.0 <= draw(i) < 1.0
  }

  class Random {
    /** The whole stream of values the generator will ever return. */
    const draw: nat -> real
    /** The number of draws consumed so far. */
    var cursor: nat

    constructor (draw: nat -> real)
      ensures this.draw == draw && cursor == 0
    {
      this.draw := draw;
      cursor := 0;
    }

    /** One call of `random.random()`. */
    method Next() returns (u: real)
      modifies this
      ensures u == draw(old(cursor))
      ensures cursor == old(cursor) + 1
    {
      u := draw(cursor);
      cursor := cursor + 1;
    }
  }
}
