/**
 * The browser's `Math.random`, injected. Every component that draws random
 * numbers reads them, in order, from one stream whose values lie in [0, 1).
 * Nothing is assumed about how the values are distributed.
 */
module Random {

  /** A value `Math.random()` can return. */
  type Draw = r: real | 0.0 <= r < 1.0 witness 0.0

  /** A value computed from the random stream, and the index of the next unused draw. */
  datatype Drawn<T> = Drawn(value: T, next: nat)

  /** A stream of draws together with a cursor counting how many were taken. */
  class Source {
    const draw: nat -> Draw
    var used: nat

    constructor (draw: nat -> Draw)
      ensures this.draw == draw && used == 0
    {
      this.draw := draw;
      used := 0;
    }

    /** One call of `Math.random()`: the next unused draw. */
    method Next() returns (r: Draw)
      modifies this
      ensures r == draw(old(used)) && used == old(used) + 1
    {
      r := draw(used);
      used := used + 1;
    }
  }
}
