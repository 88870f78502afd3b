/**
 * The random number generator that every operation of the core threads through.
 *
 * A seeded generator is an infinite stream of uniform draws in [0, 1) together with a
 * cursor; each call into `rand` (gen_bool, gen::<f32>, gen_range, a uniform sample) takes
 * exactly one draw and advances the cursor by one. Pure code takes the stream and the
 * cursor and returns the cursor after its draws; imperative code uses the class `Rng`.
 */
module Random {

  /** One uniform draw. */
  type Unit = u: real | 0.0 <= u < 1.0

  /** The draws of a seeded generator, in order. */
  type Stream = nat -> Unit

  /** `gen_bool(p)`: true with probability `p`. */
  function Bernoulli(u: Unit, p: real): bool
  {
    u < p
  }

  /** `gen_range(lo..=hi)` on floats, from one draw. */
  function UniformIn(u: Unit, lo: real, hi: real): (r: real)
    requires lo <= hi
    ensures lo <= r <= hi
  {
    if lo == hi then lo else lo + UniformBelow(u, hi - lo)
  }

  /** A sample of `Uniform::new(0, total)` from one draw: it lies in [0, total). */
  function UniformBelow(u: Unit, total: real): (r: real)
    requires 0.0 < total
    ensures 0.0 <= r < total
  {
    assert total * u < total * 1.0;
    total * u
  }

  /** The mutable generator handle (`&mut dyn RngCore`). */
  class Rng {
    const stream: Stream
    var pos: nat

    constructor (stream: Stream)
      ensures this.stream == stream && pos == 0
    {
      this.stream := stream;
      pos := 0;
    }

    /** `gen::<f32>()`: the next draw. */
    method Gen() returns (u: Unit)
      modifies this
      ensures u == stream(old(pos)) && pos == old(pos) + 1
    {
      u := stream(pos);
      pos := pos + 1;
    }

    /** `gen_bool(p)`. */
    method GenBool(p: real) returns (b: bool)
      modifies this
      ensures b == Bernoulli(stream(old(pos)), p) && pos == old(pos) + 1
    {
      var u := Gen();
      b := Bernoulli(u, p);
    }
  }
}
