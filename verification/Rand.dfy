/** The pseudo-random generator the program draws from.

A generator is seeded once and then answers requests; its answers are a function of the seed and
of the requests made so far.  `Source` is that function, left arbitrary, and an `Rng` is a position
in it.  Two generators with the same seed and the same history of requests are the same generator,
and every deterministic generator has this form: a statement proved for all sources holds for the
one the program links with.  The history also makes "draws exactly once" a statement about values. */
module Rand {

  datatype Call =
    | CallInt63
    | CallUint64
    | CallIntn(n: int)
    | CallInt63n(n: int)
    | CallFloat64
    | CallNorm
    | CallBytes(len: nat)

  datatype Source = Source(ints: (int, seq<Call>) -> nat, norms: (int, seq<Call>) -> real)

  const TWO_TO_THE_63: nat := 0x8000_0000_0000_0000
  const TWO_TO_THE_64: nat := 0x1_0000_0000_0000_0000
  const TWO_TO_THE_53: nat := 0x20_0000_0000_0000

  datatype Rng = Rng(source: Source, seed: int, calls: seq<Call>) {

    function Raw(): nat {
      source.ints(seed, calls)
    }

    function After(c: Call): Rng {
      this.(calls := calls + [c])
    }

    function Int63(): (r: (nat, Rng))
      ensures r.0 < TWO_TO_THE_63
    {
      (Raw() % TWO_TO_THE_63, After(CallInt63))
    }

    function Uint64(): (r: (nat, Rng))
      ensures r.0 < TWO_TO_THE_64
    {
      (Raw() % TWO_TO_THE_64, After(CallUint64))
    }

    /** `Intn` and `Int63n` panic when their argument is not positive. */
    function Intn(n: int): (r: (nat, Rng))
      requires n > 0
      ensures r.0 < n
    {
      (Raw() % n, After(CallIntn(n)))
    }

    function Int63n(n: int): (r: (nat, Rng))
      requires n > 0
      ensures r.0 < n
    {
      (Raw() % n, After(CallInt63n(n)))
    }

    /** A multiple of 2^-53 in [0, 1). */
    function Float64(): (r: (real, Rng))
      ensures 0.0 <= r.0 < 1.0
    {
      ((Raw() % TWO_TO_THE_53) as real / TWO_TO_THE_53 as real, After(CallFloat64))
    }

    function Norm(): (real, Rng) {
      (source.norms(seed, calls), After(CallNorm))
    }

    /** `len` random bytes, read as one number. */
    function Bytes(len: nat): (nat, Rng) {
      (Raw(), After(CallBytes(len)))
    }

    /** A generator of its own for a worker, seeded by one draw from this one. */
    function Split(): (Rng, Rng) {
      var (s, next) := Int63();
      (Rng(source, s, []), next)
    }
  }
}
