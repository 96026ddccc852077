/**
 * The seeded pseudo-random generator (Mulberry32) that feeds the terrain
 * noise (src/renderer/src/utils/rng.ts).
 *
 * The seed is a JavaScript number that only ever grows by a fixed odd
 * increment; it is modelled as an unbounded integer. The scrambling reads it
 * through 32-bit integer coercion, so the mix works on `bv32`, where `*` is
 * `Math.imul`, `>>` is `>>>` and `+` wraps like the coerced sum.
 */
module Rng {

  /** The increment added to the seed on every draw. */
  const INCREMENT: int := 0x6d2b79f5

  const TWO_32: int := 0x1_0000_0000

  /** ToUint32 / ToInt32 coercion of an integer-valued number, as a bit pattern. */
  function ToUint32(n: int): bv32 {
    (n % TWO_32) as bv32
  }

  /** The xor-shift / multiply scramble of the advanced seed. */
  function Mix(t: bv32): bv32 {
    var t1 := (t ^ (t >> 15)) * (t | 1);
    var t2 := t1 ^ (t1 + (t1 ^ (t1 >> 7)) * (t1 | 61));
    t2 ^ (t2 >> 14)
  }

  /** An unsigned 32-bit value divided by 2^32. */
  function ToUnit(u: bv32): (r: real)
    ensures 0.0 <= r < 1.0
  {
    (u as int) as real / 4294967296.0
  }

  /** The value a draw returns, as a function of the seed before the draw. */
  function Output(seed: int): (r: real)
    ensures 0.0 <= r < 1.0
  {
    ToUnit(Mix(ToUint32(seed + INCREMENT)))
  }

  /**
   * Reference values of the scramble: the first draws for seeds 0 and 12345,
   * whose advanced seeds are 0x6d2b79f5 and 0x6d2baa2e.
   */
  lemma KnownOutputs()
    ensures Mix(0x6d2b79f5) == 0x4434b462
    ensures Mix(0x6d2baa2e) == 0xfacf78c5
  {
  }

  lemma ShiftModular(n: int, m: int, k: int)
    requires n % TWO_32 == m % TWO_32
    ensures (n + k) % TWO_32 == (m + k) % TWO_32
  {
  }

  lemma Uint32Modular(n: int, m: int)
    requires n % TWO_32 == m % TWO_32
    ensures ToUint32(n) == ToUint32(m)
  {
  }

  /** Integer seeds that agree modulo 2^32 give the same draw. */
  lemma OutputModular(seed: int, other: int)
    requires seed % TWO_32 == other % TWO_32
    ensures Output(seed) == Output(other)
  {
    ShiftModular(seed, other, INCREMENT);
    Uint32Modular(seed + INCREMENT, other + INCREMENT);
  }

  /** The seed after `n` draws. */
  function SeedAfter(seed: int, n: nat): int
    decreases n
  {
    if n == 0 then seed else SeedAfter(seed + INCREMENT, n - 1)
  }

  /** The values drawn by `n` successive calls, when a call with seed `s` before it returns `out(s)`. */
  function Draws(out: int -> real, seed: int, n: nat): (s: seq<real>)
    ensures |s| == n
    decreases n
  {
    if n == 0 then [] else [out(seed)] + Draws(out, seed + INCREMENT, n - 1)
  }

  /** One more draw moves the seed on by one increment. */
  lemma {:induction false} SeedAfterStep(seed: int, n: nat)
    ensures SeedAfter(seed, n + 1) == SeedAfter(seed, n) + INCREMENT
    decreases n
  {
    if n > 0 {
      SeedAfterStep(seed + INCREMENT, n - 1);
    }
  }

  /** One more draw appends the output for the seed left by the draws before it. */
  lemma {:induction false} DrawsStep(out: int -> real, seed: int, n: nat)
    ensures Draws(out, seed, n + 1) == Draws(out, seed, n) + [out(SeedAfter(seed, n))]
    decreases n
  {
    if n > 0 {
      DrawsStep(out, seed + INCREMENT, n - 1);
    }
  }

  /** The first `n` values drawn from a generator seeded with `seed`. */
  function Stream(seed: int, n: nat): (s: seq<real>)
    ensures |s| == n
  {
    Draws(Output, seed, n)
  }

  /** After `n` draws the seed has grown by exactly `n` increments. */
  lemma {:induction false} SeedAfterDraws(seed: int, n: nat)
    ensures SeedAfter(seed, n) == seed + n * INCREMENT
    decreases n
  {
    if n > 0 {
      SeedAfterDraws(seed + INCREMENT, n - 1);
    }
  }

  /** The `i`-th draw is made from the seed left by the `i` draws before it. */
  lemma {:induction false} DrawsAt(out: int -> real, seed: int, n: nat, i: nat)
    requires i < n
    ensures Draws(out, seed, n)[i] == out(SeedAfter(seed, i))
    decreases n
  {
    if i > 0 {
      DrawsAt(out, seed + INCREMENT, n - 1, i - 1);
    }
  }

  /**
   * The `i`-th draw is the output for the seed left by the `i` draws before
   * it, that is (SeedAfterDraws) for `seed + i * INCREMENT`.
   */
  lemma StreamAt(seed: int, n: nat, i: nat)
    requires i < n
    ensures Stream(seed, n)[i] == Output(SeedAfter(seed, i))
  {
    DrawsAt(Output, seed, n, i);
  }

  /** An output that reads the seed modulo 2^32 makes congruent seeds draw alike. */
  lemma {:induction false} DrawsModular(out: int -> real, seed: int, other: int, n: nat)
    requires forall a, b :: a % TWO_32 == b % TWO_32 ==> out(a) == out(b)
    requires seed % TWO_32 == other % TWO_32
    ensures Draws(out, seed, n) == Draws(out, other, n)
    decreases n
  {
    if n > 0 {
      ShiftModular(seed, other, INCREMENT);
      DrawsModular(out, seed + INCREMENT, other + INCREMENT, n - 1);
    }
  }

  /** Seeds congruent modulo 2^32 produce the same sequence of draws. */
  lemma StreamModular(seed: int, other: int, n: nat)
    requires seed % TWO_32 == other % TWO_32
    ensures Stream(seed, n) == Stream(other, n)
  {
    forall a, b | a % TWO_32 == b % TWO_32
      ensures Output(a) == Output(b)
    {
      OutputModular(a, b);
    }
    DrawsModular(Output, seed, other, n);
  }

  /** The generator object: its only state is the seed. */
  class RNG {
    var seed: int

    constructor(seed: int)
      ensures this.seed == seed
    {
      this.seed := seed;
    }

    /** Advances the seed and returns the scrambled value, in [0, 1). */
    method Random() returns (r: real)
      modifies this
      ensures seed == old(seed) + INCREMENT
      ensures r == Output(old(seed))
      ensures 0.0 <= r < 1.0
    {
      seed := seed + INCREMENT;
      var t := ToUint32(seed);
      r := ToUnit(Mix(t));
    }
  }

  /**
   * Calls `g.Random()` `n` times: the seed grows by `n` increments and the
   * values returned are the first `n` of the stream of the starting seed.
   */
  method DrawMany(g: RNG, n: nat) returns (rs: seq<real>)
    modifies g
    ensures g.seed == SeedAfter(old(g.seed), n) == old(g.seed) + n * INCREMENT
    ensures rs == Stream(old(g.seed), n)
  {
    ghost var s0 := g.seed;
    rs := [];
    var i := 0;
    while i < n
      invariant 0 <= i <= n
      invariant g.seed == SeedAfter(s0, i)
      invariant rs == Draws(Output, s0, i)
    {
      var r := g.Random();
      SeedAfterStep(s0, i);
      DrawsStep(Output, s0, i);
      rs := rs + [r];
      i := i + 1;
    }
    SeedAfterDraws(s0, n);
  }
}
