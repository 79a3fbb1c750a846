/** wyrand, the second comparison generator of benchmark.c. Its state is the
 * global counter `wyrand_seed`; each call first advances the counter by a
 * fixed odd increment and then returns the xor of the two halves of the full
 * 128-bit product of the new counter with a keyed copy of itself.
 */
module Wyrand {
  import opened Word64
  import Stream

  /** The amount `wyrand` adds to `wyrand_seed` on every call. */
  const Increment: bv64 := 0xa0761d6478bd642f

  /** The constant the counter is xor-ed with before the multiplication. */
  const XorKey: bv64 := 0xe7037ed1a0b428db

  /** The product `(__uint128_t)a * b`. Both operands are below 2^64, so the
      128-bit product never wraps. */
  function WideProduct(a: bv64, b: bv64): bv128
  {
    (a as bv128) * (b as bv128)
  }

  /** `(uint64_t)(t >> 64)`, the high half. */
  function High(t: bv128): bv64
  {
    (t >> 64) as bv64
  }

  /** `(uint64_t)t`, the low half. */
  function Low(t: bv128): bv64
  {
    (t & 0xFFFF_FFFF_FFFF_FFFF) as bv64
  }

  /** The two halves the output combines lose nothing: together they
      rebuild the product. */
  lemma HalvesRebuild(t: bv128)
    ensures ((High(t) as bv128) << 64) | (Low(t) as bv128) == t
  {
  }

  /** The word returned for the already advanced counter c. */
  function Scramble(c: bv64): bv64
  {
    var t := WideProduct(c ^ XorKey, c);
    High(t) ^ Low(t)
  }

  /** The counter after one call. */
  function Step(c: bv64): bv64
  {
    c + Increment
  }

  /** The word one call returns: the counter is advanced before it is used. */
  function Output(c: bv64): bv64
  {
    Scramble(Step(c))
  }

  /** The counter before a call, recovered from the counter after it. */
  function Unstep(c: bv64): (p: bv64)
    ensures Step(p) == c
  {
    c - Increment
  }

  /** A call can be undone: the counter update is a bijection on 64-bit
      words, so no two counters lead to the same next counter. */
  lemma UnstepStep(c: bv64)
    ensures Unstep(Step(c)) == c
  {
  }

  lemma StepInjective(a: bv64, b: bv64)
    ensures Step(a) == Step(b) <==> a == b
  {
    UnstepStep(a);
    UnstepStep(b);
  }

  /** The increment is not zero, so every call moves the counter. */
  lemma StepMoves(c: bv64)
    ensures Step(c) != c
  {
  }

  /** Any run of calls can be undone by as many reverse steps. */
  lemma RunUndone(c: bv64, n: nat)
    ensures Stream.Iterate(Unstep, Stream.Iterate(Step, c, n), n) == c
  {
    forall x: bv64
      ensures Unstep(Step(x)) == x
    {
      UnstepStep(x);
    }
    Stream.IterateUndo(Step, Unstep, c, n);
  }

  /** Adding one to a 64-bit word, wrapping at 2^64. */
  function Tick(k: bv64): bv64
  {
    k + 1
  }

  /** A call count as the 64-bit word it wraps to: n additions of 1. */
  function CountWord(n: nat): bv64
  {
    Stream.Iterate(Tick, 0, n)
  }

  /** The counter after k calls from 0, as one wrapping product. */
  function Times(k: bv64): bv64
  {
    k * Increment
  }

  /** One more call adds one more increment to the product. */
  lemma StepTimes(k: bv64)
    ensures Step(Times(k)) == Times(k + 1)
  {
  }

  /** Closed form of the counter: after n calls from the reset value 0 it
      holds n * 0xa0761d6478bd642f modulo 2^64. */
  lemma CounterFromZero(n: nat)
    ensures Stream.Iterate(Step, 0, n) == Times(CountWord(n))
  {
    forall k: bv64
      ensures Step(Times(k)) == Times(Tick(k))
    {
      StepTimes(k);
      assert Tick(k) == k + 1;
    }
    assert Times(0) == 0;
    Stream.IterateMap(Step, Times, Tick, 0, n);
  }

  /** Known answer: the first three words from the counter 0. */
  lemma FirstOutputsFromZero()
    ensures Stream.Outputs(Step, Output, 0, 3) == [0x111cb3a78f59a58e, 0xceabd938ff4e856d, 0x61fb51318f47d2a4]
  {
    var c1 := Step(0);
    assert c1 == 0xa0761d6478bd642f;
    var c2 := Step(c1);
    assert c2 == 0x40ec3ac8f17ac85e;
    var c3 := Step(c2);
    assert c3 == 0xe162582d6a382c8d;
    assert Stream.Iterate(Step, 0, 2) == c2;
    assert WideProduct(c1 ^ XorKey, c1) == 0x2cca56a1f4b1d5423dd6e5067be870cc;
    assert WideProduct(c2 ^ XorKey, c2) == 0x2a96c829228eddbbe43d1111ddc058d6;
    assert WideProduct(c3 ^ XorKey, c3) == 0x059dd6a7a1eaf9fa646687962ead2b5e;
  }

  /** The global `wyrand_seed`. */
  class Generator {
    var seed: bv64

    /** `uint64_t wyrand_seed = 0;` */
    constructor ()
      ensures seed == 0
    {
      seed := 0;
    }

    /** `wyrand_seed = 0;` before the benchmark loop. */
    method Reset()
      modifies this
      ensures seed == 0
    {
      seed := 0;
    }

    /** `wyrand`: the counter is advanced first, and the word is computed
        from its new value. */
    method Next() returns (r: bv64)
      modifies this
      ensures seed == Step(old(seed))
      ensures r == Output(old(seed))
    {
      seed := seed + Increment;
      r := Scramble(seed);
    }
  }
}
