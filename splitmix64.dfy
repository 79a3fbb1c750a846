/** SplitMix64, the seed expander of both test harnesses (`splitmix64_next`,
 * identical in test_bigcrush.c and test_practrand.c): it adds the golden
 * gamma to a caller-owned word and returns a three-stage xor-shift/multiply
 * mix of the new value.
 */
module SplitMix64 {

  const Gamma: bv64 := 0x9e3779b97f4a7c15

  // The three statements after the addition in `splitmix64_next`.
  function Stage1(z: bv64): bv64 { (z ^ (z >> 30)) * 0xbf58476d1ce4e5b9 }
  function Stage2(z: bv64): bv64 { (z ^ (z >> 27)) * 0x94d049bb133111eb }
  function Stage3(z: bv64): bv64 { z ^ (z >> 31) }

  /** The output mix applied to the advanced state. */
  function Mix(z: bv64): bv64
  {
    Stage3(Stage2(Stage1(z)))
  }

  /** The state after one call. */
  function Advance(s: bv64): bv64
  {
    s + Gamma
  }

  /** The word one call returns from state s. */
  function Draw(s: bv64): bv64
  {
    Mix(Advance(s))
  }

  // Inverses of the three stages: 0x96de1b173f119089 and 0x319642b2d24d8ec3
  // are the inverses modulo 2^64 of the two odd multipliers, and
  // y ^ (y >> s) ^ (y >> 2s) ^ ... undoes z ^ (z >> s).
  function Unstage1(y: bv64): bv64 { var w := y * 0x96de1b173f119089; w ^ (w >> 30) ^ (w >> 60) }
  function Unstage2(y: bv64): bv64 { var w := y * 0x319642b2d24d8ec3; w ^ (w >> 27) ^ (w >> 54) }
  function Unstage3(y: bv64): bv64 { y ^ (y >> 31) ^ (y >> 62) }

  /** A reference inverse of the mix. */
  function Unmix(y: bv64): bv64
  {
    Unstage1(Unstage2(Unstage3(y)))
  }

  // Each stage identity is first stated on the literal expression of the
  // stage, the form the solver decides without search.
  lemma Unstage1Literal(z: bv64) ensures Unstage1((z ^ (z >> 30)) * 0xbf58476d1ce4e5b9) == z {}
  lemma Unstage2Literal(z: bv64) ensures Unstage2((z ^ (z >> 27)) * 0x94d049bb133111eb) == z {}
  lemma Unstage3Literal(z: bv64) ensures Unstage3(z ^ (z >> 31)) == z {}

  lemma Unstage1Stage1(z: bv64) ensures Unstage1(Stage1(z)) == z { Unstage1Literal(z); }
  lemma Unstage2Stage2(z: bv64) ensures Unstage2(Stage2(z)) == z { Unstage2Literal(z); }
  lemma Unstage3Stage3(z: bv64) ensures Unstage3(Stage3(z)) == z { Unstage3Literal(z); }

  /** The mix is a bijection on 64-bit words: Unmix undoes it. */
  lemma {:induction false} UnmixMix(z: bv64)
    ensures Unmix(Mix(z)) == z
  {
    Unstage1Stage1(z);
    Unstage2Stage2(Stage1(z));
    Unstage3Stage3(Stage2(Stage1(z)));
  }

  /** Distinct states give distinct outputs. */
  lemma MixInjective(x: bv64, y: bv64)
    ensures Mix(x) == Mix(y) <==> x == y
  {
    UnmixMix(x);
    UnmixMix(y);
  }

  /** The mix maps 0, and only 0, to 0. */
  lemma MixZero(z: bv64)
    ensures Mix(z) == 0 <==> z == 0
  {
    UnmixMix(z);
    assert Unmix(0) == 0;
  }

  /** Two successive calls never return the same word, and so never return
      two zeros. */
  lemma {:induction false} SuccessiveDrawsDiffer(s: bv64)
    ensures Draw(s) != Draw(Advance(s))
    ensures !(Draw(s) == 0 && Draw(Advance(s)) == 0)
  {
    MixInjective(Advance(s), Advance(Advance(s)));
  }

  /** Two successive calls advance the caller's word by 2 * gamma modulo 2^64. */
  lemma TwoCallsAdvance(s: bv64)
    ensures Advance(Advance(s)) == s + 0x3c6ef372fe94f82a
  {
  }

  /** Known answer: the first output from state 0. */
  lemma FirstDrawFromZero()
    ensures Advance(0) == Gamma
    ensures Draw(0) == 0xe220a8397b1dcdaf
  {
  }

  /** The caller-owned word that `splitmix64_next` updates through its
      `sm_state` pointer. */
  class Accumulator {
    var state: bv64

    constructor (seed: bv64)
      ensures state == seed
    {
      state := seed;
    }

    /** `splitmix64_next(&state)`. */
    method Next() returns (z: bv64)
      modifies this
      ensures state == Advance(old(state))
      ensures z == Draw(old(state))
    {
      state := state + Gamma;
      z := Stage1(state);
      z := Stage2(z);
      z := Stage3(z);
    }
  }
}
