/** DualMix128, the generator under test in all three programs
 * (`dualMix128` in benchmark.c, test_bigcrush.c and test_practrand.c, whose
 * state updates are identical). The state is the two globals `state0` and
 * `state1`; one call computes `mix = state0 + state1` once, from the values
 * before the call, and both new words and the output derive from it.
 */
module DualMix128 {
  import opened Word64
  import Stream

  /** Golden ratio constant GR: the fractional part of the golden ratio times 2^64. */
  const GR: bv64 := 0x9e3779b97f4a7c15

  /** The pair (state0, state1). */
  datatype State = State(s0: bv64, s1: bv64)

  const Zero := State(0, 0)

  // One call, word by word, on the values of state0 and state1 before it.

  /** `mix`, the sum both new words and the output are built from. */
  function Mix(s0: bv64, s1: bv64): bv64 { s0 + s1 }

  /** `uint64_t` addition, named so that proofs can refer to a sum as a whole. */
  function Add(x: bv64, y: bv64): bv64 { x + y }

  /** The new `state0`: mix + rotateLeft(state0, 16). */
  function NextState0(s0: bv64, s1: bv64): bv64 { Add(Mix(s0, s1), RotateLeft(s0, 16)) }

  /** The new `state1`: mix + rotateLeft(state1, 2). */
  function NextState1(s0: bv64, s1: bv64): bv64 { Add(Mix(s0, s1), RotateLeft(s1, 2)) }

  /** The returned word `GR * mix`. */
  function Scramble(s0: bv64, s1: bv64): bv64 { GR * Mix(s0, s1) }

  /** The state after one call. */
  function Step(s: State): State
  {
    State(NextState0(s.s0, s.s1), NextState1(s.s0, s.s1))
  }

  /** The raw 64-bit word returned by benchmark.c and test_practrand.c. */
  function Output(s: State): bv64
  {
    Scramble(s.s0, s.s1)
  }

  /** The top 53 bits of a word, as an integer below 2^53: shifted back into
      place and joined with the 11 low bits that were dropped, they rebuild
      the word. */
  function Top53(w: bv64): (u: bv64)
    ensures u < 0x20_0000_0000_0000
    ensures (u << 11) | (w & 0x7FF) == w
  {
    w >> 11
  }

  /** The integer test_bigcrush.c scales by 2^-53, so the double it returns
      lies in [0, 1). */
  function Unit53(s: State): bv64
  {
    Top53(Output(s))
  }

  /** From (0, 0) the generator returns 0 and stays at (0, 0). */
  lemma ZeroIsFixedPoint()
    ensures Output(Zero) == 0 && Step(Zero) == Zero
  {
  }

  /** From (1, 0), mix is 1, so the output is GR itself. */
  lemma OneZeroOutputsGR()
    ensures Mix(1, 0) == 1
    ensures Output(State(1, 0)) == GR
    ensures Step(State(1, 0)) == State(0x1_0001, 1)
  {
  }

  /** Three calls from the seeds benchmark.c uses. */
  lemma BenchmarkSeedVector()
    ensures var s := State(0xDEADBEEF12345678, 0xABCDEF0123456789);
      Stream.Outputs(Step, Output, s, 3) == [0x565c40c7c64f1215, 0x2d6d610afdc29579, 0x194e33e99ab25570]
  {
    var s0 := State(0xDEADBEEF12345678, 0xABCDEF0123456789);
    assert NextState0(0xDEADBEEF12345678, 0xABCDEF0123456789) == 0x496ac0248bf29cae;
    assert NextState1(0xDEADBEEF12345678, 0xABCDEF0123456789) == 0x39b369f4c28f5c27;
    var s1 := Step(s0);
    assert s1 == State(0x496ac0248bf29cae, 0x39b369f4c28f5c27);
    assert NextState0(0x496ac0248bf29cae, 0x39b369f4c28f5c27) == 0x4342b60beb30423f;
    assert NextState1(0x496ac0248bf29cae, 0x39b369f4c28f5c27) == 0x69ebd1ec58bf6971;
    var s2 := Step(s1);
    assert s2 == State(0x4342b60beb30423f, 0x69ebd1ec58bf6971);
    assert Stream.Iterate(Step, s0, 2) == s2;
    assert Scramble(0xDEADBEEF12345678, 0xABCDEF0123456789) == 0x565c40c7c64f1215;
    assert Scramble(0x496ac0248bf29cae, 0x39b369f4c28f5c27) == 0x2d6d610afdc29579;
    assert Scramble(0x4342b60beb30423f, 0x69ebd1ec58bf6971) == 0x194e33e99ab25570;
  }

  // (0, 0) is reached only from (0, 0). If both new words are 0, each
  // rotated old word is -mix, so the old words are -mix rotated right by 16
  // and by 2, and their sum, mix itself, must satisfy ZeroPreimageMix; only
  // mix == 0 does.

  /** The sum of the two words a state stepping to (0, 0) must hold, given
      its mix m, equals m. */
  predicate ZeroPreimageMix(m: bv64)
  {
    Mix((-m).RotateRight(16), (-m).RotateRight(2)) == m
  }

  /** Only m == 0 is such a mix. The solver decides this one residue of m
      modulo 64 at a time. */
  lemma ZeroPreimageMixIsZero(m: bv64)
    ensures ZeroPreimageMix(m) ==> m == 0
  {
    ZeroPreimageLowBits0(m);
    ZeroPreimageLowBits1(m);
    ZeroPreimageLowBits2(m);
    ZeroPreimageLowBits3(m);
    ZeroPreimageLowBits4(m);
    ZeroPreimageLowBits5(m);
    ZeroPreimageLowBits6(m);
    ZeroPreimageLowBits7(m);
    ZeroPreimageLowBits8(m);
    ZeroPreimageLowBits9(m);
    ZeroPreimageLowBits10(m);
    ZeroPreimageLowBits11(m);
    ZeroPreimageLowBits12(m);
    ZeroPreimageLowBits13(m);
    ZeroPreimageLowBits14(m);
    ZeroPreimageLowBits15(m);
    ZeroPreimageLowBits16(m);
    ZeroPreimageLowBits17(m);
    ZeroPreimageLowBits18(m);
    ZeroPreimageLowBits19(m);
    ZeroPreimageLowBits20(m);
    ZeroPreimageLowBits21(m);
    ZeroPreimageLowBits22(m);
    ZeroPreimageLowBits23(m);
    ZeroPreimageLowBits24(m);
    ZeroPreimageLowBits25(m);
    ZeroPreimageLowBits26(m);
    ZeroPreimageLowBits27(m);
    ZeroPreimageLowBits28(m);
    ZeroPreimageLowBits29(m);
    ZeroPreimageLowBits30(m);
    ZeroPreimageLowBits31(m);
    ZeroPreimageLowBits32(m);
    ZeroPreimageLowBits33(m);
    ZeroPreimageLowBits34(m);
    ZeroPreimageLowBits35(m);
    ZeroPreimageLowBits36(m);
    ZeroPreimageLowBits37(m);
    ZeroPreimageLowBits38(m);
    ZeroPreimageLowBits39(m);
    ZeroPreimageLowBits40(m);
    ZeroPreimageLowBits41(m);
    ZeroPreimageLowBits42(m);
    ZeroPreimageLowBits43(m);
    ZeroPreimageLowBits44(m);
    ZeroPreimageLowBits45(m);
    ZeroPreimageLowBits46(m);
    ZeroPreimageLowBits47(m);
    ZeroPreimageLowBits48(m);
    ZeroPreimageLowBits49(m);
    ZeroPreimageLowBits50(m);
    ZeroPreimageLowBits51(m);
    ZeroPreimageLowBits52(m);
    ZeroPreimageLowBits53(m);
    ZeroPreimageLowBits54(m);
    ZeroPreimageLowBits55(m);
    ZeroPreimageLowBits56(m);
    ZeroPreimageLowBits57(m);
    ZeroPreimageLowBits58(m);
    ZeroPreimageLowBits59(m);
    ZeroPreimageLowBits60(m);
    ZeroPreimageLowBits61(m);
    ZeroPreimageLowBits62(m);
    ZeroPreimageLowBits63(m);
  }

  lemma AddZero(x: bv64, y: bv64)
    requires Add(x, y) == 0
    ensures y == -x
  {
  }

  lemma NewState0Zero(a: bv64, b: bv64)
    requires NextState0(a, b) == 0
    ensures RotateLeft(a, 16) == -Mix(a, b)
  {
    AddZero(Mix(a, b), RotateLeft(a, 16));
  }

  lemma NewState1Zero(a: bv64, b: bv64)
    requires NextState1(a, b) == 0
    ensures RotateLeft(b, 2) == -Mix(a, b)
  {
    AddZero(Mix(a, b), RotateLeft(b, 2));
  }

  lemma RotateBack16(x: bv64, c: bv64)
    requires RotateLeft(x, 16) == c
    ensures x == c.RotateRight(16)
  {
    RoundTripBy16(x);
    RotateLeftBy48(c);
  }

  lemma RotateBack2(x: bv64, c: bv64)
    requires RotateLeft(x, 2) == c
    ensures x == c.RotateRight(2)
  {
    RoundTripBy2(x);
    RotateLeftBy62(c);
  }

  lemma Unrotate0(a: bv64, b: bv64)
    requires RotateLeft(a, 16) == -Mix(a, b)
    ensures a == (-Mix(a, b)).RotateRight(16)
  {
    RotateBack16(a, -Mix(a, b));
  }

  lemma Unrotate1(a: bv64, b: bv64)
    requires RotateLeft(b, 2) == -Mix(a, b)
    ensures b == (-Mix(a, b)).RotateRight(2)
  {
    RotateBack2(b, -Mix(a, b));
  }

  lemma ZeroUpdateWord0(a: bv64, b: bv64)
    requires NextState0(a, b) == 0
    ensures a == (-Mix(a, b)).RotateRight(16)
  {
    NewState0Zero(a, b);
    Unrotate0(a, b);
  }

  lemma ZeroUpdateWord1(a: bv64, b: bv64)
    requires NextState1(a, b) == 0
    ensures b == (-Mix(a, b)).RotateRight(2)
  {
    NewState1Zero(a, b);
    Unrotate1(a, b);
  }

  lemma ZeroUpdateMix(a: bv64, b: bv64)
    requires NextState0(a, b) == 0 && NextState1(a, b) == 0
    ensures ZeroPreimageMix(Mix(a, b))
  {
    ZeroUpdateWord0(a, b);
    ZeroUpdateWord1(a, b);
  }

  lemma ZeroMixWords(a: bv64, b: bv64)
    requires Mix(a, b) == 0
    requires a == (-Mix(a, b)).RotateRight(16) && b == (-Mix(a, b)).RotateRight(2)
    ensures a == 0 && b == 0
  {
  }

  /** Both new words are 0 exactly when both old words are. */
  lemma {:induction false} StepZeroWords(a: bv64, b: bv64)
    ensures NextState0(a, b) == 0 && NextState1(a, b) == 0 <==> a == 0 && b == 0
  {
    if NextState0(a, b) == 0 && NextState1(a, b) == 0 {
      ZeroUpdateMix(a, b);
      ZeroPreimageMixIsZero(Mix(a, b));
      ZeroUpdateWord0(a, b);
      ZeroUpdateWord1(a, b);
      ZeroMixWords(a, b);
    }
  }

  /** A call never turns a non-zero state into (0, 0). */
  lemma {:induction false} OnlyZeroStepsToZero(s: State)
    ensures Step(s) == Zero <==> s == Zero
  {
    StepZeroWords(s.s0, s.s1);
  }

  /** A non-zero seed never reaches the degenerate fixed point. */
  lemma {:induction false} NonZeroStaysNonZero(s: State, n: nat)
    requires s != Zero
    ensures Stream.Iterate(Step, s, n) != Zero
  {
    forall x: State
      ensures Step(x) == Zero ==> x == Zero
    {
      OnlyZeroStepsToZero(x);
    }
    Stream.AvoidsFixedPoint(Step, Zero, s, n);
  }

  /** Every word of a run of the test_bigcrush.c variant is below 2^53. */
  lemma {:induction false} Unit53RunBounded(s: State, n: nat)
    ensures forall k :: 0 <= k < n ==> Stream.Outputs(Step, Unit53, s, n)[k] < 0x20_0000_0000_0000
  {
    forall k | 0 <= k < n
      ensures Stream.Outputs(Step, Unit53, s, n)[k] < 0x20_0000_0000_0000
    {
      Stream.OutputsAt(Step, Unit53, s, n, k);
    }
  }

  /** The globals `state0` and `state1` of one program. */
  class Generator {
    var state0: bv64
    var state1: bv64

    function Current(): State
      reads this
    {
      State(state0, state1)
    }

    constructor ()
      ensures Current() == Zero
    {
      state0, state1 := 0, 0;
    }

    /** `seed_dualmix128` in benchmark.c: stores both words verbatim, (0, 0)
        included. */
    method Seed(seed1: bv64, seed2: bv64)
      modifies this
      ensures Current() == State(seed1, seed2)
    {
      state0 := seed1;
      state1 := seed2;
    }

    /** `dualMix128` of benchmark.c and test_practrand.c: both new words and
        the result are computed from the values before the call. */
    method Next() returns (r: bv64)
      modifies this
      ensures Current() == Step(old(Current()))
      ensures r == Output(old(Current()))
    {
      var s0, s1 := state0, state1;
      state0 := NextState0(s0, s1);
      state1 := NextState1(s0, s1);
      r := Scramble(s0, s1);
    }

    /** `dualMix128` of test_bigcrush.c, up to the final scaling by 2^-53:
        the same state update, and the top 53 bits of the same word. */
    method NextUnit53() returns (u: bv64)
      modifies this
      ensures Current() == Step(old(Current()))
      ensures u == Unit53(old(Current()))
      ensures u < 0x20_0000_0000_0000
    {
      var s0, s1 := state0, state1;
      state0 := NextState0(s0, s1);
      state1 := NextState1(s0, s1);
      u := Top53(Scramble(s0, s1));
    }
  }

  // ZeroPreimageMix decided one residue of m modulo 64 at a time.
  lemma ZeroPreimageLowBits0(m: bv64) ensures m & 63 == 0 && ZeroPreimageMix(m) ==> m == 0 {}
  lemma ZeroPreimageLowBits1(m: bv64) ensures m & 63 == 1 && ZeroPreimageMix(m) ==> m == 0 {}
  lemma ZeroPreimageLowBits2(m: bv64) ensures m & 63 == 2 && ZeroPreimageMix(m) ==> m == 0 {}
  lemma ZeroPreimageLowBits3(m: bv64) ensures m & 63 == 3 && ZeroPreimageMix(m) ==> m == 0 {}
  lemma ZeroPreimageLowBits4(m: bv64) ensures m & 63 == 4 && ZeroPreimageMix(m) ==> m == 0 {}
  lemma ZeroPreimageLowBits5(m: bv64) ensures m & 63 == 5 && ZeroPreimageMix(m) ==> m == 0 {}
  lemma ZeroPreimageLowBits6(m: bv64) ensures m & 63 == 6 && ZeroPreimageMix(m) ==> m == 0 {}
  lemma ZeroPreimageLowBits7(m: bv64) ensures m & 63 == 7 && ZeroPreimageMix(m) ==> m == 0 {}
  lemma ZeroPreimageLowBits8(m: bv64) ensures m & 63 == 8 && ZeroPreimageMix(m) ==> m == 0 {}
  lemma ZeroPreimageLowBits9(m: bv64) ensures m & 63 == 9 && ZeroPreimageMix(m) ==> m == 0 {}
  lemma ZeroPreimageLowBits10(m: bv64) ensures m & 63 == 10 && ZeroPreimageMix(m) ==> m == 0 {}
  lemma ZeroPreimageLowBits11(m: bv64) ensures m & 63 == 11 && ZeroPreimageMix(m) ==> m == 0 {}
  lemma ZeroPreimageLowBits12(m: bv64) ensures m & 63 == 12 && ZeroPreimageMix(m) ==> m == 0 {}
  lemma ZeroPreimageLowBits13(m: bv64) ensures m & 63 == 13 && ZeroPreimageMix(m) ==> m == 0 {}
  lemma ZeroPreimageLowBits14(m: bv64) ensures m & 63 == 14 && ZeroPreimageMix(m) ==> m == 0 {}
  lemma ZeroPreimageLowBits15(m: bv64) ensures m & 63 == 15 && ZeroPreimageMix(m) ==> m == 0 {}
  lemma ZeroPreimageLowBits16(m: bv64) ensures m & 63 == 16 && ZeroPreimageMix(m) ==> m == 0 {}
  lemma ZeroPreimageLowBits17(m: bv64) ensures m & 63 == 17 && ZeroPreimageMix(m) ==> m == 0 {}
  lemma ZeroPreimageLowBits18(m: bv64) ensures m & 63 == 18 && ZeroPreimageMix(m) ==> m == 0 {}
  lemma ZeroPreimageLowBits19(m: bv64) ensures m & 63 == 19 && ZeroPreimageMix(m) ==> m == 0 {}
  lemma ZeroPreimageLowBits20(m: bv64) ensures m & 63 == 20 && ZeroPreimageMix(m) ==> m == 0 {}
  lemma ZeroPreimageLowBits21(m: bv64) ensures m & 63 == 21 && ZeroPreimageMix(m) ==> m == 0 {}
  lemma ZeroPreimageLowBits22(m: bv64) ensures m & 63 == 22 && ZeroPreimageMix(m) ==> m == 0 {}
  lemma ZeroPreimageLowBits23(m: bv64) ensures m & 63 == 23 && ZeroPreimageMix(m) ==> m == 0 {}
  lemma ZeroPreimageLowBits24(m: bv64) ensures m & 63 == 24 && ZeroPreimageMix(m) ==> m == 0 {}
  lemma ZeroPreimageLowBits25(m: bv64) ensures m & 63 == 25 && ZeroPreimageMix(m) ==> m == 0 {}
  lemma ZeroPreimageLowBits26(m: bv64) ensures m & 63 == 26 && ZeroPreimageMix(m) ==> m == 0 {}
  lemma ZeroPreimageLowBits27(m: bv64) ensures m & 63 == 27 && ZeroPreimageMix(m) ==> m == 0 {}
  lemma ZeroPreimageLowBits28(m: bv64) ensures m & 63 == 28 && ZeroPreimageMix(m) ==> m == 0 {}
  lemma ZeroPreimageLowBits29(m: bv64) ensures m & 63 == 29 && ZeroPreimageMix(m) ==> m == 0 {}
  lemma ZeroPreimageLowBits30(m: bv64) ensures m & 63 == 30 && ZeroPreimageMix(m) ==> m == 0 {}
  lemma ZeroPreimageLowBits31(m: bv64) ensures m & 63 == 31 && ZeroPreimageMix(m) ==> m == 0 {}
  lemma ZeroPreimageLowBits32(m: bv64) ensures m & 63 == 32 && ZeroPreimageMix(m) ==> m == 0 {}
  lemma ZeroPreimageLowBits33(m: bv64) ensures m & 63 == 33 && ZeroPreimageMix(m) ==> m == 0 {}
  lemma ZeroPreimageLowBits34(m: bv64) ensures m & 63 == 34 && ZeroPreimageMix(m) ==> m == 0 {}
  lemma ZeroPreimageLowBits35(m: bv64) ensures m & 63 == 35 && ZeroPreimageMix(m) ==> m == 0 {}
  lemma ZeroPreimageLowBits36(m: bv64) ensures m & 63 == 36 && ZeroPreimageMix(m) ==> m == 0 {}
  lemma ZeroPreimageLowBits37(m: bv64) ensures m & 63 == 37 && ZeroPreimageMix(m) ==> m == 0 {}
  lemma ZeroPreimageLowBits38(m: bv64) ensures m & 63 == 38 && ZeroPreimageMix(m) ==> m == 0 {}
  lemma ZeroPreimageLowBits39(m: bv64) ensures m & 63 == 39 && ZeroPreimageMix(m) ==> m == 0 {}
  lemma ZeroPreimageLowBits40(m: bv64) ensures m & 63 == 40 && ZeroPreimageMix(m) ==> m == 0 {}
  lemma ZeroPreimageLowBits41(m: bv64) ensures m & 63 == 41 && ZeroPreimageMix(m) ==> m == 0 {}
  lemma ZeroPreimageLowBits42(m: bv64) ensures m & 63 == 42 && ZeroPreimageMix(m) ==> m == 0 {}
  lemma ZeroPreimageLowBits43(m: bv64) ensures m & 63 == 43 && ZeroPreimageMix(m) ==> m == 0 {}
  lemma ZeroPreimageLowBits44(m: bv64) ensures m & 63 == 44 && ZeroPreimageMix(m) ==> m == 0 {}
  lemma ZeroPreimageLowBits45(m: bv64) ensures m & 63 == 45 && ZeroPreimageMix(m) ==> m == 0 {}
  lemma ZeroPreimageLowBits46(m: bv64) ensures m & 63 == 46 && ZeroPreimageMix(m) ==> m == 0 {}
  lemma ZeroPreimageLowBits47(m: bv64) ensures m & 63 == 47 && ZeroPreimageMix(m) ==> m == 0 {}
  lemma ZeroPreimageLowBits48(m: bv64) ensures m & 63 == 48 && ZeroPreimageMix(m) ==> m == 0 {}
  lemma ZeroPreimageLowBits49(m: bv64) ensures m & 63 == 49 && ZeroPreimageMix(m) ==> m == 0 {}
  lemma ZeroPreimageLowBits50(m: bv64) ensures m & 63 == 50 && ZeroPreimageMix(m) ==> m == 0 {}
  lemma ZeroPreimageLowBits51(m: bv64) ensures m & 63 == 51 && ZeroPreimageMix(m) ==> m == 0 {}
  lemma ZeroPreimageLowBits52(m: bv64) ensures m & 63 == 52 && ZeroPreimageMix(m) ==> m == 0 {}
  lemma ZeroPreimageLowBits53(m: bv64) ensures m & 63 == 53 && ZeroPreimageMix(m) ==> m == 0 {}
  lemma ZeroPreimageLowBits54(m: bv64) ensures m & 63 == 54 && ZeroPreimageMix(m) ==> m == 0 {}
  lemma ZeroPreimageLowBits55(m: bv64) ensures m & 63 == 55 && ZeroPreimageMix(m) ==> m == 0 {}
  lemma ZeroPreimageLowBits56(m: bv64) ensures m & 63 == 56 && ZeroPreimageMix(m) ==> m == 0 {}
  lemma ZeroPreimageLowBits57(m: bv64) ensures m & 63 == 57 && ZeroPreimageMix(m) ==> m == 0 {}
  lemma ZeroPreimageLowBits58(m: bv64) ensures m & 63 == 58 && ZeroPreimageMix(m) ==> m == 0 {}
  lemma ZeroPreimageLowBits59(m: bv64) ensures m & 63 == 59 && ZeroPreimageMix(m) ==> m == 0 {}
  lemma ZeroPreimageLowBits60(m: bv64) ensures m & 63 == 60 && ZeroPreimageMix(m) ==> m == 0 {}
  lemma ZeroPreimageLowBits61(m: bv64) ensures m & 63 == 61 && ZeroPreimageMix(m) ==> m == 0 {}
  lemma ZeroPreimageLowBits62(m: bv64) ensures m & 63 == 62 && ZeroPreimageMix(m) ==> m == 0 {}
  lemma ZeroPreimageLowBits63(m: bv64) ensures m & 63 == 63 && ZeroPreimageMix(m) ==> m == 0 {}
}
