/** xoroshiro128++ (Blackman and Vigna), the first comparison generator of
 * benchmark.c. Its state is the global array `xoro_s[2]`; the result is
 * computed from the state before the call, then the state is replaced.
 */
module Xoroshiro128pp {
  import opened Word64
  import Stream

  /** The pair (xoro_s[0], xoro_s[1]). */
  datatype State = State(s0: bv64, s1: bv64)

  const Zero := State(0, 0)

  // One call, word by word, on the values of xoro_s[0] and xoro_s[1]
  // before it.

  /** `result = rotateLeft(s0 + s1, 17) + s0`. */
  function Result(s0: bv64, s1: bv64): bv64 { RotateLeft(s0 + s1, 17) + s0 }

  /** `r ^ t ^ (t << 21)`, the a and b terms of the update of `xoro_s[0]`. */
  function XorShift21(r: bv64, t: bv64): bv64 { r ^ t ^ (t << 21) }

  /** The new `xoro_s[0]`: with s1' = s0 ^ s1, rotl(s0, 49) ^ s1' ^ (s1' << 21). */
  function NextWord0(s0: bv64, s1: bv64): bv64
  {
    XorShift21(RotateLeft(s0, 49), s0 ^ s1)
  }

  /** The new `xoro_s[1]`: rotl(s0 ^ s1, 28). */
  function NextWord1(s0: bv64, s1: bv64): bv64 { RotateLeft(s0 ^ s1, 28) }

  /** The state after one call. */
  function Step(s: State): State
  {
    State(NextWord0(s.s0, s.s1), NextWord1(s.s0, s.s1))
  }

  /** The word one call returns. */
  function Output(s: State): bv64
  {
    Result(s.s0, s.s1)
  }

  /** A reference inverse of the state update: the rotation by 28 and then
      the xor with s0 rotated by 49 are undone in reverse order. */
  function PreviousWord0(n0: bv64, n1: bv64): bv64
  {
    var t := n1.RotateRight(28);
    (n0 ^ t ^ (t << 21)).RotateRight(49)
  }

  function PreviousWord1(n0: bv64, n1: bv64): bv64
  {
    n1.RotateRight(28) ^ PreviousWord0(n0, n1)
  }

  function Unstep(s: State): State
  {
    State(PreviousWord0(s.s0, s.s1), PreviousWord1(s.s0, s.s1))
  }

  // The inverse on the new words written with bitwise rotations, where
  // t = s0 ^ s1.
  lemma PreviousWordsLiteral(a: bv64, t: bv64)
    ensures PreviousWord0(XorShift21(a.RotateLeft(49), t), t.RotateLeft(28)) == a
    ensures PreviousWord1(XorShift21(a.RotateLeft(49), t), t.RotateLeft(28)) == t ^ a
  {
  }

  lemma {:induction false} PreviousWords(a: bv64, b: bv64)
    ensures PreviousWord0(NextWord0(a, b), NextWord1(a, b)) == a
    ensures PreviousWord1(NextWord0(a, b), NextWord1(a, b)) == b
  {
    RotateLeftBy49(a);
    RotateLeftBy28(a ^ b);
    PreviousWordsLiteral(a, a ^ b);
  }

  /** The state update is a bijection: Unstep undoes it. */
  lemma {:induction false} UnstepStep(s: State)
    ensures Unstep(Step(s)) == s
  {
    PreviousWords(s.s0, s.s1);
  }

  /** Distinct states step to distinct states. */
  lemma StepInjective(s: State, t: State)
    ensures Step(s) == Step(t) <==> s == t
  {
    UnstepStep(s);
    UnstepStep(t);
  }

  /** Any run of calls can be undone by as many reverse steps. */
  lemma RunUndone(s: State, n: nat)
    ensures Stream.Iterate(Unstep, Stream.Iterate(Step, s, n), n) == s
  {
    forall x: State
      ensures Unstep(Step(x)) == x
    {
      UnstepStep(x);
    }
    Stream.IterateUndo(Step, Unstep, s, n);
  }

  /** (0, 0) is a fixed point that returns 0. */
  lemma ZeroIsFixedPoint()
    ensures Step(Zero) == Zero && Output(Zero) == 0
  {
  }

  /** (0, 0) is reached only from itself, so a non-zero seed, as
      `seed_xoroshiro128pp` assumes, never reaches it. */
  lemma OnlyZeroStepsToZero(s: State)
    ensures Step(s) == Zero <==> s == Zero
  {
    StepInjective(s, Zero);
  }

  lemma {:induction false} NonZeroStaysNonZero(s: State, n: nat)
    requires s != Zero
    ensures Stream.Iterate(Step, s, n) != Zero
  {
    forall x: State
      ensures Step(x) == Zero ==> x == Zero
    {
      ZeroIsFixedPoint();
      StepInjective(x, Zero);
    }
    Stream.AvoidsFixedPoint(Step, Zero, s, n);
  }

  /** Three calls from the seeds benchmark.c uses. */
  lemma BenchmarkSeedVector()
    ensures var s := State(0x12345678DEADBEEF, 0x6789ABCDEF012345);
      Stream.Outputs(Step, Output, s, 3) == [0x16c1f1d6a316b26b, 0x2b178b4029b544b2, 0x601473b1f56d7e54]
  {
    var s0 := State(0x12345678DEADBEEF, 0x6789ABCDEF012345);
    assert NextWord0(0x12345678DEADBEEF, 0x6789ABCDEF012345) == 0xbec5ec4e281d20f1;
    assert NextWord1(0x12345678DEADBEEF, 0x6789ABCDEF012345) == 0x531ac9daa75bdfdb;
    var s1 := Step(s0);
    assert s1 == State(0xbec5ec4e281d20f1, 0x531ac9daa75bdfdb);
    assert NextWord0(0xbec5ec4e281d20f1, 0x531ac9daa75bdfdb) == 0x1eadb0c0b29aaf10;
    assert NextWord1(0xbec5ec4e281d20f1, 0x531ac9daa75bdfdb) == 0x48f46ff2aeddf259;
    var s2 := Step(s1);
    assert s2 == State(0x1eadb0c0b29aaf10, 0x48f46ff2aeddf259);
    assert Stream.Iterate(Step, s0, 2) == s2;
    assert Result(0x12345678DEADBEEF, 0x6789ABCDEF012345) == 0x16c1f1d6a316b26b;
    assert Result(0xbec5ec4e281d20f1, 0x531ac9daa75bdfdb) == 0x2b178b4029b544b2;
    assert Result(0x1eadb0c0b29aaf10, 0x48f46ff2aeddf259) == 0x601473b1f56d7e54;
  }

  /** The global array `xoro_s`. */
  class Generator {
    const s: array<bv64>

    ghost predicate Valid()
    {
      s.Length == 2
    }

    function Current(): State
      requires Valid()
      reads s
    {
      State(s[0], s[1])
    }

    /** A zero-initialised global. */
    constructor ()
      ensures Valid() && fresh(s)
      ensures Current() == Zero
    {
      s := new bv64[2][0, 0];
    }

    /** `seed_xoroshiro128pp`: stores both words verbatim, (0, 0) included. */
    method Seed(seed1: bv64, seed2: bv64)
      requires Valid()
      modifies s
      ensures Current() == State(seed1, seed2)
    {
      s[0] := seed1;
      s[1] := seed2;
    }

    /** `xoroshiro128pp`: the result comes from the state before the call;
        the C code xors s0 into its local copy of s1 before using it for
        both new words. */
    method Next() returns (r: bv64)
      requires Valid()
      modifies s
      ensures Current() == Step(old(Current()))
      ensures r == Output(old(Current()))
    {
      var s0 := s[0];
      var s1 := s[1];
      r := Result(s0, s1);
      s[0] := NextWord0(s0, s1);
      s[1] := NextWord1(s0, s1);
    }
  }
}
