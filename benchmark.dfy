/** The driver of benchmark.c: the iteration count taken from the command
 * line, and the three timed loops that call each generator exactly that
 * many times from fixed seeds. The clock readings and the ns/call report
 * around each loop are not modelled; the word the loop stores in
 * `dummyVar` is returned instead.
 */
module Benchmark {
  import Stream
  import DualMix128
  import Xoroshiro128pp
  import Wyrand

  /** The count used when no valid count is given: ten billion. */
  const DefaultIterations: nat := 10_000_000_000

  /** `num_iterations`. `hasArg` is `argc > 1`, and `argVal` is what `atoll`
      made of `argv[1]`, a `long long`. */
  function IterationCount(hasArg: bool, argVal: int): (n: nat)
    requires -0x8000_0000_0000_0000 <= argVal < 0x8000_0000_0000_0000
    ensures 0 < n < 0x1_0000_0000_0000_0000
    ensures hasArg && argVal > 0 ==> n == argVal
    ensures !(hasArg && argVal > 0) ==> n == DefaultIterations
  {
    if hasArg && argVal > 0 then argVal else DefaultIterations
  }

  /** The DualMix128 loop: n calls, each result stored in the dummy, which
      holds `previous` when the loop starts. */
  method LoopDualMix128(g: DualMix128.Generator, n: nat, previous: bv64) returns (dummy: bv64)
    modifies g
    ensures g.Current() == Stream.Iterate(DualMix128.Step, old(g.Current()), n)
    ensures n == 0 ==> dummy == previous
    ensures n > 0 ==> dummy == DualMix128.Output(Stream.Iterate(DualMix128.Step, old(g.Current()), n - 1))
  {
    ghost var start := g.Current();
    ghost var last: nat := 0;
    dummy := previous;
    var i: nat := 0;
    while i < n
      invariant i <= n
      invariant g.Current() == Stream.Iterate(DualMix128.Step, start, i)
      invariant i == 0 ==> dummy == previous
      invariant i > 0 ==> last + 1 == i && dummy == DualMix128.Output(Stream.Iterate(DualMix128.Step, start, last))
    {
      last := i;
      dummy := g.Next();
      i := i + 1;
    }
    assert n > 0 ==> last == n - 1;
  }

  /** The xoroshiro128++ loop, on the same dummy. */
  method LoopXoroshiro128pp(g: Xoroshiro128pp.Generator, n: nat, previous: bv64) returns (dummy: bv64)
    requires g.Valid()
    modifies g.s
    ensures g.Valid()
    ensures g.Current() == Stream.Iterate(Xoroshiro128pp.Step, old(g.Current()), n)
    ensures n == 0 ==> dummy == previous
    ensures n > 0 ==> dummy == Xoroshiro128pp.Output(Stream.Iterate(Xoroshiro128pp.Step, old(g.Current()), n - 1))
  {
    ghost var start := g.Current();
    ghost var last: nat := 0;
    dummy := previous;
    var i: nat := 0;
    while i < n
      invariant i <= n
      invariant g.Current() == Stream.Iterate(Xoroshiro128pp.Step, start, i)
      invariant i == 0 ==> dummy == previous
      invariant i > 0 ==> last + 1 == i && dummy == Xoroshiro128pp.Output(Stream.Iterate(Xoroshiro128pp.Step, start, last))
    {
      last := i;
      dummy := g.Next();
      i := i + 1;
    }
    assert n > 0 ==> last == n - 1;
  }

  /** The wyrand loop, on the same dummy. */
  method LoopWyrand(g: Wyrand.Generator, n: nat, previous: bv64) returns (dummy: bv64)
    modifies g
    ensures g.seed == Stream.Iterate(Wyrand.Step, old(g.seed), n)
    ensures n == 0 ==> dummy == previous
    ensures n > 0 ==> dummy == Wyrand.Output(Stream.Iterate(Wyrand.Step, old(g.seed), n - 1))
  {
    ghost var start := g.seed;
    ghost var last: nat := 0;
    dummy := previous;
    var i: nat := 0;
    while i < n
      invariant i <= n
      invariant g.seed == Stream.Iterate(Wyrand.Step, start, i)
      invariant i == 0 ==> dummy == previous
      invariant i > 0 ==> last + 1 == i && dummy == Wyrand.Output(Stream.Iterate(Wyrand.Step, start, last))
    {
      last := i;
      dummy := g.Next();
      i := i + 1;
    }
    assert n > 0 ==> last == n - 1;
  }

  /** `main` without the timing: every generator is seeded as the program
      does and called exactly `num_iterations` times. `dummyVar` starts at 0
      and is shared by the three loops; the three results are its value
      after each loop. */
  method Run(hasArg: bool, argVal: int) returns (n: nat, dualMix: bv64, xoroshiro: bv64, wyrand: bv64)
    requires -0x8000_0000_0000_0000 <= argVal < 0x8000_0000_0000_0000
    ensures n == IterationCount(hasArg, argVal)
    ensures dualMix == DualMix128.Output(Stream.Iterate(DualMix128.Step, DualMix128.State(0xDEADBEEF12345678, 0xABCDEF0123456789), n - 1))
    ensures xoroshiro == Xoroshiro128pp.Output(Stream.Iterate(Xoroshiro128pp.Step, Xoroshiro128pp.State(0x12345678DEADBEEF, 0x6789ABCDEF012345), n - 1))
    ensures wyrand == Wyrand.Output(Stream.Iterate(Wyrand.Step, 0, n - 1))
    ensures wyrand == Wyrand.Output(Wyrand.Times(Wyrand.CountWord(n - 1)))
  {
    n := IterationCount(hasArg, argVal);
    var dm := new DualMix128.Generator();
    var xo := new Xoroshiro128pp.Generator();
    var wy := new Wyrand.Generator();
    dm.Seed(0xDEADBEEF12345678, 0xABCDEF0123456789);
    dualMix := LoopDualMix128(dm, n, 0);
    xo.Seed(0x12345678DEADBEEF, 0x6789ABCDEF012345);
    xoroshiro := LoopXoroshiro128pp(xo, n, dualMix);
    wy.Reset();
    wyrand := LoopWyrand(wy, n, xoroshiro);
    Wyrand.CounterFromZero(n - 1);
  }
}
