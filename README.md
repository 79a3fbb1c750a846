# DualMix128 in Dafny

A model of the DualMix128 repository: three C programs around the DualMix128
pseudo-random generator.

- **benchmark.c** times DualMix128 against xoroshiro128++ and wyrand. It calls
  each generator a fixed number of times from fixed seeds.
- **test_bigcrush.c** seeds DualMix128 from the clock through two SplitMix64
  calls. It replaces an all-zero state by a fixed pair. Then it hands the
  generator's 53-bit output to the TestU01 BigCrush battery.
- **test_practrand.c** seeds the same way but without the zero check. It then
  writes raw 64-bit words to standard output until a write fails.

`uint64_t` is `bv64` and `__uint128_t` is `bv128`, so every addition,
multiplication and shift wraps exactly as in C. The globals of each program
are class fields. `state0`/`state1` and `wyrand_seed` are plain fields, and
`xoro_s` is a two-element array. Each generator call is a method. Its
postcondition ties the new state and the result to a pure step function and
a pure output function of the old state. The properties are proved about
those functions. `Stream.Iterate` and `Stream.Outputs` give the state after n
calls and the words of those n calls. The loops in the three `main`
functions are proved against them.

The three copies of `rotateLeft` are identical, as are the two copies of
`splitmix64_next` and the `dualMix128` of benchmark.c and test_practrand.c:
test_practrand.c:11, test_practrand.c:16-22 and test_practrand.c:28-33
repeat benchmark.c:19-21, benchmark.c:54-60 and test_bigcrush.c:23-28. Each
is modelled once. test_bigcrush.c's `dualMix128` has the same state update and
differs only in its result: `(GR * mix) >> 11` scaled to a double. The model
keeps the 53-bit integer (`DualMix128.Generator.NextUnit53`).

Modules:

- `Word64` (word64.dfy): `rotateLeft`.
- `Stream` (stream.dfy): runs of a generator.
- `DualMix128` (dualmix128.dfy).
- `Xoroshiro128pp` (xoroshiro128pp.dfy).
- `Wyrand` (wyrand.dfy).
- `SplitMix64` (splitmix64.dfy).
- `TimeSeed` (timeseed.dfy): the clock seeding shared by both test programs.
- `BigCrush` (bigcrush.dfy).
- `PractRand` (practrand.dfy).
- `Benchmark` (benchmark.dfy).

## Model

| member | source | states |
|---|---|---|
| Word64.RotateLeftIsRotation | benchmark.c:19-21 | for every shift amount 1..63 the shift-or expression is the bitwise rotation of x left by k |
| Word64.RotateLeftRoundTrip | test_bigcrush.c:17-19 | for 1 <= k <= 63, rotating left by k and then by 64 - k gives x back |
| DualMix128.Generator.Next | benchmark.c:54-60 | one call: state0 becomes mix + rotl(state0, 16), state1 becomes mix + rotl(state1, 2), the result is GR * mix mod 2^64, all computed from the values before the call (mix = state0 + state1 taken once) |
| DualMix128.Generator.constructor | benchmark.c:11 | the globals `state0` and `state1` start zero-initialised, at (0, 0) |
| DualMix128.Generator.Seed | benchmark.c:25-29 | `seed_dualmix128` stores both words verbatim, (0, 0) included |
| DualMix128.Generator.NextUnit53 | test_bigcrush.c:33-39 | the test_bigcrush.c variant makes the same state update and returns (GR * mix) >> 11, which is below 2^53 |
| DualMix128.Top53 | test_bigcrush.c:39 | the shifted word is below 2^53, and shifted back and joined with the 11 dropped bits it rebuilds the word, so the scaled double lies in [0, 1) |
| DualMix128.Unit53RunBounded | test_bigcrush.c:39 | every word of any run of the 53-bit variant is below 2^53 |
| DualMix128.ZeroIsFixedPoint | benchmark.c:54-60 | from (0, 0) the generator returns 0 and stays at (0, 0) |
| DualMix128.OneZeroOutputsGR | benchmark.c:8 | from (1, 0) mix is 1, the output is exactly GR = 0x9e3779b97f4a7c15 and the next state is (0x10001, 1) |
| DualMix128.BenchmarkSeedVector | benchmark.c:109-112 | the first three words from the benchmark seeds (0xDEADBEEF12345678, 0xABCDEF0123456789) are 0x565c40c7c64f1215, 0x2d6d610afdc29579, 0x194e33e99ab25570 |
| DualMix128.ZeroPreimageMixIsZero | benchmark.c:55-57 | the only mix m for which -m rotated right by 16 and by 2 sum back to m is 0 |
| DualMix128.StepZeroWords | benchmark.c:55-57 | both new words are 0 exactly when both old words are 0 |
| DualMix128.OnlyZeroStepsToZero | benchmark.c:55-57 | a call reaches (0, 0) if and only if it starts from (0, 0) |
| DualMix128.NonZeroStaysNonZero | benchmark.c:24-29 | a seed other than (0, 0) never reaches (0, 0), however many calls follow |
| Xoroshiro128pp.Generator.Next | benchmark.c:72-81 | one call returns rotl(s0 + s1, 17) + s0 from the state before the call; with s1' = s0 ^ s1 the new words are rotl(s0, 49) ^ s1' ^ (s1' << 21) and rotl(s1', 28) |
| Xoroshiro128pp.Generator.constructor | benchmark.c:12 | the global array `xoro_s[2]` starts zero-initialised, at (0, 0) |
| Xoroshiro128pp.Generator.Seed | benchmark.c:33-37 | `seed_xoroshiro128pp` stores both words verbatim, (0, 0) included |
| Xoroshiro128pp.UnstepStep | benchmark.c:77-79 | the state update is undone by an independent reference inverse, so it is a bijection on 128-bit states |
| Xoroshiro128pp.StepInjective | benchmark.c:77-79 | two states step to the same state if and only if they are equal |
| Xoroshiro128pp.RunUndone | benchmark.c:123-124 | n calls are undone by n applications of the inverse |
| Xoroshiro128pp.ZeroIsFixedPoint | benchmark.c:72-81 | (0, 0) is a fixed point with output 0 |
| Xoroshiro128pp.OnlyZeroStepsToZero | benchmark.c:77-79 | a call reaches (0, 0) if and only if it starts from (0, 0) |
| Xoroshiro128pp.NonZeroStaysNonZero | benchmark.c:32-37 | a non-zero seed, which the seeder assumes, never reaches (0, 0) |
| Xoroshiro128pp.BenchmarkSeedVector | benchmark.c:121-124 | the first three words from (0x12345678DEADBEEF, 0x6789ABCDEF012345) are 0x16c1f1d6a316b26b, 0x2b178b4029b544b2, 0x601473b1f56d7e54 |
| Wyrand.Generator.Next | benchmark.c:64-68 | one call first adds 0xa0761d6478bd642f to the counter mod 2^64, then returns high64(t) ^ low64(t) of the exact 128-bit product t = (c ^ 0xe7037ed1a0b428db) * c of the new counter c |
| Wyrand.Generator.constructor | benchmark.c:13 | the counter starts at 0 |
| Wyrand.Generator.Reset | benchmark.c:133 | the counter is set back to 0 before the loop |
| Wyrand.HalvesRebuild | benchmark.c:66-67 | the two 64-bit halves the output combines rebuild the 128-bit product: nothing of it is lost before the xor |
| Wyrand.Unstep | benchmark.c:65 | subtracting the increment gives a counter that one call takes back to the given one |
| Wyrand.UnstepStep | benchmark.c:65 | the counter update is undone by subtracting the increment, so it is a bijection on 64-bit words |
| Wyrand.StepInjective | benchmark.c:65 | two counters step to the same counter if and only if they are equal |
| Wyrand.StepMoves | benchmark.c:65 | every call changes the counter |
| Wyrand.RunUndone | benchmark.c:135-136 | n calls are undone by n reverse steps |
| Wyrand.CounterFromZero | benchmark.c:133-136 | after n calls from the reset counter 0 the counter is n * 0xa0761d6478bd642f mod 2^64, with n taken as the 64-bit word n mod 2^64 |
| Wyrand.FirstOutputsFromZero | benchmark.c:133-136 | from the reset counter 0 the first three words are 0x111cb3a78f59a58e, 0xceabd938ff4e856d, 0x61fb51318f47d2a4 |
| SplitMix64.Accumulator.Next | test_bigcrush.c:23-28 | `splitmix64_next` adds 0x9e3779b97f4a7c15 to the caller's word mod 2^64 and returns the three-stage xor-shift/multiply mix of the new value |
| SplitMix64.UnmixMix | test_bigcrush.c:25-27 | the mix is undone by an independent reference inverse, so it is a bijection on 64-bit words |
| SplitMix64.MixInjective | test_bigcrush.c:25-27 | two values mix to the same word if and only if they are equal |
| SplitMix64.MixZero | test_bigcrush.c:25-27 | the mix maps 0, and only 0, to 0 |
| SplitMix64.SuccessiveDrawsDiffer | test_bigcrush.c:65-66 | two successive calls on the same word return different words, so never two zeros |
| SplitMix64.TwoCallsAdvance | test_bigcrush.c:65-66 | two successive calls advance the caller's word by 2 * 0x9e3779b97f4a7c15 mod 2^64 = 0x3c6ef372fe94f82a |
| SplitMix64.FirstDrawFromZero | test_bigcrush.c:23-28 | from 0 the first call leaves the word at the gamma and returns 0xe220a8397b1dcdaf |
| Stream.OutputsPrefix | benchmark.c:109-112 | determinism: a shorter run from the same seed returns a prefix of a longer one |
| Stream.OutputsAdd | benchmark.c:109-112 | the words of m + n calls are those of m calls followed by those of n calls from where the first m left the state |
| TimeSeed.FoldTime | test_bigcrush.c:62 | `tv_sec * 1000000000 + tv_nsec` computed with wrapping uint64_t casts, product and sum is the mathematical value mod 2^64 |
| TimeSeed.DrawSeeds | test_bigcrush.c:65-66 | the two calls return the first and second SplitMix64 words of the time seed, never both 0, and leave `time_seed` advanced by 2 * gamma mod 2^64 |
| TimeSeed.SeedStateNonZero | test_bigcrush.c:65-66 | the clock-derived state is never (0, 0), whatever the clock reads |
| BigCrush.Guard | test_bigcrush.c:69-74 | after the zero check the state is never (0, 0), a non-zero state is left as it is, and (0, 0) is replaced by (0xDEADBEEF12345678, 0xABCDEF0123456789) |
| BigCrush.GuardNeverFires | test_bigcrush.c:68-74 | the check never replaces a clock-derived state: the fallback (0xDEADBEEF12345678, 0xABCDEF0123456789) is unreachable |
| BigCrush.CheckNonZero | test_bigcrush.c:69-74 | the globals after the check are the guarded old globals |
| BigCrush.Seed | test_bigcrush.c:62-74 | the seeded globals are exactly the two SplitMix64 words of the folded clock, never (0, 0), and `time_seed` ends advanced by 2 * gamma |
| PractRand.Seed | test_practrand.c:48-51 | the globals are the first and second SplitMix64 words of the folded clock, with no zero check |
| PractRand.Sink.Write | test_practrand.c:58 | a write either appends the whole word and succeeds, or appends nothing and fails; it fails exactly when the stream accepts no more |
| PractRand.Transfer | test_practrand.c:56-58 | one iteration draws one word, advancing the generator, and tries to write exactly that word |
| PractRand.Export | test_practrand.c:55-63 | the loop returns 1 at the first failed write; the stream then holds exactly the first k generator words in order, one per successful iteration, and the generator has advanced k + 1 times, once more for the word that could not be written |
| PractRand.Run | test_practrand.c:38-63 | what the program writes is the first words of DualMix128 from the clock-derived state, in order |
| Benchmark.IterationCount | benchmark.c:86-97 | the count is the argument when it is positive and 10,000,000,000 otherwise, so it is always positive (the division at line 116 never divides by zero) and fits a uint64_t |
| Benchmark.LoopDualMix128 | benchmark.c:111-112 | the loop makes exactly n calls: the final state is the n-fold step of the seed, and `dummyVar` holds the output of the last call, or its previous value when n is 0 |
| Benchmark.LoopXoroshiro128pp | benchmark.c:123-124 | exactly n calls, with the same final state and `dummyVar` as above |
| Benchmark.LoopWyrand | benchmark.c:135-136 | exactly n calls, with the same final counter and `dummyVar` as above |
| Benchmark.Run | benchmark.c:85-146 | each generator is seeded as the program seeds it and called exactly `num_iterations` times; one `dummyVar`, starting at 0, is shared by the loops; the last word of each loop is the output of the state the seed reaches after `num_iterations` - 1 calls, for wyrand the output of the counter (`num_iterations` - 1) * 0xa0761d6478bd642f mod 2^64 |

## Left out

- Wyrand.CounterFromZero: the call count appears as the 64-bit word reached by n wrapping increments (`Wyrand.CountWord`). That this word equals n mod 2^64 as an integer is not proved: the solver does not link bit-vector increments to integer arithmetic within the resource limit.
- `clock_gettime`, `perror` and `exit`: the clock reading is an input (seconds and nanoseconds as integers). The failure path of `clock_gettime` (return 1) is not modelled.
- `printf` and `fprintf`: reporting only.
- `atoll`: `Benchmark.IterationCount` takes the parsed `long long` as an input.
- `get_time_sec`, `duration` and `ns_per_call`: floating-point timing. The model keeps only the positivity of the divisor.
- The final `* (1.0/9007199254740992.0)` in test_bigcrush.c is floating point. The model keeps the 53-bit integer it scales.
- TestU01 (`unif01_CreateExternGen01`, `bbattery_BigCrush`, `unif01_DeleteExternGen01`) is a foreign library. Its failure path (return 1) is not modelled.
- `fwrite` byte order is platform dependent. Standard output is a sequence of 64-bit words.
- PractRand.Sink.Write: a failed `fwrite` may already have written part of the word (1 to 7 bytes). The word-level sink represents no partial writes: a failed write adds nothing.
- PractRand.Sink: standard output accepts a given number of further words and then fails. A stream that never fails makes the C loop run forever, and that case is not modelled. Neither is the unreachable `return 0`.
- `volatile dummyVar`: the volatile access has no modelled meaning. The loops return the last stored word.
- Statistical quality, period and the GF(2) structure of xoroshiro128++ are not properties of this code.
