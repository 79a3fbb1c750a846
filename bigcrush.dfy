/** The seeding part of test_bigcrush.c's `main`: the clock word is expanded
 * by two SplitMix64 calls into `state0` and `state1`, and a guard replaces
 * an all-zero pair by a fixed one. The generator handed to TestU01 is
 * `DualMix128.Generator.NextUnit53`.
 */
module BigCrush {
  import DualMix128
  import TimeSeed

  /** The pair the guard installs. */
  const FallbackState := DualMix128.State(0xDEADBEEF12345678, 0xABCDEF0123456789)

  /** The zero check after seeding: a non-zero pair is kept as it is. */
  function Guard(s: DualMix128.State): (r: DualMix128.State)
    ensures r != DualMix128.Zero
    ensures s != DualMix128.Zero ==> r == s
    ensures s == DualMix128.Zero ==> r == FallbackState
  {
    if s.s0 == 0 && s.s1 == 0 then FallbackState else s
  }

  /** The guard never changes what the clock seeding produced: it is dead
      code, whatever the clock reads. */
  lemma GuardNeverFires(t: bv64)
    ensures Guard(TimeSeed.SeedState(t)) == TimeSeed.SeedState(t)
  {
    TimeSeed.SeedStateNonZero(t);
  }

  /** `main` from reading the clock up to the end of seeding. The clock
      reading (sec, nsec) is an input; `time_seed` after the two calls is
      returned. */
  method Seed(g: DualMix128.Generator, sec: int, nsec: int) returns (timeSeed: bv64)
    modifies g
    ensures g.Current() == Guard(TimeSeed.SeedState(TimeSeed.ClockWord(sec, nsec)))
    ensures g.Current() == TimeSeed.SeedState(TimeSeed.ClockWord(sec, nsec))
    ensures g.Current() != DualMix128.Zero
    ensures timeSeed == TimeSeed.ClockWord(sec, nsec) + 0x3c6ef372fe94f82a
  {
    var t := TimeSeed.ClockWord(sec, nsec);
    var s0, s1;
    s0, s1, timeSeed := TimeSeed.DrawSeeds(t);
    g.state0 := s0;
    g.state1 := s1;
    CheckNonZero(g);
    GuardNeverFires(t);
  }

  /** The zero check itself, on the freshly seeded globals. */
  method CheckNonZero(g: DualMix128.Generator)
    modifies g
    ensures g.Current() == Guard(old(g.Current()))
  {
    if g.state0 == 0 && g.state1 == 0 {
      g.state0 := 0xDEADBEEF12345678;
      g.state1 := 0xABCDEF0123456789;
    }
  }
}
