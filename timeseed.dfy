/** Seeding from the clock, shared by test_bigcrush.c and test_practrand.c:
 * the `timespec` read by `clock_gettime` is folded into one 64-bit word, and
 * two successive SplitMix64 calls on that word give the two state words of
 * DualMix128. The clock itself is an input here.
 */
module TimeSeed {
  import SplitMix64
  import DualMix128

  const Modulus: int := 0x1_0000_0000_0000_0000

  const NanosPerSecond: int := 1_000_000_000

  /** `(uint64_t)ts.tv_sec * 1000000000ULL + (uint64_t)ts.tv_nsec`: each cast,
      the multiplication and the addition wrap modulo 2^64. */
  function FoldTime(sec: int, nsec: int): (t: int)
    ensures 0 <= t < Modulus
    ensures t == (sec * NanosPerSecond + nsec) % Modulus
  {
    var s := sec % Modulus;
    var n := nsec % Modulus;
    var p := s * NanosPerSecond % Modulus;
    ScaleMod(sec, NanosPerSecond);
    SumMod(sec * NanosPerSecond, nsec);
    (p + n) % Modulus
  }

  /** Reducing a factor before a multiplication does not change the product
      modulo 2^64. */
  lemma ScaleMod(a: int, k: int)
    ensures (a % Modulus) * k % Modulus == a * k % Modulus
  {
    var q := a / Modulus;
    var r := a % Modulus;
    assert a * k == (r * k) + Modulus * (q * k) by {
      assert a == r + Modulus * q;
    }
    ShiftMod(r * k, q * k);
  }

  /** Reducing both addends does not change the sum modulo 2^64. */
  lemma SumMod(a: int, b: int)
    ensures (a % Modulus + b % Modulus) % Modulus == (a + b) % Modulus
  {
    assert a == a % Modulus + Modulus * (a / Modulus);
    assert b == b % Modulus + Modulus * (b / Modulus);
    ShiftMod(a % Modulus + b % Modulus, a / Modulus + b / Modulus);
  }

  /** Adding a multiple of 2^64 does not change a value modulo 2^64. */
  lemma ShiftMod(x: int, q: int)
    ensures (x + Modulus * q) % Modulus == x % Modulus
  {
  }
  /** The DualMix128 state the two `splitmix64_next(&time_seed)` calls
      produce: the first and second SplitMix64 words from t. */
  function SeedState(t: bv64): DualMix128.State
  {
    DualMix128.State(SplitMix64.Draw(t), SplitMix64.Draw(SplitMix64.Advance(t)))
  }

  /** The clock never seeds the all-zero state: two successive SplitMix64
      words are always distinct, so they are never both 0. */
  lemma SeedStateNonZero(t: bv64)
    ensures SeedState(t) != DualMix128.Zero
  {
    SplitMix64.SuccessiveDrawsDiffer(t);
  }

  /** The two calls in order, on a caller-owned `time_seed` initialised to t:
      they return the two words of SeedState(t) and leave `time_seed`
      advanced by 2 * gamma modulo 2^64. */
  method DrawSeeds(t: bv64) returns (s0: bv64, s1: bv64, after: bv64)
    ensures DualMix128.State(s0, s1) == SeedState(t)
    ensures !(s0 == 0 && s1 == 0)
    ensures after == t + 0x3c6ef372fe94f82a
  {
    var timeSeed := new SplitMix64.Accumulator(t);
    s0 := timeSeed.Next();
    s1 := timeSeed.Next();
    after := timeSeed.state;
    SeedStateNonZero(t);
    SplitMix64.TwoCallsAdvance(t);
  }

  /** The word `time_seed` holds before the first call. */
  function ClockWord(sec: int, nsec: int): bv64
  {
    FoldTime(sec, nsec) as bv64
  }
}
