/** test_practrand.c: DualMix128 seeded from the clock, without a zero
 * guard, streams its raw words to standard output until a write fails.
 * Standard output is a `Sink` that accepts a given number of further words
 * and then rejects every write.
 */
module PractRand {
  import Stream
  import DualMix128
  import TimeSeed

  /** The output stream: the words written so far, and how many more writes
      it will accept before the first failure. */
  class Sink {
    var written: seq<bv64>
    var room: nat

    constructor (room: nat)
      ensures written == [] && this.room == room
    {
      written := [];
      this.room := room;
    }

    /** `fwrite(&w, sizeof(w), 1, stdout) == 1`: one whole word or nothing. */
    method Write(w: bv64) returns (ok: bool)
      modifies this
      ensures ok <==> old(room) > 0
      ensures ok ==> written == old(written) + [w] && room == old(room) - 1
      ensures !ok ==> written == old(written) && room == old(room)
    {
      if room == 0 {
        ok := false;
      } else {
        written := written + [w];
        room := room - 1;
        ok := true;
      }
    }
  }

  /** The seeding in `main`: both state words come straight from the two
      SplitMix64 calls. */
  method Seed(g: DualMix128.Generator, sec: int, nsec: int)
    modifies g
    ensures g.Current() == TimeSeed.SeedState(TimeSeed.ClockWord(sec, nsec))
  {
    var s0, s1, _ := TimeSeed.DrawSeeds(TimeSeed.ClockWord(sec, nsec));
    g.state0 := s0;
    g.state1 := s1;
  }

  /** The `for (;;)` loop of `main`: every iteration draws one word and
      writes it; the first failed write ends the program with status 1.
      By then the stream holds exactly the words of the successful
      iterations, in order, and the generator has also produced the word
      that could not be written. */
  method Export(g: DualMix128.Generator, out: Sink) returns (status: int)
    modifies g, out
    ensures status == 1
    ensures out.written
         == old(out.written) + Stream.Outputs(DualMix128.Step, DualMix128.Output, old(g.Current()), old(out.room))
    ensures g.Current() == Stream.Iterate(DualMix128.Step, old(g.Current()), old(out.room) + 1)
    ensures out.room == 0
  {
    ghost var start := g.Current();
    ghost var k: nat := 0;
    var ok := true;
    while ok
      invariant k + out.room == old(out.room)
      invariant out.written == old(out.written) + Stream.Outputs(DualMix128.Step, DualMix128.Output, start, k)
      invariant ok ==> g.Current() == Stream.Iterate(DualMix128.Step, start, k)
      invariant !ok ==> g.Current() == DualMix128.Step(Stream.Iterate(DualMix128.Step, start, k)) && out.room == 0
      decreases out.room, ok
    {
      Stream.OneMore(DualMix128.Step, DualMix128.Output, start, k);
      ok := Transfer(g, out);
      if ok {
        k := k + 1;
      }
    }
    assert k == old(out.room);
    Stream.OneMore(DualMix128.Step, DualMix128.Output, start, k);
    status := 1;
  }

  /** One iteration of the loop: draw a word and try to write it. */
  method Transfer(g: DualMix128.Generator, out: Sink) returns (ok: bool)
    modifies g, out
    ensures g.Current() == DualMix128.Step(old(g.Current()))
    ensures ok <==> old(out.room) > 0
    ensures ok ==> out.written == old(out.written) + [DualMix128.Output(old(g.Current()))] && out.room == old(out.room) - 1
    ensures !ok ==> out.written == old(out.written) && out.room == old(out.room)
  {
    var raw := g.Next();
    ok := out.Write(raw);
  }

  /** `main` after the clock is read: seed, then stream until the sink
      fails. What was written is the first `room` words of DualMix128 from
      the clock-derived state. */
  method Run(sec: int, nsec: int, out: Sink) returns (status: int)
    modifies out
    ensures status == 1
    ensures out.written
         == old(out.written) + Stream.Outputs(DualMix128.Step, DualMix128.Output, TimeSeed.SeedState(TimeSeed.ClockWord(sec, nsec)), old(out.room))
  {
    var g := new DualMix128.Generator();
    Seed(g, sec, nsec);
    status := Export(g, out);
  }
}
