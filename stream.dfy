/** Runs of a generator: the state after n calls of `next()` and the words
 * those calls return. Every generator here computes its output from the
 * state it is called in, so a generator is a pair of functions on its state:
 * `step` (the new state) and `out` (the word returned).
 */
module Stream {

  /** The state after n calls, starting from s. */
  function Iterate<S>(step: S -> S, s: S, n: nat): S
  {
    if n == 0 then s else step(Iterate(step, s, n - 1))
  }

  /** The words returned by the first n calls, in call order. */
  function Outputs<S>(step: S -> S, out: S -> bv64, s: S, n: nat): (r: seq<bv64>)
    ensures |r| == n
  {
    if n == 0 then [] else Outputs(step, out, s, n - 1) + [out(Iterate(step, s, n - 1))]
  }

  /** One more call: the state moves by one step, and the run gains the
      word of the state the call started from. */
  lemma OneMore<S>(step: S -> S, out: S -> bv64, s: S, k: nat)
    ensures Iterate(step, s, k + 1) == step(Iterate(step, s, k))
    ensures Outputs(step, out, s, k + 1) == Outputs(step, out, s, k) + [out(Iterate(step, s, k))]
  {
  }

  /** The k-th word of a run is the output of the state reached after k calls. */
  lemma {:induction false} OutputsAt<S>(step: S -> S, out: S -> bv64, s: S, n: nat, k: nat)
    requires k < n
    ensures Outputs(step, out, s, n)[k] == out(Iterate(step, s, k))
  {
    if k < n - 1 {
      OutputsAt(step, out, s, n - 1, k);
    }
  }

  /** Running m calls and then n more is the same as running m + n calls. */
  lemma {:induction false} IterateAdd<S>(step: S -> S, s: S, m: nat, n: nat)
    ensures Iterate(step, s, m + n) == Iterate(step, Iterate(step, s, m), n)
  {
    if n > 0 {
      IterateAdd(step, s, m, n - 1);
    }
  }

  /** The words of m + n calls are those of the first m calls followed by those
      of n calls from the state the first m calls left behind. */
  lemma {:induction false} OutputsAdd<S>(step: S -> S, out: S -> bv64, s: S, m: nat, n: nat)
    ensures Outputs(step, out, s, m + n)
         == Outputs(step, out, s, m) + Outputs(step, out, Iterate(step, s, m), n)
  {
    if n > 0 {
      OutputsAdd(step, out, s, m, n - 1);
      IterateAdd(step, s, m, n - 1);
    }
  }

  /** Determinism: a shorter run from the same state returns a prefix of a
      longer one. */
  lemma OutputsPrefix<S>(step: S -> S, out: S -> bv64, s: S, m: nat, n: nat)
    requires m <= n
    ensures Outputs(step, out, s, m) == Outputs(step, out, s, n)[..m]
  {
    OutputsAdd(step, out, s, m, n - m);
  }

  /** A property of states that every call preserves holds after any number
      of calls. */
  lemma {:induction false} IterateKeeps<S>(step: S -> S, p: S -> bool, s: S, n: nat)
    requires p(s)
    requires forall x :: p(x) ==> p(step(x))
    ensures p(Iterate(step, s, n))
  {
    if n > 0 {
      IterateKeeps(step, p, s, n - 1);
    }
  }

  /** A map that carries one step function onto another carries whole runs:
      n steps taken after the map equal the map of n steps. */
  lemma {:induction false} IterateMap<S, T>(step: S -> S, f: T -> S, next: T -> T, t: T, n: nat)
    requires forall x :: step(f(x)) == f(next(x))
    ensures Iterate(step, f(t), n) == f(Iterate(next, t, n))
  {
    if n > 0 {
      IterateMap(step, f, next, t, n - 1);
    }
  }

  /** A state that only itself steps to is never reached from any other
      state, however many calls follow. */
  lemma AvoidsFixedPoint<S>(step: S -> S, z: S, s: S, n: nat)
    requires s != z
    requires forall x :: step(x) == z ==> x == z
    ensures Iterate(step, s, n) != z
  {
    IterateKeeps(step, x => x != z, s, n);
  }

  /** Calls that an inverse map undoes one at a time are undone, n calls by
      n applications of the inverse. */
  lemma {:induction false} IterateUndo<S>(step: S -> S, back: S -> S, s: S, n: nat)
    requires forall x :: back(step(x)) == x
    ensures Iterate(back, Iterate(step, s, n), n) == s
  {
    if n > 0 {
      var y := Iterate(step, s, n - 1);
      IterateAdd(back, step(y), 1, n - 1);
      assert Iterate(back, step(y), 1) == y;
      IterateUndo(step, back, s, n - 1);
    }
  }
}
