/** A bounded-index oracle standing in for the random sources the benchmark uses
    (java.util.Random, SecureRandom and ThreadLocalRandom).

    A generator here is deterministic in its own state: the raw value of a draw
    and the state after it are functions of the current state and of the range
    asked for. One draw is one call of `nextInt(bound)` or one element of
    `ints(n, origin, bound)`, however many internal steps (a rejection loop, say)
    the library takes for it. The two entry points have separate functions, so
    the model does not assume that `ints(...)` and `nextInt(...)` of a real
    generator yield the same values or leave the same state. */
module Randomness {

  /** The behaviour of one generator. */
  datatype Generator = Generator(
    nextIntRaw: (int, int) -> int,       // (state, bound) to a raw value for nextInt(bound)
    nextIntStep: (int, int) -> int,      // (state, bound) to the state after nextInt(bound)
    streamRaw: (int, int, int) -> int,   // (state, origin, bound) to a raw value for an element of ints(n, origin, bound)
    streamStep: (int, int, int) -> int)  // (state, origin, bound) to the state after that element

  /** One bounded draw as the caller asked for it: a value in [origin, bound). */
  datatype Draw = Draw(origin: int, bound: int, value: int)

  /** The value nextInt(bound) returns in the given state. */
  function NextIntValue(g: Generator, state: int, bound: int): (r: int)
    requires 0 < bound
    ensures 0 <= r < bound
  {
    g.nextIntRaw(state, bound) % bound
  }

  /** The value an element of ints(n, origin, bound) takes in the given state. */
  function StreamValue(g: Generator, state: int, origin: int, bound: int): (r: int)
    requires origin < bound
    ensures origin <= r < bound
  {
    origin + g.streamRaw(state, origin, bound) % (bound - origin)
  }

  /** The state after n calls of nextInt(bound). */
  function NextIntState(g: Generator, state: int, bound: int, n: nat): int
  {
    if n == 0 then state else g.nextIntStep(NextIntState(g, state, bound, n - 1), bound)
  }

  /** The state after the first n elements of a stream ints(..., origin, bound). */
  function StreamState(g: Generator, state: int, origin: int, bound: int, n: nat): int
  {
    if n == 0 then state else g.streamStep(StreamState(g, state, origin, bound, n - 1), origin, bound)
  }

  /** The values of n successive calls of nextInt(bound), starting in `state`. */
  function NextInts(g: Generator, state: int, bound: int, n: nat): (r: seq<int>)
    requires 0 < bound
    ensures |r| == n
    ensures forall k :: 0 <= k < n ==> 0 <= r[k] < bound
  {
    if n == 0 then []
    else NextInts(g, state, bound, n - 1) + [NextIntValue(g, NextIntState(g, state, bound, n - 1), bound)]
  }

  /** The elements of the stream ints(n, origin, bound), starting in `state`. */
  function StreamInts(g: Generator, state: int, origin: int, bound: int, n: nat): (r: seq<int>)
    requires origin < bound
    ensures |r| == n
    ensures forall k :: 0 <= k < n ==> origin <= r[k] < bound
  {
    if n == 0 then []
    else StreamInts(g, state, origin, bound, n - 1) + [StreamValue(g, StreamState(g, state, origin, bound, n - 1), origin, bound)]
  }

  /** The k-th of n calls of nextInt(bound) is drawn in the state reached after k draws,
      and a longer run of calls extends a shorter one. */
  lemma {:induction false} NextIntsAt(g: Generator, state: int, bound: int, n: nat, k: nat)
    requires 0 < bound && k < n
    ensures NextInts(g, state, bound, n)[k] == NextIntValue(g, NextIntState(g, state, bound, k), bound)
    ensures NextInts(g, state, bound, n)[..k] == NextInts(g, state, bound, k)
  {
    if k < n - 1 {
      NextIntsAt(g, state, bound, n - 1, k);
      var shorter := NextInts(g, state, bound, n - 1);
      assert NextInts(g, state, bound, n)[..n - 1] == shorter;
      assert NextInts(g, state, bound, n)[..k] == shorter[..k];
    } else {
      assert NextInts(g, state, bound, n)[..n - 1] == NextInts(g, state, bound, n - 1);
    }
  }

  /** The k-th element of ints(n, origin, bound) is drawn in the state reached after
      k draws, and a longer stream extends a shorter one. */
  lemma {:induction false} StreamIntsAt(g: Generator, state: int, origin: int, bound: int, n: nat, k: nat)
    requires origin < bound && k < n
    ensures StreamInts(g, state, origin, bound, n)[k] == StreamValue(g, StreamState(g, state, origin, bound, k), origin, bound)
    ensures StreamInts(g, state, origin, bound, n)[..k] == StreamInts(g, state, origin, bound, k)
  {
    if k < n - 1 {
      StreamIntsAt(g, state, origin, bound, n - 1, k);
      var shorter := StreamInts(g, state, origin, bound, n - 1);
      assert StreamInts(g, state, origin, bound, n)[..n - 1] == shorter;
      assert StreamInts(g, state, origin, bound, n)[..k] == shorter[..k];
    } else {
      assert StreamInts(g, state, origin, bound, n)[..n - 1] == StreamInts(g, state, origin, bound, n - 1);
    }
  }

  /** The record of draws that asked for [origin, bound) and got `values`, in order. */
  function Requests(origin: int, bound: int, values: seq<int>): seq<Draw>
  {
    seq(|values|, k requires 0 <= k < |values| => Draw(origin, bound, values[k]))
  }

  /** A random source object: its generator, its current state, and (for the proofs
      only) the history of every draw made from it. */
  class RandomSource {
    const gen: Generator
    var state: int
    ghost var history: seq<Draw>

    /** A fresh source; `seed` stands for whatever the library seeds it with. */
    constructor (gen: Generator, seed: int)
      ensures this.gen == gen && state == seed && history == []
    {
      this.gen := gen;
      state := seed;
      history := [];
    }

    /** nextInt(bound): a value in [0, bound); the library rejects a bound that is not positive. */
    method NextInt(bound: int) returns (r: int)
      requires 0 < bound
      modifies this
      ensures 0 <= r < bound
      ensures r == NextIntValue(gen, old(state), bound)
      ensures state == gen.nextIntStep(old(state), bound)
      ensures history == old(history) + [Draw(0, bound, r)]
    {
      r := NextIntValue(gen, state, bound);
      state := gen.nextIntStep(state, bound);
      history := history + [Draw(0, bound, r)];
    }

    /** ints(streamSize, origin, bound): streamSize values, each in [origin, bound), in
        the order they are drawn; the library rejects a negative size and origin >= bound. */
    method Ints(streamSize: nat, origin: int, bound: int) returns (s: seq<int>)
      requires origin < bound
      modifies this
      ensures |s| == streamSize
      ensures forall k :: 0 <= k < |s| ==> origin <= s[k] < bound
      ensures s == StreamInts(gen, old(state), origin, bound, streamSize)
      ensures state == StreamState(gen, old(state), origin, bound, streamSize)
      ensures history == old(history) + Requests(origin, bound, s)
    {
      s := [];
      var i := 0;
      while i < streamSize
        invariant 0 <= i <= streamSize
        invariant s == StreamInts(gen, old(state), origin, bound, i)
        invariant state == StreamState(gen, old(state), origin, bound, i)
        invariant history == old(history) + Requests(origin, bound, s)
      {
        var v := StreamValue(gen, state, origin, bound);
        assert Requests(origin, bound, s + [v]) == Requests(origin, bound, s) + [Draw(origin, bound, v)];
        s := s + [v];
        history := history + [Draw(origin, bound, v)];
        state := gen.streamStep(state, origin, bound);
        i := i + 1;
      }
    }
  }
}
