# Random identifier generation

A Dafny model of the identifier generator at the heart of `IdentifierBenchmark`,
a micro-benchmark that compares ways of building a random 32-character
identifier. Every character is chosen the same way: a random source draws an
index in `[0, 36)`, and the index is looked up in the fixed 36-entry table
`ALPHA_NUM`. The three strategies differ only in how they collect the characters:

- `streamRandom` draws the indices as one stream (`ints(32, 0, 36)`), maps each
  index to its table entry and reduces the stream into a `StringBuilder`;
- `loopStringBuilderRandom` calls `nextInt(36)` 32 times and appends each entry
  to a growable buffer;
- `loopCharArrayRandom` calls `nextInt(36)` 32 times and writes each entry into
  its cell of a preallocated `char[32]`.

The model has two modules.

- `Randomness` (`Randomness.dfy`) is the random source, modelled as a bounded-index
  oracle. A `Generator` value gives the raw value of a draw and the state after
  it, both as functions of the current state and of the range asked for. The
  class `RandomSource` holds a generator, its current state and a ghost history
  of the draws made. Its two methods `NextInt` and `Ints` cover the two library
  entry points the benchmark uses. `ints` and `nextInt` get separate value and
  step functions, so the model claims neither that a real generator returns the
  same values through both nor that it ends in the same state.
- `IdentifierBenchmark` (`IdentifierBenchmark.dfy`) holds the constants, the
  specification `Ident(indices)` (character `k` is `ALPHA_NUM[indices[k]]`), the
  stream pipeline as functions (`MapToObj`, then the left fold `Reduce`), and the
  three strategies as methods on a `RandomSource`.

Every strategy's postcondition says that its result is `Ident` of the indices it
drew, and that the source advanced exactly 32 draws. Each draw was a request for
`[0, |ALPHA_NUM|)` and is recorded in order in the source's history. So when two
strategies see the same draws, they return the same string; `StrategiesAgree`
states this for all three at once. For a generator that is deterministic in its
own state (a seeded `Random`), the two loop strategies also agree for equal
starting states, since both draw through `nextInt(36)`. The stream strategy
agrees with them whenever its stream yields the same indices.

The table is modelled exactly as it is declared: `'m'` stands at both index 22
and index 23, and `'n'` is absent. `AlphaNumLayout` and `AlphaNumCollision`
state this. `IdentDeterminesDraws` states what it means for identifiers: two
draw sequences give the same identifier exactly when, at each position, they
drew the same index or the two indices of `'m'`.

## Model

| member | source | states |
|---|---|---|
| `IdentifierBenchmark.AlphaNumLayout` | src/main/java/twn/IdentifierBenchmark.java:18-23 | the table has 36 entries: the digits `'0'..'9'` at 0-9, then `'a'..'z'` in order at 10-35, except that index 23 holds a second `'m'`; `'n'` does not occur |
| `IdentifierBenchmark.AlphaNumCollision` | src/main/java/twn/IdentifierBenchmark.java:18-23 | two table indices hold the same character if and only if they are equal or are 22 and 23 |
| `IdentifierBenchmark.Ident` | src/main/java/twn/IdentifierBenchmark.java:17-23 | an identifier is exactly `IDENTIFIER_SIZE` = 32 characters long; each is a table entry, so `'n'` never appears |
| `IdentifierBenchmark.IdentPrefixExample` | src/main/java/twn/IdentifierBenchmark.java:102 | draws 0, 9, 10, 35 at the start give an identifier starting with `"09az"` |
| `IdentifierBenchmark.IdentDeterminesDraws` | src/main/java/twn/IdentifierBenchmark.java:18-23 | two draw sequences give equal identifiers if and only if, at every position, the indices are equal or are 22 and 23 |
| `IdentifierBenchmark.MapToObj` | src/main/java/twn/IdentifierBenchmark.java:102 | mapping keeps the stream's length and order: element `k` is the table entry at the `k`-th index of the stream |
| `IdentifierBenchmark.Reduce` | src/main/java/twn/IdentifierBenchmark.java:103 | left-folding `append` over the characters yields the builder's contents followed by the characters, in stream order |
| `IdentifierBenchmark.StreamIdentifier` | src/main/java/twn/IdentifierBenchmark.java:101-104 | map-then-reduce from an empty builder gives exactly the specified identifier of the drawn indices |
| `IdentifierBenchmark.StreamRandom` | src/main/java/twn/IdentifierBenchmark.java:100-105 | returns the identifier of the 32 stream indices drawn in `[0, 36)`; the source advances 32 draws, each recorded with its range |
| `IdentifierBenchmark.LoopStringBuilderRandom` | src/main/java/twn/IdentifierBenchmark.java:107-113 | returns the identifier of the 32 values of `nextInt(36)`; the source advances 32 draws, each recorded with its bound; loop invariant: after `i` rounds the buffer holds exactly the first `i` mapped draws |
| `IdentifierBenchmark.LoopCharArrayRandom` | src/main/java/twn/IdentifierBenchmark.java:115-121 | same result and new source state as `LoopStringBuilderRandom`; loop invariant: cells `0..i` hold the mapped draws and cells `i..31` still hold the default char |
| `IdentifierBenchmark.NextIntIdentAt` | src/main/java/twn/IdentifierBenchmark.java:109-110 | order is kept by the loop strategies: character `k` is the table entry of the `k`-th `nextInt(36)` value, drawn in the state after `k` draws |
| `IdentifierBenchmark.StreamIdentAt` | src/main/java/twn/IdentifierBenchmark.java:101-103 | order is kept by the stream strategy: character `k` is the table entry of the `k`-th stream element, drawn in the state after `k` elements |
| `IdentifierBenchmark.StrategiesAgree` | src/main/java/twn/IdentifierBenchmark.java:100-121 | on three separate sources whose next 32 draws agree, the stream, buffer and array strategies return one and the same identifier, the identifier of those draws |
| `Randomness.NextIntValue` | src/main/java/twn/IdentifierBenchmark.java:110 | a `nextInt(bound)` value lies in `[0, bound)`, so a table lookup with bound 36 is in range |
| `Randomness.StreamValue` | src/main/java/twn/IdentifierBenchmark.java:101 | an element of `ints(n, origin, bound)` lies in `[origin, bound)` |
| `Randomness.NextInts` | src/main/java/twn/IdentifierBenchmark.java:109-110 | `n` successive `nextInt(bound)` calls give `n` values, all in `[0, bound)` |
| `Randomness.StreamInts` | src/main/java/twn/IdentifierBenchmark.java:101 | the stream `ints(n, origin, bound)` has `n` elements, all in `[origin, bound)` |
| `Randomness.NextIntsAt` | src/main/java/twn/IdentifierBenchmark.java:109-110 | the `k`-th `nextInt` value is drawn in the state after `k` draws, and a longer run of calls extends a shorter one |
| `Randomness.StreamIntsAt` | src/main/java/twn/IdentifierBenchmark.java:101 | the `k`-th stream element is drawn in the state after `k` draws, and a longer stream extends a shorter one |
| `Randomness.RandomSource.constructor` | src/main/java/twn/IdentifierBenchmark.java:27 | a new source starts in its seed state with no draws made |
| `Randomness.RandomSource.NextInt` | src/main/java/twn/IdentifierBenchmark.java:110 | returns a value in `[0, bound)` fixed by the current state and the bound, moves to the state the generator gives for that draw and records the draw |
| `Randomness.RandomSource.Ints` | src/main/java/twn/IdentifierBenchmark.java:101 | returns `streamSize` values in `[origin, bound)` in draw order, moves to the stream's state after `streamSize` elements and records one draw per element |

## Left out

- The internal algorithms of `java.util.Random`, `SecureRandom` and `ThreadLocalRandom` are library code. They are replaced by the abstract `Generator`. Seeding, such as the seed that `new Random()` derives from the clock, becomes the constructor's `seed` parameter.
- Randomness.RandomSource.NextInt: assumes a generator that is deterministic in its own state, where a draw's value and the next state depend only on the current state and the range asked for. A seeded `Random` or `ThreadLocalRandom` fits this. `SecureRandom` does not, because it mixes entropy from the operating system into its output. For it, the model's state must be read as also covering that entropy, and "equal starting states" has no observable counterpart. One modelled draw is one `nextInt` call or one stream element, however many internal seed steps the library takes for it (such as the retries of `nextInt`'s rejection loop). So "32 draws" counts calls, not seed steps.
- Uniformity and distribution, including the double weight the duplicate `'m'` carries, are probabilistic claims and are not stated. The model proves only the structural fact behind the skew (`AlphaNumCollision`, `IdentDeterminesDraws`).
- Randomness.RandomSource.Ints: computes the stream eagerly. `IntStream` is lazy and draws each element when the reduction consumes it. The draws and their order are the same, because nothing else touches the source in between.
- IdentifierBenchmark.Reduce: models the sequential reduction only. The third argument of `reduce` (the combiner `StringBuilder::append`) is used only by parallel streams, and the benchmark's stream is sequential.
- The `StringBuilder(IDENTIFIER_SIZE)` initial capacity is left out. It affects allocation only, not contents. The builder is modelled as a growing `string`.
- The 13 `@Benchmark` methods (lines 35-98) are one-line dispatchers. Each passes a shared, freshly constructed or thread-local source to one of the three strategies (`stream…` to `StreamRandom`, `loopStringBuilder…` to `LoopStringBuilderRandom`, `loopCharArray…` to `LoopCharArrayRandom`). They are not modelled separately.
- The `@State` holder classes (lines 25-33) and their JMH-managed lifetimes are left out. Sharing a source across threads, thread safety, and all timing and throughput measurement are concurrency and performance concerns with no functional content.
- The JMH launcher `main` (lines 123-133) is left out. It is framework configuration (10 warmup and 10 measurement iterations, 1 thread, 1 fork).
- The library's argument checks throw exceptions for `nextInt` with a bound that is not positive, `ints` with a negative `streamSize`, and `ints` with `origin >= bound`. They are stated as preconditions (a negative `streamSize` is excluded by its type `nat`), because every call in the benchmark passes `ALPHA_NUM.length` = 36, origin 0 and size 32.
