/** Random identifier generation: 32 characters, each looked up in a fixed
    36-entry table at an index drawn from a random source, assembled by one of
    three strategies (a stream reduction, a growable buffer, a fixed array). */
module IdentifierBenchmark {
  import opened Randomness

  /** Length of every identifier. */
  const IDENTIFIER_SIZE: nat := 32

  /** The lookup table, exactly as the source declares it (note 'm' twice, no 'n'). */
  const ALPHA_NUM: seq<char> := [
    '0', '1', '2', '3', '4', '5', '6', '7', '8', '9',
    'a', 'b', 'c', 'd', 'e', 'f', 'g', 'h', 'i', 'j',
    'k', 'l', 'm', 'm', 'o', 'p', 'q', 'r', 's', 't',
    'u', 'v', 'w', 'x', 'y', 'z'
  ]

  /** The value every cell of a newly allocated char[] holds. */
  const CHAR_DEFAULT: char := '\0'

  predicate IsIndex(d: int)
  {
    0 <= d < |ALPHA_NUM|
  }

  predicate AllIndices(indices: seq<int>)
  {
    forall k :: 0 <= k < |indices| ==> IsIndex(indices[k])
  }

  /** The table holds 36 entries: the digits in order, then the lower-case letters
      in order, except that index 23 repeats 'm' where 'n' would stand. */
  lemma AlphaNumLayout()
    ensures |ALPHA_NUM| == 36
    ensures forall i :: 0 <= i < 10 ==> ALPHA_NUM[i] as int == '0' as int + i
    ensures forall i :: 10 <= i < 36 && i != 23 ==> ALPHA_NUM[i] as int == 'a' as int + (i - 10)
    ensures ALPHA_NUM[22] == 'm' && ALPHA_NUM[23] == 'm'
    ensures 'n' !in ALPHA_NUM
  {
  }

  /** Two table entries are equal exactly when they are the same entry or are the
      two copies of 'm'. */
  lemma AlphaNumCollision(i: int, j: int)
    requires IsIndex(i) && IsIndex(j)
    ensures ALPHA_NUM[i] == ALPHA_NUM[j] <==> i == j || (i == 22 && j == 23) || (i == 23 && j == 22)
  {
    AlphaNumLayout();
    if i != j && ALPHA_NUM[i] == ALPHA_NUM[j] {
      assert ALPHA_NUM[i] as int == ALPHA_NUM[j] as int;
    }
  }

  /** The identifier that index draws `indices` denote: character k is the table
      entry at the k-th drawn index. */
  function Ident(indices: seq<int>): (r: string)
    requires |indices| == IDENTIFIER_SIZE && AllIndices(indices)
    ensures |r| == IDENTIFIER_SIZE
    ensures forall k :: 0 <= k < |r| ==> r[k] in ALPHA_NUM && r[k] != 'n'
  {
    seq(IDENTIFIER_SIZE, k requires 0 <= k < IDENTIFIER_SIZE => ALPHA_NUM[indices[k]])
  }

  /** Draws 0, 9, 10, 35 at the start give an identifier that starts with "09az". */
  lemma IdentPrefixExample(indices: seq<int>)
    requires |indices| == IDENTIFIER_SIZE && AllIndices(indices)
    requires indices[0] == 0 && indices[1] == 9 && indices[2] == 10 && indices[3] == 35
    ensures Ident(indices)[..4] == "09az"
  {
    var id := Ident(indices);
    assert id[0] == ALPHA_NUM[0];
    assert id[1] == ALPHA_NUM[9];
    assert id[2] == ALPHA_NUM[10];
    assert id[3] == ALPHA_NUM[35];
    assert id[..4] == [id[0], id[1], id[2], id[3]];
  }

  /** Two draw sequences give the same identifier exactly when, position by position,
      they drew the same index or the two indices of 'm'. */
  lemma IdentDeterminesDraws(a: seq<int>, b: seq<int>)
    requires |a| == IDENTIFIER_SIZE && AllIndices(a)
    requires |b| == IDENTIFIER_SIZE && AllIndices(b)
    ensures Ident(a) == Ident(b) <==>
      forall k :: 0 <= k < IDENTIFIER_SIZE ==>
        a[k] == b[k] || (a[k] == 22 && b[k] == 23) || (a[k] == 23 && b[k] == 22)
  {
    forall k | 0 <= k < IDENTIFIER_SIZE
      ensures Ident(a)[k] == Ident(b)[k] <==>
        a[k] == b[k] || (a[k] == 22 && b[k] == 23) || (a[k] == 23 && b[k] == 22)
    {
      AlphaNumCollision(a[k], b[k]);
    }
    if Ident(a) != Ident(b) {
      var k :| 0 <= k < IDENTIFIER_SIZE && Ident(a)[k] != Ident(b)[k];
    }
  }

  // ---- streamRandom: ints(...).mapToObj(...).reduce(...) ----

  /** mapToObj(index -> ALPHA_NUM[index]): the stream of table entries, in stream order. */
  function MapToObj(indices: seq<int>): (r: string)
    requires AllIndices(indices)
    ensures |r| == |indices|
    ensures forall k :: 0 <= k < |r| ==> r[k] == ALPHA_NUM[indices[k]]
  {
    if indices == [] then [] else [ALPHA_NUM[indices[0]]] + MapToObj(indices[1..])
  }

  /** reduce(builder, StringBuilder::append, ...) on a sequential stream: a left fold
      that appends each character to the builder in turn, so the result is the
      builder's contents followed by the characters in stream order. */
  function Reduce(builder: string, chars: string): (r: string)
    ensures r == builder + chars
    decreases |chars|
  {
    if chars == [] then builder else Reduce(builder + [chars[0]], chars[1..])
  }

  /** The stream pipeline applied to the drawn indices, from an empty builder. */
  function StreamIdentifier(indices: seq<int>): (r: string)
    requires |indices| == IDENTIFIER_SIZE && AllIndices(indices)
    ensures r == Ident(indices)
  {
    Reduce([], MapToObj(indices))
  }

  /** streamRandom: draws 32 indices in [0, 36) as one stream and reduces the mapped
      stream into a string. */
  method StreamRandom(random: RandomSource) returns (id: string)
    modifies random
    ensures id == Ident(StreamInts(random.gen, old(random.state), 0, |ALPHA_NUM|, IDENTIFIER_SIZE))
    ensures random.state == StreamState(random.gen, old(random.state), 0, |ALPHA_NUM|, IDENTIFIER_SIZE)
    ensures random.history == old(random.history)
      + Requests(0, |ALPHA_NUM|, StreamInts(random.gen, old(random.state), 0, |ALPHA_NUM|, IDENTIFIER_SIZE))
  {
    var indices := random.Ints(IDENTIFIER_SIZE, 0, |ALPHA_NUM|);
    id := StreamIdentifier(indices);
  }

  /** loopStringBuilderRandom: 32 calls of nextInt(36), each table entry appended to a buffer. */
  method LoopStringBuilderRandom(random: RandomSource) returns (id: string)
    modifies random
    ensures id == Ident(NextInts(random.gen, old(random.state), |ALPHA_NUM|, IDENTIFIER_SIZE))
    ensures random.state == NextIntState(random.gen, old(random.state), |ALPHA_NUM|, IDENTIFIER_SIZE)
    ensures random.history == old(random.history)
      + Requests(0, |ALPHA_NUM|, NextInts(random.gen, old(random.state), |ALPHA_NUM|, IDENTIFIER_SIZE))
  {
    var builder: string := [];
    ghost var drawn: seq<int> := [];
    for i := 0 to IDENTIFIER_SIZE
      invariant drawn == NextInts(random.gen, old(random.state), |ALPHA_NUM|, i)
      invariant random.state == NextIntState(random.gen, old(random.state), |ALPHA_NUM|, i)
      invariant random.history == old(random.history) + Requests(0, |ALPHA_NUM|, drawn)
      invariant |builder| == i
      invariant forall k :: 0 <= k < i ==> builder[k] == ALPHA_NUM[drawn[k]]
    {
      var index := random.NextInt(|ALPHA_NUM|);
      assert Requests(0, |ALPHA_NUM|, drawn + [index]) == Requests(0, |ALPHA_NUM|, drawn) + [Draw(0, |ALPHA_NUM|, index)];
      builder := builder + [ALPHA_NUM[index]];
      drawn := drawn + [index];
    }
    id := builder;
  }

  /** loopCharArrayRandom: 32 calls of nextInt(36), each table entry written into its
      cell of a fresh char[32]; the cells not yet written keep the default char. */
  method LoopCharArrayRandom(random: RandomSource) returns (id: string)
    modifies random
    ensures id == Ident(NextInts(random.gen, old(random.state), |ALPHA_NUM|, IDENTIFIER_SIZE))
    ensures random.state == NextIntState(random.gen, old(random.state), |ALPHA_NUM|, IDENTIFIER_SIZE)
    ensures random.history == old(random.history)
      + Requests(0, |ALPHA_NUM|, NextInts(random.gen, old(random.state), |ALPHA_NUM|, IDENTIFIER_SIZE))
  {
    var identifier := new char[IDENTIFIER_SIZE](_ => CHAR_DEFAULT);
    ghost var drawn: seq<int> := [];
    for i := 0 to IDENTIFIER_SIZE
      invariant drawn == NextInts(random.gen, old(random.state), |ALPHA_NUM|, i)
      invariant random.state == NextIntState(random.gen, old(random.state), |ALPHA_NUM|, i)
      invariant random.history == old(random.history) + Requests(0, |ALPHA_NUM|, drawn)
      invariant forall k :: 0 <= k < i ==> identifier[k] == ALPHA_NUM[drawn[k]]
      invariant forall k :: i <= k < IDENTIFIER_SIZE ==> identifier[k] == CHAR_DEFAULT
    {
      var index := random.NextInt(|ALPHA_NUM|);
      assert Requests(0, |ALPHA_NUM|, drawn + [index]) == Requests(0, |ALPHA_NUM|, drawn) + [Draw(0, |ALPHA_NUM|, index)];
      identifier[i] := ALPHA_NUM[index];
      drawn := drawn + [index];
    }
    id := identifier[..];
  }

  // ---- the strategies agree ----

  /** Order is kept by the two loop strategies: character k is the table entry of the
      k-th nextInt(36) value, drawn in the state reached after k draws. */
  lemma NextIntIdentAt(g: Generator, state: int, k: nat)
    requires k < IDENTIFIER_SIZE
    ensures Ident(NextInts(g, state, |ALPHA_NUM|, IDENTIFIER_SIZE))[k]
      == ALPHA_NUM[NextIntValue(g, NextIntState(g, state, |ALPHA_NUM|, k), |ALPHA_NUM|)]
  {
    NextIntsAt(g, state, |ALPHA_NUM|, IDENTIFIER_SIZE, k);
  }

  /** Order is kept by the stream strategy: character k is the table entry of the
      k-th stream element, drawn in the state reached after k elements. */
  lemma StreamIdentAt(g: Generator, state: int, k: nat)
    requires k < IDENTIFIER_SIZE
    ensures Ident(StreamInts(g, state, 0, |ALPHA_NUM|, IDENTIFIER_SIZE))[k]
      == ALPHA_NUM[StreamValue(g, StreamState(g, state, 0, |ALPHA_NUM|, k), 0, |ALPHA_NUM|)]
  {
    StreamIntsAt(g, state, 0, |ALPHA_NUM|, IDENTIFIER_SIZE, k);
  }

  /** Given the same draws, the three strategies return the same identifier: run on
      three separate sources whose next 32 draws agree, they give one string. */
  method StrategiesAgree(forStream: RandomSource, forBuilder: RandomSource, forArray: RandomSource)
    returns (fromStream: string, fromBuilder: string, fromArray: string)
    requires forStream != forBuilder && forStream != forArray && forBuilder != forArray
    requires StreamInts(forStream.gen, forStream.state, 0, |ALPHA_NUM|, IDENTIFIER_SIZE)
      == NextInts(forBuilder.gen, forBuilder.state, |ALPHA_NUM|, IDENTIFIER_SIZE)
    requires NextInts(forBuilder.gen, forBuilder.state, |ALPHA_NUM|, IDENTIFIER_SIZE)
      == NextInts(forArray.gen, forArray.state, |ALPHA_NUM|, IDENTIFIER_SIZE)
    modifies forStream, forBuilder, forArray
    ensures fromStream == fromBuilder == fromArray
    ensures fromStream == Ident(NextInts(forBuilder.gen, old(forBuilder.state), |ALPHA_NUM|, IDENTIFIER_SIZE))
  {
    fromStream := StreamRandom(forStream);
    fromBuilder := LoopStringBuilderRandom(forBuilder);
    fromArray := LoopCharArrayRandom(forArray);
  }
}
