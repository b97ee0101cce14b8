/**
 * Reduction of the per-rank trace buffers of a multi-process run into the one
 * buffer the root process writes: every rank's bytes, concatenated in rank order.
 */
module TraceBuffers {

  /** The concatenation of all buffers, first rank first. */
  function Flatten<T>(ranks: seq<seq<T>>): seq<T>
  {
    if ranks == [] then [] else Flatten(ranks[..|ranks| - 1]) + ranks[|ranks| - 1]
  }

  /** Sum of the buffer sizes. */
  function TotalSize<T>(ranks: seq<seq<T>>): nat
  {
    if ranks == [] then 0 else TotalSize(ranks[..|ranks| - 1]) + |ranks[|ranks| - 1]|
  }

  /** Where rank i's bytes start in the combined buffer. */
  function Offset<T>(ranks: seq<seq<T>>, i: nat): nat
    requires i <= |ranks|
  {
    TotalSize(ranks[..i])
  }

  lemma {:induction false} FlattenSize<T>(ranks: seq<seq<T>>)
    ensures |Flatten(ranks)| == TotalSize(ranks)
  {
    if ranks != [] {
      FlattenSize(ranks[..|ranks| - 1]);
    }
  }

  lemma {:induction false} FlattenAppend<T>(a: seq<seq<T>>, b: seq<seq<T>>)
    ensures Flatten(a + b) == Flatten(a) + Flatten(b)
    decreases |b|
  {
    if b == [] {
      assert a + b == a;
    } else {
      var front := b[..|b| - 1];
      assert (a + b)[..|a + b| - 1] == a + front;
      assert (a + b)[|a + b| - 1] == b[|b| - 1];
      FlattenAppend(a, front);
    }
  }

  /** The combined buffer holds rank i's buffer, unchanged, at its offset. */
  lemma RankAtOffset<T>(ranks: seq<seq<T>>, i: nat)
    requires i < |ranks|
    ensures Offset(ranks, i) + |ranks[i]| <= |Flatten(ranks)|
    ensures Flatten(ranks)[Offset(ranks, i)..Offset(ranks, i) + |ranks[i]|] == ranks[i]
  {
    assert ranks == ranks[..i] + ([ranks[i]] + ranks[i + 1..]);
    FlattenAppend(ranks[..i], [ranks[i]] + ranks[i + 1..]);
    FlattenAppend([ranks[i]], ranks[i + 1..]);
    assert Flatten([ranks[i]]) == ranks[i] by {
      assert [ranks[i]][..0] == [];
    }
    FlattenSize(ranks[..i]);
  }

  /** Nothing is combined into a non-empty buffer unless some rank recorded something. */
  lemma {:induction false} FlattenEmpty<T>(ranks: seq<seq<T>>)
    ensures Flatten(ranks) == [] <==> forall i :: 0 <= i < |ranks| ==> ranks[i] == []
  {
    if ranks != [] {
      var front := ranks[..|ranks| - 1];
      FlattenEmpty(front);
      assert forall i :: 0 <= i < |front| ==> front[i] == ranks[i];
    }
  }

  /**
   * The combining loop of the trace reduction: it starts from an empty buffer,
   * moves the first non-empty rank's buffer in, and appends every later one.
   */
  method CombineRankTraces<T>(ranks: seq<seq<T>>) returns (data: seq<T>)
    ensures data == Flatten(ranks)
    ensures |data| == TotalSize(ranks)
  {
    data := [];
    var i := 0;
    while i < |ranks|
      invariant 0 <= i <= |ranks|
      invariant data == Flatten(ranks[..i])
    {
      assert ranks[..i + 1][..i] == ranks[..i];
      if data == [] {
        data := ranks[i];
      } else {
        data := data + ranks[i];
      }
      i := i + 1;
    }
    assert ranks[..i] == ranks;
    FlattenSize(ranks);
  }
}
