/**
 * The per-thread bookkeeping that finalization consolidates: the hash tables
 * (hash id to name, hash id to alias) that each thread filled, merged into
 * thread 0's tables, and the stacks of instrumentation bundles still open on
 * each thread, forcibly stopped and removed.
 */
module Bookkeeping {

  datatype Option<T> = None | Some(value: T)

  /** A hash id as produced by the metrics backend. */
  type HashId = nat

  /** The label a region or bundle was started with. */
  type Label = string

  // ----- hash tables ------------------------------------------------------------

  /**
   * Emplacing every entry of `src` into `dst`: a key that `dst` already holds
   * keeps its value, every other key of `src` is added with its value.
   */
  function Emplace<V>(dst: map<HashId, V>, src: map<HashId, V>): (r: map<HashId, V>)
    ensures r.Keys == dst.Keys + src.Keys
    ensures forall k :: k in dst ==> r[k] == dst[k]
    ensures forall k :: k in src && k !in dst ==> r[k] == src[k]
  {
    src + dst
  }

  /** A missing table contributes nothing. */
  function TableOf<V>(t: Option<map<HashId, V>>): map<HashId, V>
  {
    if t.Some? then t.value else map[]
  }

  /** Thread 0's table `zero` after the tables of threads 1 .. n-1 were emplaced into it, in thread order. */
  function MergedThrough<V>(zero: map<HashId, V>, tables: seq<Option<map<HashId, V>>>, n: nat): map<HashId, V>
    requires n <= |tables|
  {
    if n <= 1 then zero else Emplace(MergedThrough(zero, tables, n - 1), TableOf(tables[n - 1]))
  }

  /** Thread 0's table after the merge; when thread 0 has no table nothing is merged. */
  function MergeIntoFirst<V>(tables: seq<Option<map<HashId, V>>>): Option<map<HashId, V>>
    requires |tables| >= 1
  {
    if tables[0].None? then None else Some(MergedThrough(tables[0].value, tables, |tables|))
  }

  /** After the merge thread 0 knows every hash id that any thread knew: no hash is lost. */
  lemma {:induction false} MergedKeys<V>(zero: map<HashId, V>, tables: seq<Option<map<HashId, V>>>, n: nat, k: HashId)
    requires n <= |tables|
    ensures k in MergedThrough(zero, tables, n) <==>
              k in zero || exists j :: 1 <= j < n && k in TableOf(tables[j])
  {
    if n > 1 {
      MergedKeys(zero, tables, n - 1, k);
    }
  }

  /** Emplace never overwrites: the entries thread 0 had before the merge are kept. */
  lemma {:induction false} MergedKeepsZero<V>(zero: map<HashId, V>, tables: seq<Option<map<HashId, V>>>, n: nat, k: HashId)
    requires n <= |tables|
    requires k in zero
    ensures k in MergedThrough(zero, tables, n) && MergedThrough(zero, tables, n)[k] == zero[k]
  {
    if n > 1 {
      MergedKeepsZero(zero, tables, n - 1, k);
    }
  }

  /** A hash id thread 0 did not know takes the value of the lowest-numbered thread that knew it. */
  lemma {:induction false} MergedEarliestWins<V>(zero: map<HashId, V>, tables: seq<Option<map<HashId, V>>>,
                                                 n: nat, k: HashId, j: nat)
    requires 1 <= j < n <= |tables|
    requires k !in zero && k in TableOf(tables[j])
    requires forall i :: 1 <= i < j ==> k !in TableOf(tables[i])
    ensures k in MergedThrough(zero, tables, n)
    ensures MergedThrough(zero, tables, n)[k] == TableOf(tables[j])[k]
  {
    if n - 1 == j {
      MergedKeys(zero, tables, j, k);
    } else {
      MergedEarliestWins(zero, tables, n - 1, k, j);
    }
  }

  /** The inner loop of the merge: every entry of thread i's table is emplaced into thread 0's. */
  method EmplaceInto<V>(tables: array<Option<map<HashId, V>>>, i: nat)
    requires 1 <= i < tables.Length
    requires tables[0].Some? && tables[i].Some?
    modifies tables
    ensures tables[0] == Some(Emplace(old(tables[0]).value, old(tables[i]).value))
    ensures forall t :: 1 <= t < tables.Length ==> tables[t] == old(tables[t])
  {
    var dst := tables[0].value;
    var src := tables[i].value;
    var acc := dst;
    var rest := src.Keys;
    while rest != {}
      invariant rest <= src.Keys
      invariant acc.Keys == dst.Keys + (src.Keys - rest)
      invariant forall k :: k in dst ==> acc[k] == dst[k]
      invariant forall k :: k in src.Keys - rest && k !in dst ==> acc[k] == src[k]
      decreases rest
    {
      var k :| k in rest;
      if k !in acc {
        acc := acc[k := src[k]];
      }
      rest := rest - {k};
    }
    assert acc == Emplace(dst, src);
    tables[0] := Some(acc);
  }

  /**
   * The finalize-time merge: for every thread i >= 1 whose table exists, and
   * only while thread 0's table exists, both its hash-id table and its alias
   * table are emplaced into thread 0's.
   */
  method MergeHashTables(ids: array<Option<map<HashId, string>>>, aliases: array<Option<map<HashId, HashId>>>)
    requires ids.Length == aliases.Length >= 1
    modifies ids, aliases
    ensures ids[0] == MergeIntoFirst(old(ids[..]))
    ensures aliases[0] == MergeIntoFirst(old(aliases[..]))
    ensures forall t :: 1 <= t < ids.Length ==> ids[t] == old(ids[t]) && aliases[t] == old(aliases[t])
  {
    ghost var ids0 := ids[..];
    ghost var aliases0 := aliases[..];
    var i := 1;
    while i < ids.Length
      invariant 1 <= i <= ids.Length
      invariant forall t :: 1 <= t < ids.Length ==> ids[t] == ids0[t] && aliases[t] == aliases0[t]
      invariant ids[0] == if ids0[0].None? then None else Some(MergedThrough(ids0[0].value, ids0, i))
      invariant aliases[0] == if aliases0[0].None? then None else Some(MergedThrough(aliases0[0].value, aliases0, i))
    {
      if ids[0].Some? && ids[i].Some? {
        EmplaceInto(ids, i);
      } else if ids[0].Some? {
        assert Emplace(ids[0].value, TableOf(ids0[i])) == ids[0].value;
      }
      if aliases[0].Some? && aliases[i].Some? {
        EmplaceInto(aliases, i);
      } else if aliases[0].Some? {
        assert Emplace(aliases[0].value, TableOf(aliases0[i])) == aliases[0].value;
      }
      i := i + 1;
    }
  }

  // ----- instrumentation bundles ------------------------------------------------

  /** One forced stop of a bundle left open on a thread. */
  datatype Stop = Stop(thread: nat, key: Label)

  /** The stops the pop-back loop performs on one thread's stack: the newest bundle first. */
  function StopsOf(thread: nat, stack: seq<Label>): seq<Stop>
  {
    if stack == [] then [] else [Stop(thread, stack[|stack| - 1])] + StopsOf(thread, stack[..|stack| - 1])
  }

  /** The stops of the whole drain: thread 0's first, then thread 1's, and so on. */
  function DrainLog(stacks: seq<seq<Label>>): seq<Stop>
  {
    if stacks == [] then [] else DrainLog(stacks[..|stacks| - 1]) + StopsOf(|stacks| - 1, stacks[|stacks| - 1])
  }

  /** The number of bundles left open in all stacks. */
  function OpenBundles(stacks: seq<seq<Label>>): nat
  {
    if stacks == [] then 0 else OpenBundles(stacks[..|stacks| - 1]) + |stacks[|stacks| - 1]|
  }

  /** The pops the drain adds to the pop count: one per bundle on a thread marked as offset. */
  function OffsetPops(stacks: seq<seq<Label>>, offset: seq<bool>): nat
    requires |offset| == |stacks|
  {
    if stacks == [] then 0
    else OffsetPops(stacks[..|stacks| - 1], offset[..|stacks| - 1])
         + (if offset[|stacks| - 1] then |stacks[|stacks| - 1]| else 0)
  }

  /** Bundles are stopped in LIFO order: the k-th stop on a thread is its k-th newest bundle. */
  lemma {:induction false} StopsOfIsLifo(thread: nat, stack: seq<Label>)
    ensures |StopsOf(thread, stack)| == |stack|
    ensures forall k :: 0 <= k < |stack| ==> StopsOf(thread, stack)[k] == Stop(thread, stack[|stack| - 1 - k])
  {
    if stack != [] {
      var front := stack[..|stack| - 1];
      StopsOfIsLifo(thread, front);
      var rest := StopsOf(thread, front);
      assert StopsOf(thread, stack) == [Stop(thread, stack[|stack| - 1])] + rest;
      forall k | 1 <= k < |stack|
        ensures StopsOf(thread, stack)[k] == Stop(thread, stack[|stack| - 1 - k])
      {
        assert StopsOf(thread, stack)[k] == rest[k - 1];
        assert front[|front| - 1 - (k - 1)] == stack[|stack| - 1 - k];
      }
    }
  }

  /** Every open bundle is stopped exactly once: the drain performs one stop per open bundle. */
  lemma {:induction false} DrainLogSize(stacks: seq<seq<Label>>)
    ensures |DrainLog(stacks)| == OpenBundles(stacks)
  {
    if stacks != [] {
      DrainLogSize(stacks[..|stacks| - 1]);
      StopsOfIsLifo(|stacks| - 1, stacks[|stacks| - 1]);
    }
  }

  /** Every stop names a thread that exists and one of the bundles open on it. */
  lemma {:induction false} DrainLogStopsOpenBundles(stacks: seq<seq<Label>>, s: Stop)
    requires s in DrainLog(stacks)
    ensures s.thread < |stacks| && s.key in stacks[s.thread]
  {
    var last := |stacks| - 1;
    var front := stacks[..last];
    if s in DrainLog(front) {
      DrainLogStopsOpenBundles(front, s);
      assert stacks[s.thread] == front[s.thread];
    } else {
      StopsOfIsLifo(last, stacks[last]);
      var k :| 0 <= k < |StopsOf(last, stacks[last])| && StopsOf(last, stacks[last])[k] == s;
      assert s.key == stacks[last][|stacks[last]| - 1 - k];
    }
  }

  /** The drain never adds more pops than there were open bundles. */
  lemma {:induction false} OffsetPopsBound(stacks: seq<seq<Label>>, offset: seq<bool>)
    requires |offset| == |stacks|
    ensures OffsetPops(stacks, offset) <= OpenBundles(stacks)
    ensures (forall t :: 0 <= t < |offset| ==> offset[t]) ==> OffsetPops(stacks, offset) == OpenBundles(stacks)
    ensures (forall t :: 0 <= t < |offset| ==> !offset[t]) ==> OffsetPops(stacks, offset) == 0
  {
    if stacks != [] {
      OffsetPopsBound(stacks[..|stacks| - 1], offset[..|stacks| - 1]);
    }
  }

  /**
   * The finalize-time drain: on each thread in turn, while its stack is not
   * empty, the newest bundle is stopped and popped, and the pop count rises
   * by one when that thread is marked as offset.
   */
  method DrainBundles(stacks: array<seq<Label>>, offset: seq<bool>, popped: nat)
    returns (log: seq<Stop>, poppedAfter: nat)
    requires |offset| == stacks.Length
    modifies stacks
    ensures forall t :: 0 <= t < stacks.Length ==> stacks[t] == []
    ensures log == DrainLog(old(stacks[..]))
    ensures poppedAfter == popped + OffsetPops(old(stacks[..]), offset)
  {
    ghost var initial := stacks[..];
    log, poppedAfter := [], popped;
    var i := 0;
    while i < stacks.Length
      invariant 0 <= i <= stacks.Length
      invariant forall t :: 0 <= t < i ==> stacks[t] == []
      invariant forall t :: i <= t < stacks.Length ==> stacks[t] == initial[t]
      invariant log == DrainLog(initial[..i])
      invariant poppedAfter == popped + OffsetPops(initial[..i], offset[..i])
    {
      ghost var target := DrainLog(initial[..i]) + StopsOf(i, initial[i]);
      ghost var pops := OffsetPops(initial[..i], offset[..i]) + (if offset[i] then |initial[i]| else 0);
      while stacks[i] != []
        invariant forall t :: 0 <= t < i ==> stacks[t] == []
        invariant forall t :: i < t < stacks.Length ==> stacks[t] == initial[t]
        invariant log + StopsOf(i, stacks[i]) == target
        invariant poppedAfter + (if offset[i] then |stacks[i]| else 0) == popped + pops
        decreases |stacks[i]|
      {
        var stack := stacks[i];
        if offset[i] {
          poppedAfter := poppedAfter + 1;
        }
        log := log + [Stop(i, stack[|stack| - 1])];
        stacks[i] := stack[..|stack| - 1];
      }
      assert initial[..i + 1][..i] == initial[..i];
      assert offset[..i + 1][..i] == offset[..i];
      i := i + 1;
    }
    assert initial[..i] == initial;
    assert offset[..i] == offset;
  }
}
