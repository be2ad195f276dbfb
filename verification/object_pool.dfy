/** ObjectPool.h: slots handed out from a stack of free indices. */
module ObjectPools {
  import opened Common

  /** The free stack is duplicate-free and, with the indices in use, makes up 0 .. n - 1. */
  ghost predicate Partition(free: seq<int>, live: set<int>, n: nat)
  {
    && (forall i :: 0 <= i < |free| ==> 0 <= free[i] < n && free[i] !in live)
    && (forall i, j :: 0 <= i < j < |free| ==> free[i] != free[j])
    && (forall x :: 0 <= x < n ==> x in free || x in live)
    && (forall x :: x in live ==> 0 <= x < n)
  }

  /** The stack as it starts: N - 1 at the bottom, 0 on top. */
  function Descending(n: nat, from: nat): (s: seq<int>)
    requires from <= n
    ensures |s| == n - from
    ensures forall i :: 0 <= i < |s| ==> s[i] == n - 1 - i
  {
    seq(n - from, i => n - 1 - i)
  }

  class ObjectPool {
    const size: nat
    var freeList: seq<int>      // the top of the stack is the last element
    ghost var live: set<int>    // handed out and not given back

    ghost predicate Valid() reads this { Partition(freeList, live, size) }

    constructor (n: nat)
      ensures Valid() && size == n && live == {} && freeList == Descending(n, 0)
    {
      size := n;
      live := {};
      freeList := [];
      new;
      var i := n - 1;
      while i >= 0
        invariant -1 <= i < n && size == n && live == {}
        invariant freeList == Descending(n, i + 1)
      {
        freeList := freeList + [i];
        i := i - 1;
      }
      forall x | 0 <= x < n
        ensures x in freeList
      {
        assert freeList[n - 1 - x] == x;
      }
    }

    /** Hands out the index on top, or -1; on a pool in order, -1 means exactly that all `size`
        indices are in use, and any other answer is an index that was not. */
    method Alloc() returns (i: int)
      modifies this
      ensures (freeList, live) == Step(old(freeList), old(live), Allocate)
      ensures i == if old(freeList) == [] then -1 else old(freeList)[|old(freeList)| - 1]
      ensures old(Valid()) ==> Valid() && (i == -1 <==> |old(live)| == size)
      ensures old(Valid()) && i != -1 ==> 0 <= i < size && i !in old(live) && i in live
    {
      if Partition(freeList, live, size) {
        LiveAndFree(freeList, live, size);
        StepKeepsPartition(freeList, live, size, Allocate);
      }
      if freeList == [] {
        return -1;
      }
      i := freeList[|freeList| - 1];
      freeList := freeList[..|freeList| - 1];
      live := live + {i};
    }

    /** Pushes the index back whatever it is; a pool in order stays so exactly when the index
        was in use. */
    method Free(i: int)
      modifies this
      ensures (freeList, live) == Step(old(freeList), old(live), Release(i))
      ensures old(Valid()) ==> (Valid() <==> i in old(live))
    {
      if Partition(freeList, live, size) {
        if i in live {
          StepKeepsPartition(freeList, live, size, Release(i));
        } else {
          BadRelease(freeList, live, size, i);
        }
      }
      freeList := freeList + [i];
      live := live - {i};
    }
  }

  /** Releasing an index that is not in use breaks the partition: it is then on the stack twice
      or outside the pool, and can be handed out to two owners. */
  lemma BadRelease(free: seq<int>, live: set<int>, n: nat, i: int)
    requires Partition(free, live, n) && i !in live
    ensures !Partition(free + [i], live - {i}, n)
  {
    var f := free + [i];
    assert f[|free|] == i;
    if 0 <= i < n {
      var k :| 0 <= k < |free| && free[k] == i;
      assert f[k] == f[|free|];
    }
  }

  /** Pigeonhole: free slots and live slots together number n. */
  lemma LiveAndFree(free: seq<int>, live: set<int>, n: nat)
    requires Partition(free, live, n)
    ensures |free| + |live| == n
  {
    ElementsSize(free);
    assert Elements(free) !! live;
    assert Interval(0, n) == Elements(free) + live;
  }

  // ------------------------------------------------------------------ whole runs

  datatype Op = Allocate | Release(index: int)

  /** The stack and what is handed out, after one operation. */
  function Step(free: seq<int>, live: set<int>, op: Op): (seq<int>, set<int>)
  {
    match op
    case Allocate => if free == [] then (free, live) else (free[..|free| - 1], live + {free[|free| - 1]})
    case Release(i) => (free + [i], live - {i})
  }

  /** Every release is of an index in use at that point. */
  predicate Disciplined(free: seq<int>, live: set<int>, ops: seq<Op>)
    decreases |ops|
  {
    ops == [] ||
    ((ops[0].Release? ==> ops[0].index in live) && Disciplined(Step(free, live, ops[0]).0, Step(free, live, ops[0]).1, ops[1..]))
  }

  function Run(free: seq<int>, live: set<int>, ops: seq<Op>): (seq<int>, set<int>)
    decreases |ops|
  {
    if ops == [] then (free, live) else Run(Step(free, live, ops[0]).0, Step(free, live, ops[0]).1, ops[1..])
  }

  /** The partition holds before every operation of the run, and at its end. */
  ghost predicate AlwaysPartition(free: seq<int>, live: set<int>, n: nat, ops: seq<Op>)
    decreases |ops|
  {
    Partition(free, live, n) &&
    (ops == [] || AlwaysPartition(Step(free, live, ops[0]).0, Step(free, live, ops[0]).1, n, ops[1..]))
  }

  /** The pool stays in order throughout a run exactly when the run releases only indices in use
      at that point; then nothing is ever handed out to two owners. */
  lemma {:induction false} DisciplineIsExact(free: seq<int>, live: set<int>, n: nat, ops: seq<Op>)
    requires Partition(free, live, n)
    ensures Disciplined(free, live, ops) <==> AlwaysPartition(free, live, n, ops)
    decreases |ops|
  {
    if ops != [] {
      var (f, l) := Step(free, live, ops[0]);
      if ops[0].Release? && ops[0].index !in live {
        BadRelease(free, live, n, ops[0].index);
      } else {
        StepKeepsPartition(free, live, n, ops[0]);
        DisciplineIsExact(f, l, n, ops[1..]);
      }
    }
  }

  lemma StepKeepsPartition(free: seq<int>, live: set<int>, n: nat, op: Op)
    requires Partition(free, live, n) && (op.Release? ==> op.index in live)
    ensures Partition(Step(free, live, op).0, Step(free, live, op).1, n)
  {
    var (f, l) := Step(free, live, op);
    forall x | 0 <= x < n
      ensures x in f || x in l
    {
      if x in free {
        var k :| 0 <= k < |free| && free[k] == x;
        assert k < |f| ==> f[k] == x;
      }
      if op.Release? {
        assert f[|f| - 1] == op.index;
      }
    }
  }

  /** A slot given back is the next one handed out. */
  lemma LastReleasedFirst(free: seq<int>, live: set<int>, i: int)
    requires i in live
    ensures Run(free, live, [Release(i), Allocate]) == (free, live)
  {
    var (f, l) := Step(free, live, Release(i));
    assert [Release(i), Allocate][1..] == [Allocate] && [Allocate][1..] == [];
    assert f[..|f| - 1] == free && l + {i} == live;
  }
}
