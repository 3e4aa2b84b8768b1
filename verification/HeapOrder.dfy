/**
 Heap order with a hole. `ts` lists the times of the nodes 1, 2, ... of a binary heap;
 the value at the hole does not count.
 */
module HeapOrder {

  /** The time in node `i`. */
  function At(ts: seq<int>, i: nat): int
    requires 1 <= i <= |ts|
  {
    ts[i - 1]
  }

  /** Every node is not earlier than its parent; the nodes below the hole are compared
      with the node above it. */
  ghost predicate Ordered(ts: seq<int>, hole: nat) {
    && (forall i :: 2 <= i <= |ts| && i != hole && i / 2 != hole ==> At(ts, i / 2) <= At(ts, i))
    && (1 < hole <= |ts| ==> forall i :: 2 <= i <= |ts| && i / 2 == hole ==> At(ts, hole / 2) <= At(ts, i))
  }

  /** `t` is not later than the nodes below the hole. */
  ghost predicate Below(ts: seq<int>, hole: nat, t: int) {
    forall i :: 2 <= i <= |ts| && i / 2 == hole ==> t <= At(ts, i)
  }

  /** `t` is not earlier than the node above the hole. */
  ghost predicate Above(ts: seq<int>, hole: nat, t: int) {
    1 < hole <= |ts| ==> At(ts, hole / 2) <= t
  }

  /** An ordinary heap is one whose hole lies past the end. */
  ghost predicate IsHeap(ts: seq<int>) {
    Ordered(ts, |ts| + 1)
  }

  lemma MoveUp(ts: seq<int>, hole: nat, t: int)
    requires 1 < hole <= |ts| && Ordered(ts, hole) && t <= At(ts, hole / 2)
    ensures var ts' := ts[hole - 1 := At(ts, hole / 2)];
      Ordered(ts', hole / 2) && Below(ts', hole / 2, t)
  {
    var p := hole / 2;
    var ts' := ts[hole - 1 := At(ts, p)];
    forall i | 2 <= i <= |ts'| && i != p && i / 2 != p
      ensures At(ts', i / 2) <= At(ts', i)
    {
      if i / 2 == hole {
        assert At(ts, p) <= At(ts, i);
      } else {
        assert At(ts, i / 2) <= At(ts, i);
      }
    }
    forall i | 2 <= i <= |ts'| && i / 2 == p
      ensures t <= At(ts', i) && (1 < p ==> At(ts', p / 2) <= At(ts', i))
    {
      assert i != hole ==> At(ts, i / 2) <= At(ts, i);
      assert 1 < p ==> At(ts, p / 2) <= At(ts, p);
    }
  }

  lemma MoveDown(ts: seq<int>, hole: nat, child: nat, t: int)
    requires 1 <= hole && child / 2 == hole && 2 <= child <= |ts|
    requires Ordered(ts, hole) && Above(ts, hole, t) && At(ts, child) <= t
    requires forall i :: 2 <= i <= |ts| && i / 2 == hole ==> At(ts, child) <= At(ts, i)
    ensures var ts' := ts[hole - 1 := At(ts, child)];
      Ordered(ts', child) && Above(ts', child, t)
  {
    var ts' := ts[hole - 1 := At(ts, child)];
    forall i | 2 <= i <= |ts'| && i != child && i / 2 != child
      ensures At(ts', i / 2) <= At(ts', i)
    {
      if i == hole {
        assert At(ts, hole / 2) <= At(ts, child);
      } else if i / 2 == hole {
        assert At(ts, child) <= At(ts, i);
      } else {
        assert At(ts, i / 2) <= At(ts, i);
      }
    }
    forall i | 2 <= i <= |ts'| && i / 2 == child
      ensures At(ts', child / 2) <= At(ts', i)
    {
      assert At(ts, i / 2) <= At(ts, i);
    }
  }

  /** Filling the hole with a time that fits there gives a heap. */
  lemma Fill(ts: seq<int>, hole: nat, t: int)
    requires 1 <= hole <= |ts| && Ordered(ts, hole) && Below(ts, hole, t) && Above(ts, hole, t)
    ensures IsHeap(ts[hole - 1 := t])
  {
    var ts' := ts[hole - 1 := t];
    forall i | 2 <= i <= |ts'|
      ensures At(ts', i / 2) <= At(ts', i)
    {
      if i == hole {
        assert At(ts', i / 2) == At(ts, hole / 2);
      } else if i / 2 == hole {
        assert t <= At(ts, i);
      } else {
        assert At(ts, i / 2) <= At(ts, i);
      }
    }
  }

  /** Taking the last node away, and one node out of what is left, makes a hole there. */
  lemma Open(ts: seq<int>, hole: nat)
    requires IsHeap(ts) && 1 <= hole <= |ts|
    ensures Ordered(ts[..|ts| - 1], hole)
    ensures 1 < hole ==> At(ts, hole / 2) <= At(ts, hole)
  {
    var ts' := ts[..|ts| - 1];
    forall i | 2 <= i <= |ts'|
      ensures At(ts', i / 2) <= At(ts', i)
    {
      assert At(ts, i / 2) <= At(ts, i);
    }
    forall i | 2 <= i <= |ts'| && i / 2 == hole && 1 < hole
      ensures At(ts', hole / 2) <= At(ts', i)
    {
      assert At(ts', i / 2) <= At(ts', i);
      assert At(ts', hole / 2) <= At(ts', hole);
    }
  }

  /** One more place at the end, still empty, is a hole with nothing below it. */
  lemma Extend(ts: seq<int>, x: int, t: int)
    requires IsHeap(ts)
    ensures Ordered(ts + [x], |ts| + 1)
    ensures Below(ts + [x], |ts| + 1, t)
  {
    var ts' := ts + [x];
    forall i | 2 <= i <= |ts'| && i != |ts| + 1
      ensures At(ts', i / 2) <= At(ts', i)
    {
      assert At(ts, i / 2) <= At(ts, i);
    }
  }

  /** The earlier of the two children of a node is the least of its children. */
  lemma LeastChild(ts: seq<int>, node: nat, child: nat)
    requires 1 <= node && 2 <= 2 * node <= child <= 2 * node + 1 && child <= |ts|
    requires At(ts, child) <= At(ts, 2 * node)
    requires 2 * node + 1 <= |ts| ==> At(ts, child) <= At(ts, 2 * node + 1)
    ensures forall i :: 2 <= i <= |ts| && i / 2 == node ==> At(ts, child) <= At(ts, i)
  {
    forall i | 2 <= i <= |ts| && i / 2 == node
      ensures At(ts, child) <= At(ts, i)
    {
      assert i == 2 * node || i == 2 * node + 1;
    }
  }

  /** The root of a heap is the least of all. */
  lemma {:induction false} RootIsLeast(ts: seq<int>, i: nat)
    requires IsHeap(ts) && 1 <= i <= |ts|
    ensures At(ts, 1) <= At(ts, i)
  {
    if i > 1 {
      RootIsLeast(ts, i / 2);
      assert At(ts, i / 2) <= At(ts, i);
    }
  }
}
