/**
 Ring buffers: a stretch of an array that wraps around at its end.
 */
module Rings {
  /** The slot `i` places after `head` in a ring of `cnt` slots. */
  function Slot(head: nat, i: nat, cnt: nat): nat {
    if head + i >= cnt then head + i - cnt else head + i
  }

  lemma SlotIsModulo(head: nat, i: nat, cnt: nat)
    requires head < cnt && i <= cnt
    ensures Slot(head, i, cnt) == (head + i) % cnt
  {
    if head + i >= cnt {
      assert (head + i) == cnt * 1 + (head + i - cnt);
    }
  }

  /** `count` elements from slot `head` on. */
  function RingItems<T>(mb: seq<T>, head: nat, count: nat): (r: seq<T>)
    requires count <= |mb| && (count > 0 ==> head < |mb|)
    ensures |r| == count
  {
    seq(count, i requires 0 <= i < count => mb[Slot(head, i, |mb|)])
  }

  lemma EmptyRing<T>(mb: seq<T>)
    ensures RingItems(mb, 0, 0) == []
  {
  }

  /** A new element goes behind the others. */
  lemma RingPut<T>(mb: seq<T>, head: nat, count: nat, x: T)
    requires count < |mb| && head < |mb|
    ensures Slot(head, count, |mb|) < |mb|
    ensures RingItems(mb[Slot(head, count, |mb|) := x], head, count + 1) == RingItems(mb, head, count) + [x]
  {
  }

  /** In a full ring, it takes the place of the oldest one. */
  lemma RingReplace<T>(mb: seq<T>, head: nat, x: T)
    requires head < |mb|
    ensures Slot(head, |mb|, |mb|) == head
    ensures RingItems(mb[head := x], Slot(head, 1, |mb|), |mb|) == RingItems(mb, head, |mb|)[1..] + [x]
  {
  }

  /** The oldest element is at the head. */
  lemma RingTake<T>(mb: seq<T>, head: nat, count: nat)
    requires 0 < count <= |mb| && head < |mb|
    ensures Slot(head, 1, |mb|) < |mb| && RingItems(mb, head, count) == [mb[head]] + RingItems(mb, Slot(head, 1, |mb|), count - 1)
  {
  }
}
