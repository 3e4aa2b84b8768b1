/**
 queue.h: circular doubly linked lists with a header, by their pointers. Everywhere else
 queues are sequences; here the pointer operations are shown to be the sequence operations.
 */
module Queues {
  import opened Common

  /** QUEUE. */
  class Queue {
    var next: Queue
    var prev: Queue

    /** queue_initialize: a header that points to itself. */
    constructor ()
      ensures Ring([this])
    {
      next := this;
      prev := this;
    }
  }

  /** The place after `i`, and before it, going round `n` places. */
  function Succ(i: nat, n: nat): nat {
    if i + 1 >= n then 0 else i + 1
  }

  function Pred(i: nat, n: nat): nat
    requires 0 < n
  {
    if i == 0 then n - 1 else i - 1
  }

  /** The pointers go round `r`, which starts with the header, in both directions. */
  ghost predicate Ring(r: seq<Queue>)
    reads r
  {
    && |r| > 0 && NoDup(r)
    && (forall i: nat :: i < |r| ==> LinkOk(r, i))
  }

  /** The pointers of the entry at place `i` lead to its neighbours. */
  ghost predicate LinkOk(r: seq<Queue>, i: nat)
    requires i < |r|
    reads r
  {
    r[i].next == r[Succ(i, |r|)] && r[i].prev == r[Pred(i, |r|)]
  }

  ghost predicate Apart(r: seq<Queue>, other: seq<Queue>) {
    forall x :: x in r ==> x !in other
  }

  /** Both directions are inverse to each other. */
  lemma NextPrevInverse(r: seq<Queue>, i: nat)
    requires Ring(r) && i < |r|
    ensures LinkOk(r, i)
    ensures r[i].next in r && r[i].next.prev == r[i]
    ensures r[i].prev in r && r[i].prev.next == r[i]
  {
    assert LinkOk(r, i) && LinkOk(r, Succ(i, |r|)) && LinkOk(r, Pred(i, |r|));
  }

  /** The entry at place `i`, going round. */
  ghost function Round(r: seq<Queue>, i: nat): Queue
    requires 0 < |r| && i <= |r|
  {
    if i == |r| then r[0] else r[i]
  }

  lemma NoDupInsert(r: seq<Queue>, k: nat, e: Queue)
    requires NoDup(r) && k <= |r| && e !in r
    ensures NoDup(r[..k] + [e] + r[k..])
  {
  }

  lemma NoDupDelete(r: seq<Queue>, k: nat)
    requires NoDup(r) && k < |r|
    ensures NoDup(r[..k] + r[k + 1..]) && r[k] !in r[..k] + r[k + 1..]
  {
  }

  /** The pointers of the entries of `r`, as values. */
  ghost function Nexts(r: seq<Queue>): seq<Queue>
    reads r
  {
    seq(|r|, i requires 0 <= i < |r| reads r => r[i].next)
  }

  ghost function Prevs(r: seq<Queue>): seq<Queue>
    reads r
  {
    seq(|r|, i requires 0 <= i < |r| reads r => r[i].prev)
  }

  /** `ns` and `ps` are the pointers of a ring `r`. */
  ghost predicate Links(r: seq<Queue>, ns: seq<Queue>, ps: seq<Queue>) {
    && |r| == |ns| == |ps| > 0 && NoDup(r)
    && forall i: nat :: i < |r| ==> LinksAt(r, ns, ps, i)
  }

  ghost predicate LinksAt(r: seq<Queue>, ns: seq<Queue>, ps: seq<Queue>, i: nat)
    requires i < |r| == |ns| == |ps|
  {
    ns[i] == r[Succ(i, |r|)] && ps[i] == r[Pred(i, |r|)]
  }

  lemma RingLinks(r: seq<Queue>)
    requires Ring(r)
    ensures Links(r, Nexts(r), Prevs(r))
  {
    forall i: nat | i < |r|
      ensures LinksAt(r, Nexts(r), Prevs(r), i)
    {
      assert LinkOk(r, i);
    }
  }

  /** An entry is linked in between the places `k - 1` and `k` of what was a ring. */
  lemma Inserted(r: seq<Queue>, ns: seq<Queue>, ps: seq<Queue>, e: Queue, k: nat)
    requires Links(r, ns, ps) && 0 < k <= |r| && e !in r
    requires e.next == Round(r, k) && e.prev == r[k - 1]
    requires forall i: nat {:trigger r[i]} :: i < |r| ==> r[i].next == if i == k - 1 then e else ns[i]
    requires forall i: nat {:trigger r[i]} :: i < |r| ==> r[i].prev == if r[i] == Round(r, k) then e else ps[i]
    ensures Ring(r[..k] + [e] + r[k..])
  {
    var r' := r[..k] + [e] + r[k..];
    NoDupInsert(r, k, e);
    forall i: nat | i < |r'|
      ensures LinkOk(r', i)
    {
      if i != k {
        var j := if i < k then i else i - 1;
        assert r'[i] == r[j] && LinksAt(r, ns, ps, j);
        assert r[j] == Round(r, k) <==> j == (if k == |r| then 0 else k);
      }
    }
  }

  /** The entry at place `k`, not the header, is taken out of what was a ring. */
  lemma Deleted(r: seq<Queue>, ns: seq<Queue>, ps: seq<Queue>, k: nat)
    requires Links(r, ns, ps) && 0 < k < |r|
    requires forall i: nat {:trigger r[i]} :: i < |r| && i != k ==> r[i].next == if i == k - 1 then Round(r, k + 1) else ns[i]
    requires forall i: nat {:trigger r[i]} :: i < |r| && i != k ==> r[i].prev == if r[i] == Round(r, k + 1) then r[k - 1] else ps[i]
    ensures Ring(r[..k] + r[k + 1..])
  {
    var r' := r[..k] + r[k + 1..];
    NoDupDelete(r, k);
    forall i: nat | i < |r'|
      ensures LinkOk(r', i)
    {
      var j := if i < k then i else i + 1;
      assert r'[i] == r[j] && LinksAt(r, ns, ps, j);
      assert r[j] == Round(r, k + 1) <==> j == (if k + 1 == |r| then 0 else k + 1);
    }
  }

  /** What is not in a ring is not touched by an operation on it. */
  lemma Untouched(other: seq<Queue>, ns: seq<Queue>, ps: seq<Queue>)
    requires Links(other, ns, ps)
    requires forall i: nat {:trigger other[i]} :: i < |other| ==> other[i].next == ns[i] && other[i].prev == ps[i]
    ensures Ring(other)
  {
    forall i: nat | i < |other|
      ensures LinkOk(other, i)
    {
      assert LinksAt(other, ns, ps, i);
    }
  }

  lemma Members(r: seq<Queue>)
    ensures forall i: nat {:trigger r[i]} :: i < |r| ==> r[i] in r
  {
  }

  /** queue_insert_prev: `e` goes before `q`, which is at place `pos`; before the header that is
      the end. */
  method InsertPrev(q: Queue, e: Queue, ghost r: seq<Queue>, ghost pos: nat, ghost other: seq<Queue>)
    requires Ring(r) && pos < |r| && r[pos] == q && e !in r
    requires Ring(other) && Apart(r, other) && e !in other
    modifies e, q, q.prev
    ensures Ring(if pos == 0 then r + [e] else r[..pos] + [e] + r[pos..])
    ensures Ring(other)
  {
    ghost var k := if pos == 0 then |r| else pos;
    NextPrevInverse(r, pos);
    Members(r);
    Members(other);
    RingLinks(r);
    RingLinks(other);
    ghost var ns, ps, ons, ops := Nexts(r), Prevs(r), Nexts(other), Prevs(other);
    assert q.prev == r[k - 1] && Round(r, k) == q;
    e.prev := q.prev;
    e.next := q;
    q.prev.next := e;
    q.prev := e;
    Inserted(r, ns, ps, e, k);
    Untouched(other, ons, ops);
    assert pos == 0 ==> r[..k] + [e] + r[k..] == r + [e];
  }

  /** queue_insert_next: `e` goes after `q`. */
  method InsertNext(q: Queue, e: Queue, ghost r: seq<Queue>, ghost pos: nat, ghost other: seq<Queue>)
    requires Ring(r) && pos < |r| && r[pos] == q && e !in r
    requires Ring(other) && Apart(r, other) && e !in other
    modifies e, q, q.next
    ensures Ring(r[..pos + 1] + [e] + r[pos + 1..])
    ensures Ring(other)
  {
    NextPrevInverse(r, pos);
    Members(r);
    Members(other);
    RingLinks(r);
    RingLinks(other);
    ghost var ns, ps, ons, ops := Nexts(r), Prevs(r), Nexts(other), Prevs(other);
    assert q.next == Round(r, pos + 1);
    e.prev := q;
    e.next := q.next;
    q.next.prev := e;
    q.next := e;
    Inserted(r, ns, ps, e, pos + 1);
    Untouched(other, ons, ops);
  }

  /** queue_delete: `e` leaves its ring; it is not the header. */
  method Delete(e: Queue, ghost r: seq<Queue>, ghost pos: nat, ghost other: seq<Queue>)
    requires Ring(r) && 0 < pos < |r| && r[pos] == e
    requires Ring(other) && Apart(r, other)
    modifies e.prev, e.next
    ensures Ring(r[..pos] + r[pos + 1..]) && e !in r[..pos] + r[pos + 1..]
    ensures Ring(other)
  {
    NextPrevInverse(r, pos);
    Members(r);
    Members(other);
    RingLinks(r);
    RingLinks(other);
    ghost var ns, ps, ons, ops := Nexts(r), Prevs(r), Nexts(other), Prevs(other);
    NoDupDelete(r, pos);
    assert e.prev == r[pos - 1] && e.next == Round(r, pos + 1);
    e.prev.next := e.next;
    e.next.prev := e.prev;
    Deleted(r, ns, ps, pos);
    Untouched(other, ons, ops);
  }

  /** queue_delete_next, on a header: the first entry leaves the ring. */
  method DeleteNext(q: Queue, ghost r: seq<Queue>, ghost other: seq<Queue>) returns (e: Queue)
    requires Ring(r) && |r| > 1 && r[0] == q
    requires Ring(other) && Apart(r, other)
    modifies q, q.next.next
    ensures e == r[1] && Ring([q] + r[2..])
    ensures Ring(other)
  {
    NextPrevInverse(r, 0);
    NextPrevInverse(r, 1);
    Members(r);
    Members(other);
    RingLinks(r);
    RingLinks(other);
    ghost var ns, ps, ons, ops := Nexts(r), Prevs(r), Nexts(other), Prevs(other);
    e := q.next;
    assert e == r[1] && e.next == Round(r, 2);
    q.next := e.next;
    e.next.prev := q;
    Deleted(r, ns, ps, 1);
    Untouched(other, ons, ops);
    assert r[..1] + r[2..] == [q] + r[2..];
  }

  /** queue_empty. */
  method Empty(q: Queue, ghost r: seq<Queue>) returns (b: bool)
    requires Ring(r) && r[0] == q
    ensures b <==> |r| == 1
  {
    NextPrevInverse(r, 0);
    b := q.next == q;
  }

  /** The queue operations of rotate_ready_queue, on at least two entries. */
  method Rotate(q: Queue, ghost r: seq<Queue>, ghost other: seq<Queue>)
    requires Ring(r) && |r| > 2 && r[0] == q
    requires Ring(other) && Apart(r, other)
    modifies r
    ensures Ring([q] + r[2..] + [r[1]])
    ensures Ring(other)
  {
    NextPrevInverse(r, 0);
    NextPrevInverse(r, 1);
    assert forall i: nat :: i < |r| ==> r[i] in r;
    var entry := DeleteNext(q, r, other);
    ghost var r1 := [q] + r[2..];
    assert entry !in r1 && entry !in other && Apart(r1, other);
    NextPrevInverse(r1, 0);
    assert forall x :: x in r1 ==> x in r;
    InsertPrev(q, entry, r1, 0, other);
  }

  /** The queue operations of init_wait_queue: all entries leave. */
  method DeleteAll(q: Queue, ghost r: seq<Queue>, ghost other: seq<Queue>)
    requires Ring(r) && r[0] == q
    requires Ring(other) && Apart(r, other)
    modifies r
    ensures Ring([q]) && Ring(other)
  {
    ghost var left := r;
    var empty := Empty(q, left);
    while !empty
      invariant Ring(left) && left[0] == q && (forall x :: x in left ==> x in r)
      invariant Ring(other) && Apart(left, other)
      invariant empty <==> |left| == 1
      decreases |left|
    {
      NextPrevInverse(left, 0);
      NextPrevInverse(left, 1);
      assert forall i: nat :: i < |left| ==> left[i] in left;
      var entry := DeleteNext(q, left, other);
      ghost var left' := [q] + left[2..];
      assert forall x :: x in left' ==> x in left;
      left := left';
      empty := Empty(q, left);
    }
    assert left == [q];
  }
}
