/**
 How the queues behave when a task moves: priority order, and membership.
 */
module KernelQueues {
  import opened Common
  import opened KernelState
  import opened KernelSpec

  /** Where InsertTpri puts a task: behind all that are not worse, before all that are. */
  function TpriPosition(q: seq<TaskId>, t: TaskId, tcb: seq<Tcb>): (k: nat)
    ensures k <= |q|
  {
    if q == [] || Priority(tcb, t) < Priority(tcb, q[0]) then 0 else 1 + TpriPosition(q[1..], t, tcb)
  }

  /** Priority insertion keeps the others in their order and puts the newcomer behind equals. */
  lemma {:induction false} InsertTpriStable(q: seq<TaskId>, t: TaskId, tcb: seq<Tcb>)
    requires Sorted(q, tcb) && t < |tcb|
    ensures var k := TpriPosition(q, t, tcb);
      && InsertTpri(q, t, tcb) == q[..k] + [t] + q[k..]
      && (forall i :: 0 <= i < k ==> tcb[q[i]].priority <= tcb[t].priority)
      && (forall i :: k <= i < |q| ==> tcb[t].priority < tcb[q[i]].priority)
  {
    if q != [] && !(Priority(tcb, t) < Priority(tcb, q[0])) {
      var r := q[1..];
      var k := TpriPosition(r, t, tcb);
      InsertTpriStable(r, t, tcb);
      OneInFront(q, t, k);
      assert forall i :: 0 < i < |q| ==> q[i] == r[i - 1];
    }
  }

  lemma OneInFront(q: seq<TaskId>, t: TaskId, k: nat)
    requires q != [] && k <= |q[1..]|
    ensures [q[0]] + (q[1..][..k] + [t] + q[1..][k..]) == q[..k + 1] + [t] + q[k + 1..]
  {
  }

  lemma InsertAt(q: seq<TaskId>, t: TaskId, k: nat)
    requires k <= |q| && NoDup(q) && t !in q
    ensures NoDup(q[..k] + [t] + q[k..])
    ensures forall x :: x in q[..k] + [t] + q[k..] <==> x == t || x in q
  {
    var r := q[..k] + [t] + q[k..];
    forall x
      ensures x in r <==> x == t || x in q
    {
      if x in q {
        var i :| 0 <= i < |q| && q[i] == x;
        assert r[if i < k then i else i + 1] == x;
      }
      if x == t {
        assert r[k] == t;
      }
    }
    forall i, j | 0 <= i < j < |r|
      ensures r[i] != r[j]
    {
      var i', j' := if i < k then i else i - 1, if j < k then j else j - 1;
      assert i != k ==> r[i] == q[i'];
      assert j != k ==> r[j] == q[j'];
    }
  }

  /** Priority insertion keeps a sorted queue sorted. */
  lemma InsertTpriSorted(q: seq<TaskId>, t: TaskId, tcb: seq<Tcb>)
    requires Sorted(q, tcb) && t < |tcb| && NoDup(q) && t !in q
    ensures var r := InsertTpri(q, t, tcb);
      Sorted(r, tcb) && NoDup(r) && forall x :: x in r <==> x == t || x in q
  {
    InsertTpriStable(q, t, tcb);
    var k := TpriPosition(q, t, tcb);
    InsertAt(q, t, k);
    SortedAt(q, t, k, tcb);
  }

  lemma SortedAt(q: seq<TaskId>, t: TaskId, k: nat, tcb: seq<Tcb>)
    requires Sorted(q, tcb) && t < |tcb| && k <= |q|
    requires forall i :: 0 <= i < k ==> tcb[q[i]].priority <= tcb[t].priority
    requires forall i :: k <= i < |q| ==> tcb[t].priority < tcb[q[i]].priority
    ensures Sorted(q[..k] + [t] + q[k..], tcb)
  {
    var r := q[..k] + [t] + q[k..];
    forall i, j | 0 <= i < j < |r|
      ensures tcb[r[i]].priority <= tcb[r[j]].priority
    {
      var i', j' := if i < k then i else i - 1, if j < k then j else j - 1;
      assert i != k ==> r[i] == q[i'];
      assert j != k ==> r[j] == q[j'];
    }
  }

  /** Without `t`, its control block does not matter. */
  lemma SortedWithout(q: seq<TaskId>, t: TaskId, tcb: seq<Tcb>, c: Tcb)
    requires Sorted(q, tcb) && t !in q && t < |tcb|
    ensures Sorted(q, tcb[t := c])
  {
    assert forall i :: 0 <= i < |q| ==> q[i] in q;
  }

  /** Taking a task out keeps the rest sorted. */
  lemma {:induction false} RemoveSorted(q: seq<TaskId>, t: TaskId, tcb: seq<Tcb>)
    requires Sorted(q, tcb)
    ensures Sorted(Remove(q, t), tcb)
  {
    if q != [] && q[0] != t {
      var r := Remove(q[1..], t);
      RemoveSorted(q[1..], t, tcb);
      forall i | 0 <= i < |r|
        ensures tcb[q[0]].priority <= tcb[r[i]].priority
      {
        RemoveIn(q[1..], t, r[i]);
        var k :| 0 <= k < |q[1..]| && q[1..][k] == r[i];
        assert q[k + 1] == r[i];
      }
    }
  }

  /** Leaving: `t` is in no queue, everybody else stays. */
  lemma LeaveQueues(tcb: seq<Tcb>, queue: map<QName, seq<TaskId>>, t: TaskId)
    requires QueuesOk(tcb, queue) && t < |tcb|
    ensures var left := Leave(queue, tcb[t], t);
      && left.Keys == queue.Keys
      && (forall q :: q in left ==> NoDup(left[q]))
      && (forall q, x: int :: q in left ==> (x in left[q] <==> x in queue[q] && x != t))
  {
    var left := Leave(queue, tcb[t], t);
    forall q | q in left
      ensures NoDup(left[q]) && forall x :: x in left[q] <==> x in queue[q] && x != t
    {
      if Home(tcb[t]) == Some(q) {
        RemoveMembers(queue[q], t);
      }
    }
  }

  /** Moving a task keeps every task in exactly the queue its state says. */
  lemma RehomeQueues(s: State, t: TaskId, c: Tcb)
    requires QueuesOk(s.tcb, s.queue) && t < |s.tcb|
    requires Home(c).Some? ==> Home(c).value in s.queue
    requires forall q :: q in s.cfg.tpri ==> q in s.queue && Sorted(s.queue[q], s.tcb)
    ensures var s' := Rehome(s, t, c);
      && s'.queue.Keys == s.queue.Keys
      && QueuesOk(s'.tcb, s'.queue)
      && forall q :: q in s.cfg.tpri ==> Sorted(s'.queue[q], s'.tcb)
  {
    var s' := Rehome(s, t, c);
    var left := Leave(s.queue, s.tcb[t], t);
    LeaveQueues(s.tcb, s.queue, t);
    forall q | q in s.cfg.tpri
      ensures Sorted(left[q], s'.tcb)
    {
      RemoveSorted(s.queue[q], t, s.tcb);
      SortedWithout(left[q], t, s.tcb, c);
    }
    forall q | q in s'.queue
      ensures NoDup(s'.queue[q])
      ensures forall x :: x in s'.queue[q] <==> x in left[q] || (x == t && Home(c) == Some(q))
      ensures q in s.cfg.tpri ==> Sorted(s'.queue[q], s'.tcb)
    {
      if Home(c) == Some(q) {
        if q in s.cfg.tpri {
          InsertTpriSorted(left[q], t, s'.tcb);
        } else {
          NoDupAppend(left[q], t);
        }
      }
    }
    MembersOk(s, s', left, t, c);
  }

  lemma MembersOk(s: State, s': State, left: map<QName, seq<TaskId>>, t: TaskId, c: Tcb)
    requires QueuesOk(s.tcb, s.queue) && t < |s.tcb| && s'.tcb == s.tcb[t := c]
    requires s.queue.Keys == left.Keys == s'.queue.Keys
    requires Home(c).Some? ==> Home(c).value in s.queue
    requires forall q, x: int :: q in left ==> (x in left[q] <==> x in s.queue[q] && x != t)
    requires forall q :: q in s'.queue ==> NoDup(s'.queue[q])
    requires forall q, x: int :: q in s'.queue ==> (x in s'.queue[q] <==> x in left[q] || (x == t && Home(c) == Some(q)))
    ensures QueuesOk(s'.tcb, s'.queue)
  {
    forall q, x: int | q in s'.queue && x in s'.queue[q]
      ensures 0 <= x < |s'.tcb| && Home(s'.tcb[x]) == Some(q)
    {
      assert x in left[q] || (x == t && Home(c) == Some(q));
      if x in left[q] {
        assert x in s.queue[q] && x != t;
        assert Home(s.tcb[x]) == Some(q);
      }
    }
    forall x | 0 <= x < |s'.tcb| && Home(s'.tcb[x]).Some?
      ensures Home(s'.tcb[x]).value in s'.queue && x in s'.queue[Home(s'.tcb[x]).value]
    {
      if x != t {
        var q := Home(s.tcb[x]).value;
        assert x in s.queue[q];
        assert x in left[q];
      }
    }
  }

  /** A change of the control block that moves the task nowhere keeps the queues. */
  lemma RetagQueues(s: State, t: TaskId, c: Tcb)
    requires QueuesOk(s.tcb, s.queue) && t < |s.tcb| && Home(c) == Home(s.tcb[t])
    requires forall q :: q in s.cfg.tpri ==> q in s.queue && Sorted(s.queue[q], s.tcb)
    requires c.priority == s.tcb[t].priority || Home(c).None? || Home(c).value !in s.cfg.tpri
    ensures QueuesOk(s.tcb[t := c], s.queue)
    ensures forall q :: q in s.cfg.tpri ==> Sorted(s.queue[q], s.tcb[t := c])
  {
    forall q, x: int | q in s.queue && x in s.queue[q]
      ensures 0 <= x < |s.tcb| && Home(s.tcb[t := c][x]) == Some(q)
    {
    }
    forall q | q in s.cfg.tpri
      ensures Sorted(s.queue[q], s.tcb[t := c])
    {
      assert forall i :: 0 <= i < |s.queue[q]| ==> s.queue[q][i] in s.queue[q];
    }
  }
}
