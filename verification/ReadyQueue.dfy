/**
 The task that should run, as the ready queues change.
 */
module ReadyQueue {
  import opened Common
  import opened KernelState
  import opened Bitmap

  ghost predicate HasReady(queue: map<QName, seq<TaskId>>) {
    forall p: nat :: p < TNUM_TPRI ==> Ready(p) in queue
  }

  /** Is ready queue `p` the first that is not empty? With p = TNUM_TPRI: are all empty? */
  ghost predicate IsBest(queue: map<QName, seq<TaskId>>, p: nat)
    requires HasReady(queue)
  {
    && p <= TNUM_TPRI
    && (p < TNUM_TPRI ==> queue[Ready(p)] != [])
    && forall q: nat :: q < p ==> queue[Ready(q)] == []
  }

  lemma {:induction false} BestFromIs(queue: map<QName, seq<TaskId>>, from: nat, p: nat)
    requires HasReady(queue) && IsBest(queue, p) && from <= p
    ensures BestFrom(queue, from) == if p < TNUM_TPRI then Some(queue[Ready(p)][0]) else None
    decreases p - from
  {
    if from < p {
      BestFromIs(queue, from + 1, p);
    }
  }

  lemma SchedIs(queue: map<QName, seq<TaskId>>, p: nat)
    requires HasReady(queue) && IsBest(queue, p)
    ensures Sched(queue) == if p < TNUM_TPRI then Some(queue[Ready(p)][0]) else None
  {
    BestFromIs(queue, 0, p);
  }

  /** There is a best priority, or none at all. */
  lemma {:induction false} BestExists(queue: map<QName, seq<TaskId>>, from: nat) returns (p: nat)
    requires HasReady(queue) && from <= TNUM_TPRI
    requires forall q: nat :: q < from ==> queue[Ready(q)] == []
    ensures IsBest(queue, p)
    decreases TNUM_TPRI - from
  {
    if from == TNUM_TPRI || queue[Ready(from)] != [] {
      p := from;
    } else {
      p := BestExists(queue, from + 1);
    }
  }

  /** Tasks in ready queues have the priority of their queue. */
  ghost predicate PriOk(queue: map<QName, seq<TaskId>>, tcb: seq<Tcb>)
    requires HasReady(queue)
  {
    forall p: nat, i: nat :: p < TNUM_TPRI && i < |queue[Ready(p)]| ==>
      queue[Ready(p)][i] < |tcb| && tcb[queue[Ready(p)][i]].priority == p
  }

  /** Changes elsewhere do not matter. */
  lemma SameReady(queue: map<QName, seq<TaskId>>, queue': map<QName, seq<TaskId>>)
    requires HasReady(queue) && HasReady(queue')
    requires forall p: nat :: p < TNUM_TPRI ==> queue'[Ready(p)] == queue[Ready(p)]
    ensures Sched(queue') == Sched(queue)
  {
    var p := BestExists(queue, 0);
    assert IsBest(queue', p);
    SchedIs(queue, p);
    SchedIs(queue', p);
  }

  /** Bit `p` of the bitmap is set if and only if ready queue `p` has a task. */
  ghost predicate Mirrors(m: bv16, queue: map<QName, seq<TaskId>>)
    requires HasReady(queue)
  {
    forall p: nat :: p < TNUM_TPRI ==> (IsSet(m, p) <==> queue[Ready(p)] != [])
  }

  /** What becomes of the bitmap and of the best priority when ready queue `pri` becomes `q`. */
  lemma Update(m: bv16, queue: map<QName, seq<TaskId>>, best: nat, pri: nat, q: seq<TaskId>)
    requires HasReady(queue) && Mirrors(m, queue) && IsBest(queue, best) && pri < TNUM_TPRI
    ensures var queue' := queue[Ready(pri) := q];
      && HasReady(queue')
      && (q != [] ==> Mirrors(Set(m, pri), queue') && IsBest(queue', if pri < best then pri else best))
      && (q == [] ==> Mirrors(Clear(m, pri), queue') && (pri != best ==> IsBest(queue', best)))
      && (q != [] && queue[Ready(pri)] != [] ==> Mirrors(m, queue'))
  {
    hide Set, Clear, IsSet;
    var queue' := queue[Ready(pri) := q];
    forall p: nat | p < TNUM_TPRI
      ensures q != [] ==> (IsSet(Set(m, pri), p) <==> queue'[Ready(p)] != [])
      ensures q == [] ==> (IsSet(Clear(m, pri), p) <==> queue'[Ready(p)] != [])
    {
      SetClear(m, pri, p);
    }
  }

  /** The bitmap is zero if and only if nothing is ready. */
  lemma ZeroIsIdle(m: bv16, queue: map<QName, seq<TaskId>>, best: nat)
    requires HasReady(queue) && Mirrors(m, queue) && IsBest(queue, best)
    ensures m == 0 ==> best == TNUM_TPRI
  {
    if m == 0 && best < TNUM_TPRI {
      EmptyHasNone(best);
    }
  }

  lemma UpdatePri(queue: map<QName, seq<TaskId>>, tcb: seq<Tcb>, pri: nat, q: seq<TaskId>)
    requires HasReady(queue) && PriOk(queue, tcb)
    requires forall i :: 0 <= i < |q| ==> q[i] < |tcb| && tcb[q[i]].priority == pri
    ensures PriOk(queue[Ready(pri) := q], tcb)
  {
  }

  /** A task in a ready queue of another priority would not be in order. */
  lemma OnlyThere(queue: map<QName, seq<TaskId>>, tcb: seq<Tcb>, best: nat, t: TaskId)
    requires HasReady(queue) && PriOk(queue, tcb) && IsBest(queue, best) && t < |tcb|
    ensures Sched(queue).Some? ==> best < TNUM_TPRI && Sched(queue) == Some(queue[Ready(best)][0])
    ensures Sched(queue).Some? ==> Sched(queue).value < |tcb| && tcb[Sched(queue).value].priority == best
    ensures Sched(queue).None? ==> best == TNUM_TPRI
    ensures Sched(queue) == Some(t) ==> best == tcb[t].priority
  {
    SchedIs(queue, best);
  }

  /** Tasks in their ready queue have its priority. */
  lemma InQueue(queue: map<QName, seq<TaskId>>, tcb: seq<Tcb>, pri: nat)
    requires HasReady(queue) && PriOk(queue, tcb) && pri < TNUM_TPRI
    ensures forall i :: 0 <= i < |queue[Ready(pri)]| ==>
      queue[Ready(pri)][i] < |tcb| && tcb[queue[Ready(pri)][i]].priority == pri
  {
  }

  /** A task at the end of a ready queue is the best if it is better than all others. */
  lemma Appended(m: bv16, queue: map<QName, seq<TaskId>>, tcb: seq<Tcb>, best: nat, t: TaskId)
    requires HasReady(queue) && Mirrors(m, queue) && PriOk(queue, tcb) && IsBest(queue, best)
    requires t < |tcb| && tcb[t].priority < TNUM_TPRI
    ensures var pri := tcb[t].priority;
      var queue' := queue[Ready(pri) := queue[Ready(pri)] + [t]];
      && Mirrors(Set(m, pri), queue') && PriOk(queue', tcb)
      && Sched(queue') == if pri < best then Some(t) else Sched(queue)
  {
    hide Mirrors, Set, PriOk, Sched;
    var pri := tcb[t].priority;
    var q := queue[Ready(pri)] + [t];
    Update(m, queue, best, pri, q);
    InQueue(queue, tcb, pri);
    UpdatePri(queue, tcb, pri, q);
    SchedIs(queue, best);
    SchedIs(queue[Ready(pri) := q], if pri < best then pri else best);
  }

  /** What is left of a ready queue has tasks of its priority, and `t` is not the best any more. */
  lemma Removed(m: bv16, queue: map<QName, seq<TaskId>>, tcb: seq<Tcb>, best: nat, t: TaskId)
    requires HasReady(queue) && Mirrors(m, queue) && PriOk(queue, tcb) && IsBest(queue, best)
    requires t < |tcb| && tcb[t].priority < TNUM_TPRI
    requires NoDup(queue[Ready(tcb[t].priority)]) && t in queue[Ready(tcb[t].priority)]
    ensures var pri := tcb[t].priority;
      var q := Remove(queue[Ready(pri)], t);
      var queue' := queue[Ready(pri) := q];
      && Mirrors(if q == [] then Clear(m, pri) else m, queue') && PriOk(queue', tcb)
      && (q != [] ==> q[0] != t)
      && (Sched(queue) == Some(t) ==> best == pri && (q != [] ==> Sched(queue') == Some(q[0])))
      && (Sched(queue) != Some(t) ==> Sched(queue') == Sched(queue) && IsBest(queue', best))
      && (forall p: nat :: p < TNUM_TPRI ==> t !in queue'[Ready(p)])
      && Sched(queue') != Some(t)
  {
    hide Mirrors, Clear, Sched, BestFrom;
    var pri := tcb[t].priority;
    var q := Remove(queue[Ready(pri)], t);
    RemoveMembers(queue[Ready(pri)], t);
    forall i | 0 <= i < |q|
      ensures q[i] < |tcb| && tcb[q[i]].priority == pri && q[i] != t
    {
      assert q[i] in q;
      assert q[i] in queue[Ready(pri)];
    }
    var queue' := queue[Ready(pri) := q];
    UpdatePri(queue, tcb, pri, q);
    Update(m, queue, best, pri, q);
    OnlyThere(queue, tcb, best, t);
    var best' := BestExists(queue', 0);
    OnlyThere(queue', tcb, best', t);
    SchedIs(queue, best);
    SchedIs(queue', best');
  }

  /** The control block of a task that is in no ready queue does not matter there. */
  lemma PriElsewhere(queue: map<QName, seq<TaskId>>, tcb: seq<Tcb>, t: TaskId, c: Tcb)
    requires HasReady(queue) && PriOk(queue, tcb) && t < |tcb|
    requires forall p: nat :: p < TNUM_TPRI ==> t !in queue[Ready(p)]
    ensures PriOk(queue, tcb[t := c])
  {
  }
}
