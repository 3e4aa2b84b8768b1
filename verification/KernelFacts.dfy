/**
 What the kernel invariant says about one task, in the terms that the code relies on.
 */
module KernelFacts {
  import opened Common
  import opened HeapLinks
  import opened SystemTime
  import opened KernelState
  import opened KernelQueues
  import opened Capacity
  import opened ReadyQueue
  import S = KernelSpec

  /** `t` is in no ready queue. */
  ghost predicate NotReady(queue: map<QName, seq<TaskId>>, t: TaskId)
    requires HasReady(queue)
  {
    forall p: nat :: p < TNUM_TPRI ==> t !in queue[Ready(p)]
  }

  /** WINFO of a waiting task: its timer is registered if it has one. */
  ghost predicate TimerOk(c: Tcb, t: TaskId, pending: map<Event, Pending>) {
    && c.winfo.Tmevtb?
    && (c.winfo.event == if TaskTimer(t) in pending then Some(TaskTimer(t)) else None)
  }

  /** The ready queues are in order. */
  lemma ReadyFacts(s: State)
    requires CoreOk(s)
    ensures HasReady(s.queue) && PriOk(s.queue, s.tcb)
  {
    hide TimersOk, Sorted, ClockOk;
    forall p: nat, i: nat | p < TNUM_TPRI && i < |s.queue[Ready(p)]|
      ensures s.queue[Ready(p)][i] < |s.tcb| && s.tcb[s.queue[Ready(p)][i]].priority == p
    {
      assert s.queue[Ready(p)][i] in s.queue[Ready(p)];
    }
  }

  /** A runnable task is in the ready queue of its priority; any other is in none. */
  lemma TaskFacts(s: State, t: TaskId)
    requires CoreOk(s) && t < |s.tcb|
    ensures HasReady(s.queue)
    ensures s.tcb[t].priority < TNUM_TPRI && TaskOk(s.cfg, t, s.tcb[t])
    ensures NoDup(s.queue[Ready(s.tcb[t].priority)])
    ensures if s.tcb[t].tstat.runnable then t in s.queue[Ready(s.tcb[t].priority)] else NotReady(s.queue, t)
  {
    hide TimersOk, Sorted, ClockOk;
    assert TaskOk(s.cfg, t, s.tcb[t]);
  }

  /** A waiting task has its timer registered, or none. */
  lemma WaitingFacts(s: State, t: TaskId)
    requires CoreOk(s) && t < |s.tcb| && s.tcb[t].tstat.waiting
    ensures TimerOk(s.tcb[t], t, s.pending) && !s.tcb[t].tstat.runnable
    ensures s.tcb[t].tstat.WaitWobj() ==> Wait(s.tcb[t].tstat.cause, s.tcb[t].wobj) in s.queue
  {
    hide QueuesOk, Sorted, ClockOk;
    assert TaskOk(s.cfg, t, s.tcb[t]);
    assert TaskTimer(t) in s.pending <==> Armed(s.tcb, s.cyc, s.alm, TaskTimer(t));
  }

  /** What a step of waiting changes, field by field. */
  lemma MakeWaitIs(s: State, cause: nat, wobj: nat, tmout: Option<nat>)
    requires CoreOk(s) && S.InTask(s) && s.tcb[s.runtsk.value].tstat.runnable
    ensures var t := s.runtsk.value;
      var s' := S.MakeWait(s, cause, wobj, tmout);
      var pri := Ready(s.tcb[t].priority);
      && HasReady(s.queue)
      && s'.tcb == s.tcb[t := s.tcb[t].(tstat := TsWaiting(cause), wobj := wobj,
                           winfo := Tmevtb(if tmout.Some? then Some(TaskTimer(t)) else None))]
      && s'.queue == S.Enter(s.queue[pri := Remove(s.queue[pri], t)], s.cfg.tpri, s'.tcb, t)
      && s' == s.(tcb := s'.tcb, queue := s'.queue, pending := s'.pending)
  {
    hide QueuesOk, TimersOk, Sorted, ClockOk, S.Enter;
    TaskFacts(s, s.runtsk.value);
  }

  /** The control block of a task that stays in its ready queue may change but for the priority. */
  lemma PriKept(queue: map<QName, seq<TaskId>>, tcb: seq<Tcb>, t: TaskId, c: Tcb)
    requires HasReady(queue) && PriOk(queue, tcb) && t < |tcb| && c.priority == tcb[t].priority
    ensures PriOk(queue, tcb[t := c])
  {
  }

  /** Priority insertion looks at priorities only. */
  lemma {:induction false} InsertTpriSame(q: seq<TaskId>, t: TaskId, tcb: seq<Tcb>, tcb': seq<Tcb>)
    requires |tcb| == |tcb'| && forall x: nat :: x < |tcb| ==> tcb[x].priority == tcb'[x].priority
    ensures S.InsertTpri(q, t, tcb) == S.InsertTpri(q, t, tcb')
  {
    if q != [] {
      InsertTpriSame(q[1..], t, tcb, tcb');
    }
  }

  /** The timer of a runnable task is not registered, and there is room for it. */
  lemma TimerFacts(s: State, t: TaskId)
    requires CoreOk(s) && t < |s.tcb| && s.tcb[t].tstat.runnable
    ensures s.cfg.time.Ok() && TaskTimer(t) !in s.pending
    ensures |s.pending| < |s.cfg.ipriority| + |s.cfg.cyctim| + s.cfg.nalm
  {
    hide QueuesOk, Sorted, ClockOk;
    assert TaskOk(s.cfg, t, s.tcb[t]);
    assert TaskTimer(t) in s.pending <==> Armed(s.tcb, s.cyc, s.alm, TaskTimer(t));
    RoomFor(s, TaskTimer(t));
  }

  /** The time event of a step of waiting. */
  lemma MakeWaitPending(s: State, cause: nat, wobj: nat, tmout: Option<nat>)
    requires S.InTask(s) && s.cfg.time.Ok()
    ensures var t := s.runtsk.value;
      S.MakeWait(s, cause, wobj, tmout).pending ==
      if tmout.None? then s.pending
      else s.pending[TaskTimer(t) := Pending(BaseTime(s.cfg.time, s.ticks) + tmout.value,
                                             if cause == DLY then WaitTmoutOk(t) else WaitTmout(t))]
  {
  }

  /** A wait queue stays sorted when the control block of a runnable task changes. */
  lemma QueueFacts(s: State, q: QName, tcb: seq<Tcb>)
    requires CoreOk(s) && q in s.cfg.queues && S.InTask(s) && s.tcb[s.runtsk.value].tstat.runnable
    requires |tcb| == |s.tcb| && tcb == s.tcb[s.runtsk.value := tcb[s.runtsk.value]]
    ensures q in s.queue && (q in s.cfg.tpri ==> Sorted(s.queue[q], tcb))
  {
    hide TimersOk, ClockOk;
    assert s.runtsk.value !in s.queue[q];
    if q in s.cfg.tpri {
      SortedWithout(s.queue[q], s.runtsk.value, s.tcb, tcb[s.runtsk.value]);
    }
  }

  /** Waiting on an object, step by step: out of the ready queue, into the wait queue, and
      the object noted at last. */
  lemma WaitOnIs(s: State, q: QName, tmout: Option<nat>, tcb: seq<Tcb>, queue: map<QName, seq<TaskId>>)
    requires CoreOk(s) && S.InTask(s) && s.tcb[s.runtsk.value].tstat.runnable && q in s.cfg.queues && q.Wait?
    requires var t := s.runtsk.value;
      && tcb == s.tcb[t := s.tcb[t].(tstat := TsWaiting(q.cause),
                      winfo := Tmevtb(if tmout.Some? then Some(TaskTimer(t)) else None))]
      && Ready(s.tcb[t].priority) in s.queue
      && queue == s.queue[Ready(s.tcb[t].priority) := Remove(s.queue[Ready(s.tcb[t].priority)], t)]
    ensures q in queue
    ensures var t := s.runtsk.value;
      var s' := S.MakeWait(s, q.cause, q.id, tmout);
      && s'.tcb == tcb[t := tcb[t].(wobj := q.id)]
      && s'.queue == queue[q := if q in s.cfg.tpri then S.InsertTpri(queue[q], t, tcb) else queue[q] + [t]]
      && s' == s.(tcb := s'.tcb, queue := s'.queue, pending := s'.pending)
  {
    hide QueuesOk, Sorted, TimersOk, ClockOk, Remove, S.InsertTpri, S.MakeWait;
    var t := s.runtsk.value;
    MakeWaitIs(s, q.cause, q.id, tmout);
    InsertTpriSame(queue[q], t, tcb, tcb[t := tcb[t].(wobj := q.id)]);
  }

  /** The control block of a task whose wait has ended. */
  function Ended(c: Tcb, ercd: Ercd): Tcb {
    c.(tstat := if c.tstat.suspended then TS_SUSPENDED else TS_RUNNABLE, winfo := Wercd(ercd))
  }

  /** A task enters its ready queue if its control block says so. */
  function EnterReady(queue: map<QName, seq<TaskId>>, c: Tcb, t: TaskId): map<QName, seq<TaskId>> {
    if c.tstat.runnable && Ready(c.priority) in queue
    then queue[Ready(c.priority) := queue[Ready(c.priority)] + [t]]
    else queue
  }

  /** The end of a wait, field by field. */
  lemma ReleaseIs(s: State, t: TaskId, ercd: Ercd)
    requires CoreOk(s) && t < |s.tcb| && s.tcb[t].tstat.waiting
    ensures var c := Ended(s.tcb[t], ercd);
      S.Release(s, t, ercd) == s.(
        tcb := s.tcb[t := c],
        queue := EnterReady(S.Leave(s.queue, s.tcb[t], t), c, t),
        pending := s.pending - {TaskTimer(t)})
  {
    hide QueuesOk, Sorted, TimersOk, ClockOk, Remove;
  }

  /** The head of a wait queue waits there, and is in no ready queue. */
  lemma HeadFacts(s: State, q: QName)
    requires CoreOk(s) && q in s.cfg.queues && q in s.queue && s.queue[q] != []
    ensures var t := s.queue[q][0];
      && q.Wait? && t < |s.tcb| && s.tcb[t].tstat.waiting && Home(s.tcb[t]) == Some(q)
      && HasReady(s.queue) && NotReady(s.queue, t) && s.tcb[t].priority < TNUM_TPRI
      && TimerOk(s.tcb[t], t, s.pending)
      && S.Leave(s.queue, s.tcb[t], t) == s.queue[q := s.queue[q][1..]]
  {
    hide Sorted, TimersOk, ClockOk;
    var t := s.queue[q][0];
    assert t in s.queue[q];
    TaskFacts(s, t);
    WaitingFacts(s, t);
  }

  /** A change of a wait queue does not touch the ready queues. */
  lemma WaitQueueChange(queue: map<QName, seq<TaskId>>, q: QName, s: seq<TaskId>, tcb: seq<Tcb>, t: TaskId)
    requires HasReady(queue) && q in queue && q.Wait?
    ensures HasReady(queue[q := s])
    ensures PriOk(queue, tcb) <==> PriOk(queue[q := s], tcb)
    ensures NotReady(queue, t) <==> NotReady(queue[q := s], t)
  {
  }

  /** The tasks in a queue. */
  lemma QueueTasks(s: State, q: QName)
    requires CoreOk(s) && q in s.queue
    ensures S.AllTasks(s.queue[q], |s.tcb|) && NoDup(s.queue[q])
    ensures q in s.cfg.queues ==> forall i :: 0 <= i < |s.queue[q]| ==>
      s.queue[q][i] < |s.tcb| && s.tcb[s.queue[q][i]].tstat.waiting
  {
    hide Sorted, TimersOk, ClockOk;
    forall i | 0 <= i < |s.queue[q]|
      ensures s.queue[q][i] < |s.tcb| && Home(s.tcb[s.queue[q][i]]) == Some(q)
    {
      assert s.queue[q][i] in s.queue[q];
    }
  }

  /** A change of a wait queue does not touch the ready queues. */
  lemma WaitQueueOnly(m: bv16, queue: map<QName, seq<TaskId>>, queue': map<QName, seq<TaskId>>, q: QName)
    requires HasReady(queue) && q in queue && q.Wait? && q in queue' && queue' == queue[q := queue'[q]]
    ensures HasReady(queue') && Sched(queue') == Sched(queue)
    ensures Mirrors(m, queue) ==> Mirrors(m, queue')
  {
    SameReady(queue, queue');
  }

  /** A change of priority, field by field. */
  lemma ChangePriorityIs(s: State, t: TaskId, pri: nat)
    requires CoreOk(s) && t < |s.tcb| && !s.tcb[t].tstat.Dormant() && pri < TNUM_TPRI
    ensures var c := s.tcb[t];
      var tcb := s.tcb[t := c.(priority := pri)];
      var q := Wait(c.tstat.cause, c.wobj);
      var s' := S.ChangePriority(s, t, pri);
      && s' == s.(tcb := tcb, queue := s'.queue)
      && HasReady(s.queue)
      && (c.tstat.runnable ==>
        var left := s.queue[Ready(c.priority) := Remove(s.queue[Ready(c.priority)], t)];
        s'.queue == left[Ready(pri) := left[Ready(pri)] + [t]])
      && (!c.tstat.runnable && c.tstat.WaitWobjcb() ==>
        && q in s.queue
        && (q in s.cfg.tpri ==>
          && Sorted(Remove(s.queue[q], t), tcb)
          && s'.queue == s.queue[q := S.InsertTpri(Remove(s.queue[q], t), t, tcb)])
        && (q !in s.cfg.tpri ==> s'.queue == s.queue))
      && (!c.tstat.runnable && !c.tstat.WaitWobjcb() ==> s'.queue == s.queue)
  {
    hide CoreOk, Remove, S.InsertTpri, Sorted, S.ChangePriority, Home, HasReady, NotReady, PriOk;
    TaskFacts(s, t);
    ReadyIsFifo(s, t);
    if s.tcb[t].tstat.runnable {
      RunnableChange(s, t, pri);
    } else {
      HomeStays(s.tcb[t], pri);
      WaitPlace(s, t, pri);
      WaitingChange(s, t, pri);
    }
  }

  lemma HomeStays(c: Tcb, pri: nat)
    requires !c.tstat.runnable
    ensures Home(c.(priority := pri)) == Home(c)
  {
  }

  lemma RunnableChange(s: State, t: TaskId, pri: nat)
    requires t < |s.tcb| && s.tcb[t].tstat.runnable && s.tcb[t].priority < TNUM_TPRI && pri < TNUM_TPRI && HasReady(s.queue)
    requires forall p :: Ready(p) !in s.cfg.tpri
    ensures var c := s.tcb[t];
      var left := s.queue[Ready(c.priority) := Remove(s.queue[Ready(c.priority)], t)];
      S.ChangePriority(s, t, pri) == s.(tcb := s.tcb[t := c.(priority := pri)], queue := left[Ready(pri) := left[Ready(pri)] + [t]])
  {
    hide Remove;
  }

  lemma WaitingChange(s: State, t: TaskId, pri: nat)
    requires t < |s.tcb| && !s.tcb[t].tstat.runnable
    ensures var c := s.tcb[t].(priority := pri);
      var tcb := s.tcb[t := c];
      S.ChangePriority(s, t, pri) ==
      if Home(c).Some? && Home(c).value in s.cfg.tpri && Home(c).value in s.queue
      then s.(tcb := tcb, queue := s.queue[Home(c).value := S.InsertTpri(Remove(s.queue[Home(c).value], t), t, tcb)])
      else s.(tcb := tcb)
  {
    hide Remove, S.InsertTpri;
  }

  /** Ready queues are no priority-ordered wait queues. */
  lemma ReadyIsFifo(s: State, t: TaskId)
    requires CoreOk(s) && t < |s.tcb|
    ensures |s.cfg.ipriority| == |s.tcb| && s.cfg.ipriority[t] < TNUM_TPRI && HasReady(s.queue)
    ensures forall p :: Ready(p) !in s.cfg.tpri
  {
    hide QueuesOk, TimersOk, ClockOk, Sorted;
  }

  /** Where a task waits, and who else does. */
  lemma WaitPlace(s: State, t: TaskId, pri: nat)
    requires CoreOk(s) && t < |s.tcb| && !s.tcb[t].tstat.runnable
    ensures var c := s.tcb[t];
      var q := Wait(c.tstat.cause, c.wobj);
      && (c.tstat.WaitWobjcb() ==> c.tstat.waiting && Home(c) == Some(q) && q in s.queue)
      && (Home(c).Some? ==> Home(c) == Some(q) && (q in s.cfg.tpri ==> c.tstat.WaitWobjcb()))
      && (q in s.cfg.tpri && q in s.queue ==> Sorted(Remove(s.queue[q], t), s.tcb[t := c.(priority := pri)]))
  {
    hide TimersOk, ClockOk, Remove;
    assert TaskOk(s.cfg, t, s.tcb[t]);
    var q := Wait(s.tcb[t].tstat.cause, s.tcb[t].wobj);
    if q in s.cfg.tpri && q in s.queue {
      RemoveMembers(s.queue[q], t);
      RemoveSorted(s.queue[q], t, s.tcb);
      SortedWithout(Remove(s.queue[q], t), t, s.tcb, s.tcb[t].(priority := pri));
    }
  }

  /** The activation of a dormant task, field by field. */
  lemma MakeActiveIs(s: State, t: TaskId)
    requires CoreOk(s) && t < |s.tcb| && s.tcb[t].tstat.Dormant()
    ensures var c := s.tcb[t].(tstat := TS_RUNNABLE);
      S.MakeActive(s, t) == s.(tcb := s.tcb[t := c], queue := EnterReady(s.queue, c, t))
  {
    hide TimersOk, ClockOk, Sorted, QueuesOk;
  }

  /** The end of a task, field by field. */
  lemma TerminateIs(s: State, t: TaskId)
    requires CoreOk(s) && t < |s.tcb|
    ensures t < |s.cfg.ipriority|
    ensures var c := s.tcb[t].(tstat := TS_DORMANT, priority := s.cfg.ipriority[t], wupque := false, actque := false);
      var left := S.Leave(s.queue, s.tcb[t], t);
      var c' := if s.tcb[t].actque then c.(tstat := TS_RUNNABLE) else c;
      && S.Terminate(s, t) == s.(tcb := s.tcb[t := c'], queue := EnterReady(left, c', t), pending := s.pending - {TaskTimer(t)})
  {
    hide CoreOk, Remove, S.InsertTpri, S.Rehome;
    ReadyIsFifo(s, t);
    LeftNotReady(s, t);
    var c := s.tcb[t].(tstat := TS_DORMANT, priority := s.cfg.ipriority[t], wupque := false, actque := false);
    GoesNowhere(s, t, c);
    var s1 := S.Rehome(s, t, c).(pending := s.pending - {TaskTimer(t)});
    if s.tcb[t].actque {
      ComesReady(s1, t, c.(tstat := TS_RUNNABLE));
    }
  }

  lemma GoesNowhere(s: State, t: TaskId, c: Tcb)
    requires t < |s.tcb| && Home(c) == None
    ensures S.Rehome(s, t, c) == s.(tcb := s.tcb[t := c], queue := S.Leave(s.queue, s.tcb[t], t))
  {
    hide S.Leave;
  }

  lemma ComesReady(s: State, t: TaskId, c: Tcb)
    requires t < |s.tcb| && Home(s.tcb[t]) == None && HasReady(s.queue) && c.tstat.runnable && c.priority < TNUM_TPRI
    requires Ready(c.priority) !in s.cfg.tpri
    ensures S.Rehome(s, t, c) == s.(tcb := s.tcb[t := c], queue := EnterReady(s.queue, c, t))
  {
  }

  /** Whatever queue a task leaves, it is in no ready queue then. */
  lemma LeftNotReady(s: State, t: TaskId)
    requires CoreOk(s) && t < |s.tcb|
    ensures var left := S.Leave(s.queue, s.tcb[t], t); HasReady(left) && NotReady(left, t)
    ensures s.tcb[t].tstat.runnable ==>
      var q := Ready(s.tcb[t].priority);
      q in s.queue && S.Leave(s.queue, s.tcb[t], t) == s.queue[q := Remove(s.queue[q], t)]
    ensures !s.tcb[t].tstat.runnable && !s.tcb[t].tstat.waiting ==> S.Leave(s.queue, s.tcb[t], t) == s.queue
    ensures !s.tcb[t].tstat.waiting ==> s.pending - {TaskTimer(t)} == s.pending
  {
    hide ClockOk, Sorted;
    TaskFacts(s, t);
    LeaveQueues(s.tcb, s.queue, t);
    if !s.tcb[t].tstat.waiting {
      assert TaskTimer(t) in s.pending <==> Armed(s.tcb, s.cyc, s.alm, TaskTimer(t));
    }
  }

  /** `q` is `rest`, with `t` behind those that are not worse than `pri` and before those that are. */
  ghost predicate BehindEquals(q: seq<TaskId>, rest: seq<TaskId>, t: TaskId, pri: nat, tcb: seq<Tcb>) {
    && (forall i :: 0 <= i < |rest| ==> rest[i] < |tcb|)
    && exists k ::
      && 0 <= k <= |rest| && q == rest[..k] + [t] + rest[k..]
      && (forall i :: 0 <= i < k ==> tcb[rest[i]].priority <= pri)
      && (forall i :: k <= i < |rest| ==> pri < tcb[rest[i]].priority)
  }

  /** What chg_pri does to queues. A runnable task goes to the end of its new ready queue. In
      a priority-ordered wait queue a task goes behind all that are not worse, and the others
      keep their order. Every other wait queue stays as it is. */
  lemma ChangePriorityOrder(s: State, t: TaskId, pri: nat, q: QName)
    requires CoreOk(s) && t < |s.tcb| && !s.tcb[t].tstat.Dormant() && pri < TNUM_TPRI && q in s.cfg.queues && q in s.queue
    ensures var s' := S.ChangePriority(s, t, pri);
      var c := s.tcb[t];
      && q in s'.queue && |s'.tcb| == |s.tcb|
      && (c.tstat.runnable ==> Ready(pri) in s'.queue && s'.queue[Ready(pri)] != [] && s'.queue[Ready(pri)][|s'.queue[Ready(pri)]| - 1] == t)
      && (Home(c) != Some(q) || q !in s.cfg.tpri ==> s'.queue[q] == s.queue[q])
      && (Home(c) == Some(q) && q in s.cfg.tpri ==>
        BehindEquals(s'.queue[q], Remove(s.queue[q], t), t, pri, s'.tcb))
  {
    hide TimersOk, ClockOk, QueuesOk, Remove, S.InsertTpri, S.ChangePriority, Sorted;
    ChangePriorityIs(s, t, pri);
    var c := s.tcb[t];
    WaitQueueName(s, q);
    if Home(c) == Some(q) && q in s.cfg.tpri {
      var rest := Remove(s.queue[q], t);
      var tcb := s.tcb[t := c.(priority := pri)];
      SortedMembers(rest, tcb);
      InsertTpriStable(rest, t, tcb);
      var k := TpriPosition(rest, t, tcb);
      assert S.InsertTpri(rest, t, tcb) == rest[..k] + [t] + rest[k..];
      assert BehindEquals(S.InsertTpri(rest, t, tcb), rest, t, pri, tcb);
    }
  }

  lemma SortedMembers(q: seq<TaskId>, tcb: seq<Tcb>)
    requires Sorted(q, tcb)
    ensures forall i :: 0 <= i < |q| ==> q[i] < |tcb|
  {
  }

  lemma WaitQueueName(s: State, q: QName)
    requires CoreOk(s) && q in s.cfg.queues
    ensures q.Wait? && q.cause >= RDTQ && (q in s.cfg.tpri ==> q.cause >= SEM)
  {
    hide TimersOk, ClockOk, QueuesOk, Sorted;
  }
}
