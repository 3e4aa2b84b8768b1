/**
 Every service call, timer callback, tick and interrupt keeps the kernel invariant.
 First the parts of a step, without the dispatching flags.
 */
module KernelInv {
  import opened Common
  import opened HeapLinks
  import opened SystemTime
  import opened KernelState
  import opened KernelSpec
  import opened KernelQueues

  /** A new registration counts from the base time, or repeats a due one. */
  ghost predicate InReach(s: State, time: nat)
    requires s.cfg.time.Ok()
  {
    && (TickTime(s.cfg.time, s.ticks) < time || (s.ticking && s.min <= time))
    && time <= BaseTime(s.cfg.time, s.ticks) + s.cfg.time.tmax
  }

  /** Only times within reach are new in `p`. */
  ghost predicate TimesOk(s: State, p: map<Event, Pending>)
    requires s.cfg.time.Ok()
  {
    forall e :: e in p ==>
      || (e in s.pending && p[e].time == s.pending[e].time)
      || InReach(s, p[e].time)
  }

  /** The clock does not depend on tasks and queues. */
  lemma TimesKeepClock(s: State, s': State)
    requires s.cfg.time.Ok() && ClockOk(s) && TimesOk(s, s'.pending)
    requires s'.cfg == s.cfg && s'.ticks == s.ticks && s'.min == s.min && s'.ticking == s.ticking && s'.intctx == s.intctx
    ensures ClockOk(s')
  {
    BaseBounds(s.cfg.time, s.ticks);
  }

  /** A task moves, and time events change with it. */
  lemma MoveKeeps(s: State, t: TaskId, c: Tcb, p: map<Event, Pending>)
    requires CoreOk(s) && t < |s.tcb| && TaskOk(s.cfg, t, c)
    requires TimersOk(s.tcb[t := c], s.cyc, s.alm, p) && TimesOk(s, p)
    ensures CoreOk(Rehome(s, t, c).(pending := p))
  {
    hide QueuesOk, Sorted, TimersOk, ClockOk, TimesOk;
    RehomeQueues(s, t, c);
    TimesKeepClock(s, Rehome(s, t, c).(pending := p));
  }

  /** A control block changes where the task is linked. */
  lemma TagKeeps(s: State, t: TaskId, c: Tcb)
    requires CoreOk(s) && t < |s.tcb| && TaskOk(s.cfg, t, c) && Home(c) == Home(s.tcb[t])
    requires c.tstat.waiting == s.tcb[t].tstat.waiting && c.tstat.cause == s.tcb[t].tstat.cause
    requires c.tstat.waiting ==> c.winfo == s.tcb[t].winfo
    requires c.priority == s.tcb[t].priority || Home(c).None? || Home(c).value !in s.cfg.tpri
    ensures CoreOk(Retag(s, t, c))
  {
    hide QueuesOk, Sorted, ClockOk;
    RetagQueues(s, t, c);
    assert forall e :: Armed(s.tcb[t := c], s.cyc, s.alm, e) <==> Armed(s.tcb, s.cyc, s.alm, e);
    assert TimesOk(s, s.pending);
    TimesKeepClock(s, Retag(s, t, c));
  }

  /** Without its timer, a task that no longer waits leaves the time events in order. */
  lemma CancelTimer(s: State, t: TaskId, c: Tcb)
    requires TimersOk(s.tcb, s.cyc, s.alm, s.pending) && t < |s.tcb| && !c.tstat.waiting
    ensures TimersOk(s.tcb[t := c], s.cyc, s.alm, s.pending - {TaskTimer(t)})
  {
    var tcb := s.tcb[t := c];
    forall e
      ensures e in s.pending - {TaskTimer(t)} <==> Armed(tcb, s.cyc, s.alm, e)
    {
      assert e != TaskTimer(t) ==> Armed(tcb, s.cyc, s.alm, e) == Armed(s.tcb, s.cyc, s.alm, e);
    }
  }

  lemma ReleaseKeeps(s: State, t: TaskId, ercd: Ercd)
    requires CoreOk(s) && t < |s.tcb| && s.tcb[t].tstat.waiting
    ensures CoreOk(Release(s, t, ercd))
  {
    hide QueuesOk, Sorted, ClockOk, TimersOk;
    var tstat := if s.tcb[t].tstat.suspended then TS_SUSPENDED else TS_RUNNABLE;
    var c := s.tcb[t].(tstat := tstat, winfo := Wercd(ercd));
    assert TaskOk(s.cfg, t, s.tcb[t]);
    CancelTimer(s, t, c);
    MoveKeeps(s, t, c, s.pending - {TaskTimer(t)});
  }

  /** A task that does not wait moves; no time event changes. */
  lemma PlainMoveKeeps(s: State, t: TaskId, c: Tcb)
    requires CoreOk(s) && t < |s.tcb| && TaskOk(s.cfg, t, c) && !c.tstat.waiting && !s.tcb[t].tstat.waiting
    ensures CoreOk(Rehome(s, t, c))
  {
    hide QueuesOk, Sorted, ClockOk;
    var tcb := s.tcb[t := c];
    forall e
      ensures Armed(tcb, s.cyc, s.alm, e) == Armed(s.tcb, s.cyc, s.alm, e)
    {
    }
    MoveKeeps(s, t, c, s.pending);
    assert Rehome(s, t, c) == Rehome(s, t, c).(pending := s.pending);
  }

  lemma MakeActiveKeeps(s: State, t: TaskId)
    requires CoreOk(s) && t < |s.tcb| && s.tcb[t].tstat.Dormant()
    ensures CoreOk(MakeActive(s, t))
  {
    hide QueuesOk, Sorted, ClockOk, TimersOk;
    assert TaskOk(s.cfg, t, s.tcb[t]);
    PlainMoveKeeps(s, t, s.tcb[t].(tstat := TS_RUNNABLE));
  }

  lemma TerminateKeeps(s: State, t: TaskId)
    requires CoreOk(s) && t < |s.tcb|
    ensures CoreOk(Terminate(s, t))
  {
    hide QueuesOk, Sorted, ClockOk, TimersOk;
    var c := s.tcb[t].(tstat := TS_DORMANT, priority := s.cfg.ipriority[t], wupque := false, actque := false);
    var s' := Rehome(s, t, c).(pending := s.pending - {TaskTimer(t)});
    CancelTimer(s, t, c);
    MoveKeeps(s, t, c, s.pending - {TaskTimer(t)});
    if s.tcb[t].actque {
      MakeActiveKeeps(s', t);
    }
  }

  /** A task that has ended is as after start-up: dormant, of its initial priority, without
      requests, in no queue and without a timer; or, if its activation was requested, last in
      the ready queue of its initial priority. All others keep their places. */
  lemma RestartIsFresh(s: State, t: TaskId)
    requires CoreOk(s) && t < |s.tcb|
    ensures |s.cfg.ipriority| == |s.tcb|
    ensures var s' := Terminate(s, t);
      var pri := s.cfg.ipriority[t];
      && s'.queue.Keys == s.queue.Keys && |s'.tcb| == |s.tcb|
      && s'.tcb[t] == Tcb(if s.tcb[t].actque then TS_RUNNABLE else TS_DORMANT, pri, false, false, s.tcb[t].winfo, s.tcb[t].wobj)
      && (forall q :: q in s.queue ==>
        s'.queue[q] == Remove(s.queue[q], t) + if s.tcb[t].actque && q == Ready(pri) then [t] else [])
      && TaskTimer(t) !in s'.pending
      && forall u :: 0 <= u < |s.tcb| && u != t ==> s'.tcb[u] == s.tcb[u]
  {
    hide TimersOk, ClockOk, Sorted, Remove, InsertTpri;
    assert TaskOk(s.cfg, t, s.tcb[t]);
    forall q | q in s.queue && Home(s.tcb[t]) != Some(q)
      ensures Remove(s.queue[q], t) == s.queue[q]
    {
      RemoveAbsent(s.queue[q], t);
    }
  }

  /** It does not matter whether a task is activated before it is ended, which queues the
      request, or after it. */
  lemma ActivateOrEndFirst(s: State, t: TaskId)
    requires CoreOk(s) && t < |s.tcb| && !s.tcb[t].tstat.Dormant() && !s.tcb[t].actque
    ensures |s.cfg.ipriority| == |s.tcb| && |Activate(s, t).s.tcb| == |s.tcb| && |Terminate(s, t).tcb| == |s.tcb|
    ensures Terminate(Activate(s, t).s, t) == Activate(Terminate(s, t), t).s
    ensures Activate(s, t).out == Activate(Terminate(s, t), t).out == Returns(E_OK)
  {
    hide TimersOk, ClockOk, Sorted, QueuesOk, Remove, InsertTpri;
    var q := s.(tcb := s.tcb[t := s.tcb[t].(actque := true)]);
    assert q.tcb[t := s.tcb[t]] == s.tcb;
  }

  lemma ChangePriorityKeeps(s: State, t: TaskId, pri: nat)
    requires CoreOk(s) && t < |s.tcb| && !s.tcb[t].tstat.Dormant() && pri < TNUM_TPRI
    ensures CoreOk(ChangePriority(s, t, pri))
  {
    hide QueuesOk, Sorted, ClockOk;
    var c := s.tcb[t].(priority := pri);
    assert TaskOk(s.cfg, t, s.tcb[t]);
    if c.tstat.runnable {
      PlainMoveKeeps(s, t, c);
    } else if Home(c).Some? && Home(c).value in s.cfg.tpri {
      assert forall e :: Armed(s.tcb[t := c], s.cyc, s.alm, e) <==> Armed(s.tcb, s.cyc, s.alm, e);
      MoveKeeps(s, t, c, s.pending);
    } else {
      TagKeeps(s, t, c);
    }
  }

  /** A task that starts to wait with a timer has it registered. */
  lemma StartTimer(s: State, t: TaskId, c: Tcb, time: nat)
    requires TimersOk(s.tcb, s.cyc, s.alm, s.pending) && t < |s.tcb|
    requires c.tstat.waiting && c.winfo == Tmevtb(Some(TaskTimer(t)))
    ensures TimersOk(s.tcb[t := c], s.cyc, s.alm,
                     s.pending[TaskTimer(t) := Pending(time, CallbackOf(s.tcb[t := c], TaskTimer(t)))])
  {
    var tcb := s.tcb[t := c];
    forall e
      ensures e != TaskTimer(t) ==> Armed(tcb, s.cyc, s.alm, e) == Armed(s.tcb, s.cyc, s.alm, e)
    {
    }
  }

  lemma MakeWaitKeeps(s: State, cause: nat, wobj: nat, tmout: Option<nat>)
    requires CoreOk(s) && InTask(s) && s.tcb[s.runtsk.value].tstat.runnable
    requires cause == DLY ==> tmout.Some?
    requires cause == SLP ==> !s.tcb[s.runtsk.value].wupque
    requires cause >= RDTQ ==> Wait(cause, wobj) in s.cfg.queues
    requires tmout.Some? ==> tmout.value <= s.cfg.time.tmax
    ensures CoreOk(MakeWait(s, cause, wobj, tmout))
  {
    hide QueuesOk, Sorted, ClockOk, TimersOk;
    var t := s.runtsk.value;
    var c := s.tcb[t].(
      tstat := TsWaiting(cause), wobj := wobj,
      winfo := Tmevtb(if tmout.Some? then Some(TaskTimer(t)) else None));
    assert TaskOk(s.cfg, t, s.tcb[t]);
    if tmout.Some? {
      BaseBounds(s.cfg.time, s.ticks);
      var time := BaseTime(s.cfg.time, s.ticks) + tmout.value;
      StartTimer(s, t, c, time);
      MoveKeeps(s, t, c, s.pending[TaskTimer(t) := Pending(time, if cause == DLY then WaitTmoutOk(t) else WaitTmout(t))]);
    } else {
      NoTimer(s, t, c);
      MoveKeeps(s, t, c, s.pending);
    }
  }

  lemma NoTimer(s: State, t: TaskId, c: Tcb)
    requires TimersOk(s.tcb, s.cyc, s.alm, s.pending) && t < |s.tcb| && !s.tcb[t].tstat.waiting
    requires c.winfo == Tmevtb(None)
    ensures TimersOk(s.tcb[t := c], s.cyc, s.alm, s.pending)
  {
    forall e
      ensures Armed(s.tcb[t := c], s.cyc, s.alm, e) == Armed(s.tcb, s.cyc, s.alm, e)
    {
    }
  }

  lemma RotateQueues(tcb: seq<Tcb>, queue: map<QName, seq<TaskId>>, q: QName)
    requires QueuesOk(tcb, queue) && q in queue
    ensures QueuesOk(tcb, queue[q := Rotate(queue[q])])
  {
    RotateMembers(queue[q]);
    var queue' := queue[q := Rotate(queue[q])];
    forall n, t: int
      ensures n in queue ==> (t in queue'[n] <==> t in queue[n])
    {
    }
  }

  lemma RotateKeeps(s: State, pri: nat)
    requires CoreOk(s)
    ensures CoreOk(RotateReady(s, pri))
  {
    hide QueuesOk, Sorted, TimersOk, ClockOk, Rotate;
    if Ready(pri) in s.queue {
      RotateQueues(s.tcb, s.queue, Ready(pri));
    }
    assert TimesOk(s, s.pending);
    TimesKeepClock(s, RotateReady(s, pri));
  }

  lemma RotateMembers(q: seq<TaskId>)
    requires NoDup(q)
    ensures NoDup(Rotate(q)) && forall x :: x in Rotate(q) <==> x in q
  {
    if q != [] {
      assert q == [q[0]] + q[1..];
    }
  }

  /** Alarm and cyclic handlers: one time event and one status flag change together. */
  lemma HandlerKeeps(s: State, s': State, e: Event)
    requires CoreOk(s) && !e.TaskTimer?
    requires s' == s.(cyc := s'.cyc, alm := s'.alm, pending := s'.pending) && |s'.cyc| == |s.cyc| && |s'.alm| == |s.alm|
    requires e in s'.pending <==> Armed(s.tcb, s'.cyc, s'.alm, e)
    requires e in s'.pending ==> s'.pending[e].callback == CallbackOf(s.tcb, e) && InReach(s, s'.pending[e].time)
    requires forall x :: x != e ==> (x in s'.pending <==> x in s.pending)
    requires forall x :: x != e && x in s.pending ==> s'.pending[x] == s.pending[x]
    requires forall x :: x != e ==> Armed(s.tcb, s'.cyc, s'.alm, x) == Armed(s.tcb, s.cyc, s.alm, x)
    ensures CoreOk(s')
  {
    hide QueuesOk, Sorted, ClockOk;
    TimesKeepClock(s, s');
  }

  // ----- the dispatching flags -----

  /** The task that should run can run. */
  lemma {:induction false} SchedRunnable(tcb: seq<Tcb>, queue: map<QName, seq<TaskId>>, p: nat)
    requires QueuesOk(tcb, queue)
    ensures var best := BestFrom(queue, p);
      best.Some? ==> best.value < |tcb| && tcb[best.value].tstat.runnable
    decreases TNUM_TPRI - p
  {
    if p < TNUM_TPRI {
      if Ready(p) in queue && queue[Ready(p)] != [] {
        assert queue[Ready(p)][0] in queue[Ready(p)];
      } else {
        SchedRunnable(tcb, queue, p + 1);
      }
    }
  }

  /** A step from a task may do anything to tasks, as long as it dispatches at its end and,
      if it cannot, leaves the running task runnable. */
  lemma TaskEndKeeps(r: Result)
    requires CoreOk(r.s) && !r.s.intctx && !r.s.reqflg
    requires r.s.dspflg <==> r.s.ipmflg && !r.s.disdsp
    requires !r.s.dspflg ==> r.s.runtsk.Some? && r.s.runtsk.value < |r.s.tcb| && r.s.tcb[r.s.runtsk.value].tstat.runnable
    ensures Inv(TaskEnd(r).s)
  {
    hide QueuesOk, Sorted, TimersOk, ClockOk;
    SchedRunnable(r.s.tcb, r.s.queue, 0);
    DispatchCore(r.s);
  }

  lemma DispatchCore(s: State)
    requires CoreOk(s)
    ensures CoreOk(Dispatch(s))
    ensures forall b :: CoreOk(s.(reqflg := b))
  {
    hide QueuesOk, Sorted, TimersOk;
  }

  /** A step inside an interrupt handler leaves the running task and the flags alone. */
  lemma IntEndKeeps(s: State, r: Result)
    requires Inv(s) && s.intctx && CoreOk(r.s)
    requires r.s.intctx && r.s.runtsk == s.runtsk && r.s.dspflg == s.dspflg && r.s.ipmflg == s.ipmflg && r.s.disdsp == s.disdsp
    requires s.runtsk.Some? ==> s.runtsk.value < |r.s.tcb| && r.s.tcb[s.runtsk.value].tstat.runnable
    ensures Inv(IntEnd(s, r).s)
  {
    hide QueuesOk, Sorted, TimersOk, ClockOk, Sched;
    DispatchCore(r.s);
  }
}
