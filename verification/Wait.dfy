/**
 wait.c and wait.h: the transitions into and out of waiting.
 */
module Waiting {
  import opened Common
  import opened HeapLinks
  import opened SystemTime
  import opened KernelState
  import opened ReadyQueue
  import opened KernelFacts
  import opened KernelInv
  import opened Kernels
  import opened WaitQueue
  import opened Task
  import S = KernelSpec

  /** make_non_wait. */
  method MakeNonWait(k: Kernel, t: TaskId) returns (d: bool)
    requires k.Scheduling() && t < |k.tcb| && k.tcb[t].priority < TNUM_TPRI && NotReady(k.queue, t)
    modifies k`tcb, k`queue, k`readyPrimap, k`schedtsk
    ensures k.Scheduling()
    ensures k.tcb == old(k.tcb)[t := old(k.tcb)[t].(tstat := if old(k.tcb)[t].tstat.suspended then TS_SUSPENDED else TS_RUNNABLE)]
    ensures k.queue == EnterReady(old(k.queue), k.tcb[t], t)
    ensures d <==> k.dspflg && k.schedtsk != old(k.schedtsk)
  {
    hide Mirrors, PriOk, Sched;
    if !k.tcb[t].tstat.suspended {
      PriElsewhere(k.queue, k.tcb, t, k.tcb[t].(tstat := TS_RUNNABLE));
      k.tcb := k.tcb[t := k.tcb[t].(tstat := TS_RUNNABLE)];
      d := MakeRunnable(k, t);
    } else {
      PriElsewhere(k.queue, k.tcb, t, k.tcb[t].(tstat := TS_SUSPENDED));
      k.tcb := k.tcb[t := k.tcb[t].(tstat := TS_SUSPENDED)];
      d := false;
    }
  }

  /** wait_dequeue_wobj. */
  method WaitDequeueWobj(k: Kernel, t: TaskId)
    requires t < |k.tcb| && !k.tcb[t].tstat.runnable && k.tcb[t].tstat.waiting
    requires k.tcb[t].tstat.WaitWobj() ==> Wait(k.tcb[t].tstat.cause, k.tcb[t].wobj) in k.queue
    modifies k`queue
    ensures k.queue == S.Leave(old(k.queue), k.tcb[t], t)
  {
    if k.tcb[t].tstat.WaitWobj() {
      var q := Wait(k.tcb[t].tstat.cause, k.tcb[t].wobj);
      k.queue := k.queue[q := Remove(k.queue[q], t)];
    }
  }

  /** wait_dequeue_tmevtb. */
  method WaitDequeueTmevtb(k: Kernel, t: TaskId)
    requires k.Timing() && t < |k.tcb| && TimerOk(k.tcb[t], t, k.tm.pending)
    modifies k.tm.heap, k.tm`blocks, k.tm`times, k.tm`lastIndex, k.tm`pending
    ensures k.Timing()
    ensures k.tm.pending == old(k.tm.pending) - {TaskTimer(t)}
  {
    if k.tcb[t].winfo.event != None {
      k.tm.Delete(k.tcb[t].winfo.event.value);
    } else {
      assert k.tm.pending == k.tm.pending - {TaskTimer(t)};
    }
  }

  /** p_winfo->wercd = ercd: the union changes its meaning. */
  method SetWercd(k: Kernel, t: TaskId, ercd: Ercd)
    requires k.Scheduling() && t < |k.tcb| && NotReady(k.queue, t)
    modifies k`tcb
    ensures k.Scheduling() && k.tcb == old(k.tcb)[t := old(k.tcb)[t].(winfo := Wercd(ercd))]
  {
    hide Mirrors, PriOk, Sched;
    PriElsewhere(k.queue, k.tcb, t, k.tcb[t].(winfo := Wercd(ercd)));
    k.tcb := k.tcb[t := k.tcb[t].(winfo := Wercd(ercd))];
  }

  /** wait_complete: `t`, taken out of its wait queue before, returns with E_OK. */
  method WaitComplete(k: Kernel, t: TaskId) returns (d: bool)
    requires k.Scheduling() && k.Timing()
    requires t < |k.tcb| && k.tcb[t].priority < TNUM_TPRI && NotReady(k.queue, t)
    requires TimerOk(k.tcb[t], t, k.tm.pending)
    modifies k`tcb, k`queue, k`readyPrimap, k`schedtsk
    modifies k.tm.heap, k.tm`blocks, k.tm`times, k.tm`lastIndex, k.tm`pending
    ensures k.Scheduling() && k.Timing()
    ensures k.tcb == old(k.tcb)[t := Ended(old(k.tcb)[t], E_OK)]
    ensures k.queue == EnterReady(old(k.queue), k.tcb[t], t)
    ensures k.tm.pending == old(k.tm.pending) - {TaskTimer(t)}
    ensures d <==> k.dspflg && k.schedtsk != old(k.schedtsk)
  {
    hide Mirrors, PriOk, Sched, Kernel.Timing;
    WaitDequeueTmevtb(k, t);
    SetWercd(k, t, E_OK);
    d := MakeNonWait(k, t);
  }

  /** wait_release: the wait of `t` is broken; it returns with E_RLWAI. */
  method WaitRelease(k: Kernel, t: TaskId) returns (d: bool)
    requires k.Scheduling() && k.Timing()
    requires t < |k.tcb| && k.tcb[t].priority < TNUM_TPRI && NotReady(k.queue, t)
    requires !k.tcb[t].tstat.runnable && k.tcb[t].tstat.waiting
    requires k.tcb[t].tstat.WaitWobj() ==> Wait(k.tcb[t].tstat.cause, k.tcb[t].wobj) in k.queue
    requires TimerOk(k.tcb[t], t, k.tm.pending)
    modifies k`tcb, k`queue, k`readyPrimap, k`schedtsk
    modifies k.tm.heap, k.tm`blocks, k.tm`times, k.tm`lastIndex, k.tm`pending
    ensures k.Scheduling() && k.Timing()
    ensures k.tcb == old(k.tcb)[t := Ended(old(k.tcb)[t], E_RLWAI)]
    ensures k.queue == EnterReady(S.Leave(old(k.queue), old(k.tcb)[t], t), k.tcb[t], t)
    ensures k.tm.pending == old(k.tm.pending) - {TaskTimer(t)}
    ensures d <==> k.dspflg && k.schedtsk != old(k.schedtsk)
  {
    hide Mirrors, PriOk, Sched, Kernel.Timing, S.Leave;
    OtherQueue(k.readyPrimap, k.queue, k.tcb, t);
    WaitDequeueWobj(k, t);
    WaitDequeueTmevtb(k, t);
    SetWercd(k, t, E_RLWAI);
    d := MakeNonWait(k, t);
  }

  /** Leaving a wait queue does not touch the ready queues. */
  lemma OtherQueue(m: bv16, queue: map<QName, seq<TaskId>>, tcb: seq<Tcb>, t: TaskId)
    requires HasReady(queue) && t < |tcb| && !tcb[t].tstat.runnable
    ensures var left := S.Leave(queue, tcb[t], t);
      && HasReady(left) && left.Keys == queue.Keys
      && (forall p: nat :: p < TNUM_TPRI ==> left[Ready(p)] == queue[Ready(p)])
      && Sched(left) == Sched(queue)
      && (PriOk(left, tcb) <==> PriOk(queue, tcb))
      && (Mirrors(m, left) <==> Mirrors(m, queue))
  {
    SameReady(queue, S.Leave(queue, tcb[t], t));
  }

  /** The running task of `s`, with its state byte set to waiting already. */
  ghost predicate GoingToWait(k: Kernel, s: State, cause: nat)
    reads k, k.tm
  {
    && CoreOk(s) && S.InTask(s) && s.tcb[s.runtsk.value].tstat.runnable
    && k.View() == s.(tcb := s.tcb[s.runtsk.value := s.tcb[s.runtsk.value].(tstat := TsWaiting(cause))])
  }

  /** make_wait. */
  method MakeWait(k: Kernel, ghost s: State, ghost cause: nat)
    requires k.Rep() && GoingToWait(k, s, cause)
    modifies k`tcb, k`queue, k`readyPrimap, k`schedtsk
    ensures k.Rep()
    ensures var t := s.runtsk.value;
      var pri := Ready(s.tcb[t].priority);
      && HasReady(s.queue)
      && k.queue == s.queue[pri := Remove(s.queue[pri], t)]
      && k.tcb == s.tcb[t := s.tcb[t].(tstat := TsWaiting(cause), winfo := Tmevtb(None))]
  {
    hide Mirrors, PriOk, Sched, Kernel.Timing, CoreOk;
    var t := k.runtsk.value;
    ReadyFacts(s);
    TaskFacts(s, t);
    PriKept(s.queue, s.tcb, t, k.tcb[t]);
    var _ := MakeNonRunnable(k, t);
    k.tcb := k.tcb[t := k.tcb[t].(winfo := Tmevtb(None))];
  }

  /** make_wait_tmout. */
  method MakeWaitTmout(k: Kernel, tmout: int, ghost s: State, ghost cause: nat)
    requires k.Rep() && GoingToWait(k, s, cause) && cause != DLY
    requires tmout == S.TMO_FEVR || 0 < tmout <= k.cfg.time.tmax
    modifies k`tcb, k`queue, k`readyPrimap, k`schedtsk
    modifies k.tm.heap, k.tm`blocks, k.tm`times, k.tm`lastIndex, k.tm`pending
    ensures k.Rep()
    ensures var t := s.runtsk.value;
      var timer := TaskTimer(t);
      var pri := Ready(s.tcb[t].priority);
      && HasReady(s.queue)
      && k.queue == s.queue[pri := Remove(s.queue[pri], t)]
      && k.tcb == s.tcb[t := s.tcb[t].(tstat := TsWaiting(cause), winfo := Tmevtb(if tmout > 0 then Some(timer) else None))]
      && k.tm.pending == if tmout > 0
        then s.pending[timer := Pending(BaseTime(s.cfg.time, s.ticks) + tmout, WaitTmout(t))] else s.pending
  {
    hide Mirrors, PriOk, Sched, CoreOk, Kernel.Timing;
    var t := k.runtsk.value;
    ReadyFacts(s);
    TaskFacts(s, t);
    TimerFacts(s, t);
    PriKept(s.queue, s.tcb, t, k.tcb[t]);
    var _ := MakeNonRunnable(k, t);
    if tmout > 0 {
      k.tcb := k.tcb[t := k.tcb[t].(winfo := Tmevtb(Some(TaskTimer(t))))];
      EnqueueTimer(k, TaskTimer(t), tmout, WaitTmout(t));
    } else {
      k.tcb := k.tcb[t := k.tcb[t].(winfo := Tmevtb(None))];
    }
  }

  /** tmevtb_enqueue, on the timer of a task or of an alarm handler. */
  method EnqueueTimer(k: Kernel, e: Event, time: nat, callback: Callback)
    requires k.Timing() && e !in k.tm.pending && !e.CycTimer? && time <= k.cfg.time.tmax
    requires |k.tm.pending| < |k.cfg.ipriority| + |k.cfg.cyctim| + k.cfg.nalm
    modifies k.tm.heap, k.tm`blocks, k.tm`times, k.tm`lastIndex, k.tm`pending
    ensures k.Timing()
    ensures k.tm.pending == old(k.tm.pending)[e := Pending(BaseTime(k.cfg.time, k.tm.ticks) + time, callback)]
  {
    k.tm.Enqueue(e, time, callback);
  }

  /** wobj_queue_insert: the running task enters an object's wait queue. */
  method WobjQueueInsert(k: Kernel, q: QName)
    requires q in k.queue && k.runtsk.Some? && k.runtsk.value < |k.tcb|
    requires q in k.cfg.tpri ==> Sorted(k.queue[q], k.tcb)
    modifies k`queue
    ensures k.queue == old(k.queue)[q :=
      if q in k.cfg.tpri then S.InsertTpri(old(k.queue)[q], k.runtsk.value, k.tcb) else old(k.queue)[q] + [k.runtsk.value]]
  {
    if q in k.cfg.tpri {
      QueueInsertTpri(k, q, k.runtsk.value);
    } else {
      k.queue := k.queue[q := k.queue[q] + [k.runtsk.value]];
    }
  }

  /** wobj_make_wait_tmout, and wobj_make_wait if there is no timeout. */
  method WobjMakeWait(k: Kernel, q: QName, tmout: int, ghost s: State)
    requires q in k.cfg.queues && q.Wait? && q.cause >= RDTQ
    requires k.Rep() && GoingToWait(k, s, q.cause)
    requires tmout == S.TMO_FEVR || 0 < tmout <= k.cfg.time.tmax
    modifies k`tcb, k`queue, k`readyPrimap, k`schedtsk
    modifies k.tm.heap, k.tm`blocks, k.tm`times, k.tm`lastIndex, k.tm`pending
    ensures k.Rep()
    ensures var s' := S.MakeWait(s, q.cause, q.id, if tmout > 0 then Some(tmout) else None);
      k.tcb == s'.tcb && k.queue == s'.queue && k.tm.pending == s'.pending
  {
    hide Mirrors, PriOk, Sched, CoreOk, Kernel.Timing, S.MakeWait, S.InsertTpri, Sorted, Remove, BaseTime;
    var t := k.runtsk.value;
    ghost var limit := if tmout > 0 then Some(tmout as nat) else None;
    TaskFacts(s, t);
    TimerFacts(s, t);
    MakeWaitTmout(k, tmout, s, q.cause);
    QueueFacts(s, q, k.tcb);
    WaitOnIs(s, q, limit, k.tcb, k.queue);
    MakeWaitPending(s, q.cause, q.id, limit);
    ghost var left := k.queue;
    WobjQueueInsert(k, q);
    WaitQueueOnly(k.readyPrimap, left, k.queue, q);
    k.tcb := k.tcb[t := k.tcb[t].(wobj := q.id)];
  }

  /** queue_delete_next: the head of a wait queue is taken out. */
  method QueueDeleteNext(k: Kernel, q: QName) returns (t: TaskId)
    requires k.SchedRep() && q in k.queue && q.Wait? && k.queue[q] != []
    modifies k`queue
    ensures k.SchedRep() && t == old(k.queue)[q][0]
    ensures k.queue == old(k.queue)[q := old(k.queue)[q][1..]]
  {
    hide Mirrors, Sched;
    t := k.queue[q][0];
    WaitQueueOnly(k.readyPrimap, k.queue, k.queue[q := k.queue[q][1..]], q);
    k.queue := k.queue[q := k.queue[q][1..]];
  }

  /** The idiom of all service calls that hand something to a waiting task: the head of the
      wait queue is taken out and its wait completed. */
  method CompleteHead(k: Kernel, q: QName) returns (t: TaskId, d: bool)
    requires k.Rep() && CoreOk(k.View()) && q in k.cfg.queues && q in k.queue && k.queue[q] != []
    modifies k`tcb, k`queue, k`readyPrimap, k`schedtsk
    modifies k.tm.heap, k.tm`blocks, k.tm`times, k.tm`lastIndex, k.tm`pending
    ensures k.Rep() && t == old(k.queue)[q][0]
    ensures t < |old(k.tcb)| && old(k.tcb)[t].tstat.waiting && Home(old(k.tcb)[t]) == Some(q)
    ensures k.View() == S.Release(old(k.View()), t, E_OK) && CoreOk(k.View())
    ensures d <==> k.dspflg && k.schedtsk != old(k.schedtsk)
  {
    hide Mirrors, PriOk, Sched, CoreOk, Kernel.Timing, S.Release, S.Leave, EnterReady, Ended;
    ghost var s := k.View();
    HeadFacts(s, q);
    ReadyFacts(s);
    t := QueueDeleteNext(k, q);
    WaitQueueChange(s.queue, q, k.queue[q], k.tcb, t);
    d := WaitComplete(k, t);
    ReleaseIs(s, t, E_OK);
    ReleaseKeeps(s, t, E_OK);
  }

  /** One turn of init_wait_queue: the head of the wait queue returns with E_DLT. */
  method DeleteHead(k: Kernel, q: QName) returns (d: bool)
    requires k.Rep() && CoreOk(k.View()) && q in k.cfg.queues && q in k.queue && k.queue[q] != []
    modifies k`tcb, k`queue, k`readyPrimap, k`schedtsk
    modifies k.tm.heap, k.tm`blocks, k.tm`times, k.tm`lastIndex, k.tm`pending
    ensures k.Rep()
    ensures var t := old(k.queue)[q][0];
      && t < |old(k.tcb)| && k.View() == S.Release(old(k.View()), t, E_DLT)
    ensures CoreOk(k.View())
    ensures q in k.queue && k.queue[q] == old(k.queue)[q][1..]
    ensures d <==> k.dspflg && k.schedtsk != old(k.schedtsk)
  {
    hide Mirrors, PriOk, Sched, CoreOk, Kernel.Timing, S.Release, S.Leave;
    ghost var s := k.View();
    HeadFacts(s, q);
    ReadyFacts(s);
    var t := QueueDeleteNext(k, q);
    WaitQueueChange(s.queue, q, k.queue[q], k.tcb, t);
    WaitDequeueTmevtb(k, t);
    SetWercd(k, t, E_DLT);
    d := MakeNonWait(k, t);
    ReleaseIs(s, t, E_DLT);
    ReleaseKeeps(s, t, E_DLT);
  }

  /** init_wait_queue: all tasks that wait in `q` return with E_DLT. */
  method InitWaitQueue(k: Kernel, q: QName) returns (dspreq: bool)
    requires k.Rep() && CoreOk(k.View()) && q in k.cfg.queues && q in k.queue
    modifies k`tcb, k`queue, k`readyPrimap, k`schedtsk
    modifies k.tm.heap, k.tm`blocks, k.tm`times, k.tm`lastIndex, k.tm`pending
    ensures k.Rep() && CoreOk(k.View())
    ensures S.AllTasks(old(k.queue)[q], |old(k.tcb)|)
    ensures k.View() == S.ReleaseAll(old(k.View()), old(k.queue)[q], E_DLT)
    ensures q in k.queue && k.queue[q] == []
    ensures dspreq ==> k.dspflg
    ensures k.dspflg && !dspreq ==> k.schedtsk == old(k.schedtsk)
  {
    hide Mirrors, PriOk, Sched, CoreOk, Kernel.Timing, S.Release;
    dspreq := false;
    QueueTasks(k.View(), q);
    ghost var goal := S.ReleaseAll(k.View(), k.queue[q], E_DLT);
    while k.queue[q] != []
      invariant k.Rep() && CoreOk(k.View()) && q in k.queue
      invariant S.AllTasks(k.queue[q], |k.tcb|)
      invariant S.ReleaseAll(k.View(), k.queue[q], E_DLT) == goal
      invariant dspreq ==> k.dspflg
      invariant k.dspflg && !dspreq ==> k.schedtsk == old(k.schedtsk)
      decreases |k.queue[q]|
    {
      var d := DeleteHead(k, q);
      QueueTasks(k.View(), q);
      if d {
        dspreq := true;
      }
    }
  }

  /** wait_tmout, the callback of a timer that has just been taken out: `t` returns with E_TMOUT.
      Interrupts are let in afterwards. */
  method TimeOut(k: Kernel, t: TaskId)
    requires k.Scheduling() && t < |k.tcb| && k.tcb[t].priority < TNUM_TPRI && NotReady(k.queue, t)
    requires !k.tcb[t].tstat.runnable && k.tcb[t].tstat.waiting
    requires k.tcb[t].tstat.WaitWobj() ==> Wait(k.tcb[t].tstat.cause, k.tcb[t].wobj) in k.queue
    modifies k`tcb, k`queue, k`readyPrimap, k`schedtsk, k`reqflg
    ensures k.Scheduling()
    ensures k.tcb == old(k.tcb)[t := Ended(old(k.tcb)[t], E_TMOUT)]
    ensures k.queue == EnterReady(S.Leave(old(k.queue), old(k.tcb)[t], t), k.tcb[t], t)
    ensures k.reqflg <==> old(k.reqflg) || (k.dspflg && k.schedtsk != old(k.schedtsk))
  {
    hide Mirrors, PriOk, Sched, S.Leave;
    OtherQueue(k.readyPrimap, k.queue, k.tcb, t);
    WaitDequeueWobj(k, t);
    SetWercd(k, t, E_TMOUT);
    var d := MakeNonWait(k, t);
    if d {
      k.reqflg := true;
    }
  }

  /** wait_tmout_ok, the callback of the timer of dly_tsk: `t` returns with E_OK. */
  method TimeOutOk(k: Kernel, t: TaskId)
    requires k.Scheduling() && t < |k.tcb| && k.tcb[t].priority < TNUM_TPRI && NotReady(k.queue, t)
    requires !k.tcb[t].tstat.runnable && k.tcb[t].tstat.cause == DLY
    modifies k`tcb, k`queue, k`readyPrimap, k`schedtsk, k`reqflg
    ensures k.Scheduling()
    ensures k.tcb == old(k.tcb)[t := Ended(old(k.tcb)[t], E_OK)]
    ensures k.queue == EnterReady(S.Leave(old(k.queue), old(k.tcb)[t], t), k.tcb[t], t)
    ensures k.reqflg <==> old(k.reqflg) || (k.dspflg && k.schedtsk != old(k.schedtsk))
  {
    hide Mirrors, PriOk, Sched;
    SetWercd(k, t, E_OK);
    var d := MakeNonWait(k, t);
    if d {
      k.reqflg := true;
    }
  }

  /** dispatch(), up to the point where the caller runs again. */
  method DispatchNow(k: Kernel)
    modifies k`runtsk
    ensures k.runtsk == k.schedtsk
  {
    k.runtsk := k.schedtsk;
  }
}
