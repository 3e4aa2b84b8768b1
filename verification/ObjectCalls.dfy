/**
 The parts that service calls on objects have in common.
 */
module ObjectCalls {
  import opened Common
  import opened KernelState
  import opened KernelRuns
  import opened KernelFacts
  import opened ReadyQueue
  import opened Kernels
  import opened Waiting
  import opened TaskManage
  import opened TaskSync
  import opened ObjectSteps
  import S = KernelSpec

  /** CHECK_TSKCTX_UNL, or CHECK_INTCTX_UNL if `fromInt`. */
  method CheckContext(k: Kernel, fromInt: bool) returns (ok: bool)
    requires Inv(k.View())
    ensures ok <==> InContext(k.View(), fromInt)
  {
    TaskContext(k.View());
    ok := if fromInt then k.intctx else !k.intctx && k.runtsk != None;
  }

  /** The head of the wait queue is taken out and its wait completed; then dispatch(), or
      reqflg = true in an interrupt handler. */
  method CompleteNext(k: Kernel, q: QName, fromInt: bool) returns (t: TaskId)
    requires k.Rep() && Inv(k.View()) && q in k.cfg.queues && q in k.queue && k.queue[q] != [] && InContext(k.View(), fromInt)
    modifies k`tcb, k`queue, k`readyPrimap, k`schedtsk, k`runtsk, k`reqflg
    modifies k.tm.heap, k.tm`blocks, k.tm`times, k.tm`lastIndex, k.tm`pending
    ensures k.Rep() && Inv(k.View())
    ensures S.AllTasks(old(k.queue)[q], |old(k.tcb)|)
    ensures t == old(k.queue)[q][0] && k.View() == HandOver(old(k.View()), q, fromInt)
  {
    hide CoreOk, DispatchOk, Kernel.Timing, Mirrors, HasReady, Sched, S.Release, S.Dispatch;
    ghost var s := k.View();
    HandOverFacts(s, q, fromInt);
    HandOverIs(s, q, fromInt);
    ReleaseFrame(s, s.queue[q][0], E_OK);
    var d: bool;
    t, d := CompleteHead(k, q);
    if fromInt {
      if d {
        k.reqflg := true;
      }
    } else {
      DispatchIs(s, k.View(), d);
      if d {
        DispatchNow(k);
      }
    }
  }

  lemma HandOverIs(s: State, q: QName, fromInt: bool)
    requires CoreOk(s) && q in s.cfg.queues && q in s.queue && s.queue[q] != []
    ensures S.AllTasks(s.queue[q], |s.tcb|)
    ensures var s1 := S.Release(s, s.queue[q][0], E_OK);
      HandOver(s, q, fromInt) ==
      if fromInt then S.IntEnd(s, S.Result(s1, S.Returns(E_OK))).s else S.Dispatch(s1)
  {
    hide QueuesOk, Sorted, TimersOk, ClockOk, S.Release, Sched, S.Dispatch;
    QueueTasks(s, q);
    var t := s.queue[q][0];
    var s1 := S.Release(s, t, E_OK);
    assert [t][1..] == [];
    if fromInt {
      assert S.IEndWaits(S.IntEnd(s, S.Result(s1, S.Returns(E_OK))).s, [t][1..]) == S.IntEnd(s, S.Result(s1, S.Returns(E_OK))).s;
    } else {
      assert S.ReleaseAll(s1, [t][1..], E_OK) == s1;
      assert S.ReleaseAll(s, [t], E_OK) == s1;
    }
  }

  /** The running task joins the wait queue; then dispatch(). */
  method WaitNow(k: Kernel, q: QName, tmout: int)
    requires k.Rep() && Inv(k.View()) && S.MayWait(k.View()) && q in k.cfg.queues
    requires tmout == S.TMO_FEVR || 0 < tmout <= k.cfg.time.tmax
    modifies k`tcb, k`queue, k`readyPrimap, k`schedtsk, k`runtsk
    modifies k.tm.heap, k.tm`blocks, k.tm`times, k.tm`lastIndex, k.tm`pending
    ensures k.Rep() && Inv(k.View())
    ensures k.cfg.time.Ok() && q.Wait? && k.View() == S.WaitOn(old(k.View()), q, tmout).s
  {
    hide CoreOk, DispatchOk, Kernel.Rep, S.MakeWait, S.Dispatch;
    ghost var s := k.View();
    ObjectQueue(s, q);
    RunningRunnable(s);
    WaitOnKeeps(s, q, tmout);
    MakeWaitFrame(s, q, tmout);
    SetWaiting(k, q.cause);
    WobjMakeWait(k, q, tmout, s);
    DispatchAlways(k);
  }

  lemma MakeWaitFrame(s: State, q: QName, tmout: int)
    requires Inv(s) && S.InTask(s) && s.cfg.time.Ok() && q.Wait?
    ensures var s' := S.MakeWait(s, q.cause, q.id, if tmout > 0 then Some(tmout) else None);
      s' == s.(tcb := s'.tcb, queue := s'.queue, pending := s'.pending)
  {
    hide CoreOk, DispatchOk, S.Enter, S.Leave;
  }

  /** All tasks in the wait queue return with E_DLT; then dispatch(). */
  method DeleteAll(k: Kernel, q: QName)
    requires k.Rep() && Inv(k.View()) && q in k.cfg.queues && q in k.queue && S.InTask(k.View())
    modifies k`tcb, k`queue, k`readyPrimap, k`schedtsk, k`runtsk
    modifies k.tm.heap, k.tm`blocks, k.tm`times, k.tm`lastIndex, k.tm`pending
    ensures k.Rep() && Inv(k.View())
    ensures S.AllTasks(old(k.queue)[q], |old(k.tcb)|)
    ensures k.View() == S.EndWaits(old(k.View()), old(k.queue)[q], E_DLT)
  {
    hide CoreOk, DispatchOk, Kernel.Timing, Mirrors, HasReady, Sched, S.ReleaseAll;
    ghost var s := k.View();
    ObjectQueue(s, q);
    EndWaitsKeeps(s, s.queue[q], E_DLT);
    ReleaseAllKeeps(s, s.queue[q], E_DLT);
    BestRuns(s);
    var dspreq := InitWaitQueue(k, q);
    if dspreq {
      DispatchNow(k);
    }
  }

  /** A task is taken out of the wait queue, wherever it is, and its wait completed. */
  method CompleteMember(k: Kernel, q: QName, t: TaskId) returns (d: bool)
    requires k.Rep() && CoreOk(k.View()) && q in k.cfg.queues && q in k.queue && t in k.queue[q]
    modifies k`tcb, k`queue, k`readyPrimap, k`schedtsk
    modifies k.tm.heap, k.tm`blocks, k.tm`times, k.tm`lastIndex, k.tm`pending
    ensures k.Rep() && t < |old(k.tcb)|
    ensures k.View() == S.Release(old(k.View()), t, E_OK)
    ensures d <==> k.dspflg && k.schedtsk != old(k.schedtsk)
  {
    hide Mirrors, PriOk, Sched, CoreOk, Kernel.Timing, S.Release, S.Leave, Remove;
    ghost var s := k.View();
    MemberFacts(s, q, t, E_OK);
    WaitQueueChange(s.queue, q, Remove(s.queue[q], t), k.tcb, t);
    WaitQueueOnly(k.readyPrimap, s.queue, s.queue[q := Remove(s.queue[q], t)], q);
    ReleaseIs(s, t, E_OK);
    k.queue := k.queue[q := Remove(k.queue[q], t)];
    d := WaitComplete(k, t);
  }

  /** One of several waits that end in the same call. */
  method CompleteEach(k: Kernel, q: QName, t: TaskId, fromInt: bool) returns (d: bool)
    requires k.Rep() && CoreOk(k.View()) && q in k.cfg.queues && q in k.queue && t in k.queue[q]
    modifies k`tcb, k`queue, k`readyPrimap, k`schedtsk, k`reqflg
    modifies k.tm.heap, k.tm`blocks, k.tm`times, k.tm`lastIndex, k.tm`pending
    ensures k.Rep() && t < |old(k.tcb)|
    ensures k.View() == EndOne(old(k.View()), t, fromInt)
    ensures d <==> k.dspflg && k.schedtsk != old(k.schedtsk)
  {
    hide Mirrors, HasReady, PriOk, Sched, CoreOk, Kernel.Timing, S.Release;
    ghost var s := k.View();
    if t < |k.tcb| {
      ReleaseFrame(s, t, E_OK);
    }
    d := CompleteMember(k, q, t);
    if fromInt && d {
      k.reqflg := true;
    }
  }

  /** All tasks in both wait queues return with E_DLT; then dispatch(). */
  method DeleteBoth(k: Kernel, sq: QName, rq: QName)
    requires k.Rep() && Inv(k.View()) && S.InTask(k.View())
    requires sq in k.cfg.queues && sq in k.queue && rq in k.cfg.queues && rq in k.queue && sq != rq
    modifies k`tcb, k`queue, k`readyPrimap, k`schedtsk, k`runtsk
    modifies k.tm.heap, k.tm`blocks, k.tm`times, k.tm`lastIndex, k.tm`pending
    ensures k.Rep()
    ensures S.AllTasks(old(k.queue)[sq], |old(k.tcb)|) && rq in S.ReleaseAll(old(k.View()), old(k.queue)[sq], E_DLT).queue
    ensures var s1 := S.ReleaseAll(old(k.View()), old(k.queue)[sq], E_DLT);
      && S.AllTasks(old(k.queue)[rq], |s1.tcb|)
      && k.View() == S.Dispatch(S.ReleaseAll(s1, old(k.queue)[rq], E_DLT))
  {
    hide CoreOk, DispatchOk, Kernel.Timing, Mirrors, HasReady, Sched, S.ReleaseAll;
    ghost var s := k.View();
    BestRuns(s);
    ObjectQueue(s, sq);
    ReleaseAllKeeps(s, s.queue[sq], E_DLT);
    FlushFacts(s, sq, E_DLT);
    var dspreq := InitWaitQueue(k, sq);
    ghost var s1 := k.View();
    QueueTasks(s1, rq);
    QueueWaits(s1, rq);
    ReleaseAllKeeps(s1, s1.queue[rq], E_DLT);
    var d := InitWaitQueue(k, rq);
    if d {
      dspreq := true;
    }
    if dspreq {
      DispatchNow(k);
    }
  }

  lemma QueueWaits(s: State, q: QName)
    requires CoreOk(s) && q in s.cfg.queues && q in s.queue
    ensures AllWaiting(s, s.queue[q])
  {
    hide TimersOk, Sorted, ClockOk;
    QueueTasks(s, q);
    forall i | 0 <= i < |s.queue[q]|
      ensures s.queue[q][i] < |s.tcb| && s.tcb[s.queue[q][i]].tstat.waiting && s.tcb[s.queue[q][i]].tstat.WaitWobj()
    {
      assert s.queue[q][i] in s.queue[q];
    }
  }
}
