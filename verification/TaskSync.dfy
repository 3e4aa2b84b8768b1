/**
 task_sync.c: sleeping and waking up, breaking waits, suspending, delaying.
 */
module TaskSync {
  import opened Common
  import opened HeapLinks
  import opened SystemTime
  import opened KernelState
  import opened KernelRuns
  import opened KernelFacts
  import opened ReadyQueue
  import opened Kernels
  import opened Task
  import opened Waiting
  import opened TaskManage
  import S = KernelSpec

  /** Waiting for no object, field by field. */
  lemma PlainWaitIs(s: State, cause: nat, tmout: Option<nat>)
    requires CoreOk(s) && S.InTask(s) && s.tcb[s.runtsk.value].tstat.runnable && cause < RDTQ
    ensures var t := s.runtsk.value;
      var pri := Ready(s.tcb[t].priority);
      && HasReady(s.queue) && s.cfg.time.Ok()
      && S.MakeWait(s, cause, s.tcb[t].wobj, tmout) == s.(
        tcb := s.tcb[t := s.tcb[t].(tstat := TsWaiting(cause),
                    winfo := Tmevtb(if tmout.Some? then Some(TaskTimer(t)) else None))],
        queue := s.queue[pri := Remove(s.queue[pri], t)],
        pending := if tmout.None? then s.pending
          else s.pending[TaskTimer(t) := Pending(BaseTime(s.cfg.time, s.ticks) + tmout.value,
                                                 if cause == DLY then WaitTmoutOk(t) else WaitTmout(t))])
  {
    hide QueuesOk, TimersOk, Sorted, ClockOk, Remove;
    var t := s.runtsk.value;
    MakeWaitIs(s, cause, s.tcb[t].wobj, tmout);
  }

  /** CHECK_DISPATCH. */
  method CheckDispatch(k: Kernel) returns (ok: bool)
    requires Inv(k.View())
    ensures ok <==> S.MayWait(k.View())
    ensures ok ==> CoreOk(k.View()) && k.runtsk.Some? && k.runtsk.value < |k.tcb| && k.tcb[k.runtsk.value].tstat.runnable
  {
    TaskContext(k.View());
    if !k.intctx && k.runtsk != None {
      RunningRunnable(k.View());
    }
    ok := !k.intctx && k.runtsk != None && k.dspflg;
  }

  /** Sets the state byte of the running task before it waits. */
  method SetWaiting(k: Kernel, cause: nat)
    requires k.Rep() && CoreOk(k.View()) && k.runtsk.Some? && k.runtsk.value < |k.tcb| && k.tcb[k.runtsk.value].tstat.runnable && !k.intctx
    modifies k`tcb
    ensures k.Rep() && GoingToWait(k, old(k.View()), cause)
    ensures k.tcb == old(k.tcb)[k.runtsk.value := old(k.tcb)[k.runtsk.value].(tstat := TsWaiting(cause))]
  {
    hide CoreOk, Kernel.Timing, Mirrors, HasReady, Sched;
    k.tcb := k.tcb[k.runtsk.value := k.tcb[k.runtsk.value].(tstat := TsWaiting(cause))];
  }

  /** The running task goes to sleep. */
  method Sleep(k: Kernel)
    requires k.Rep() && CoreOk(k.View()) && S.InTask(k.View()) && k.tcb[k.runtsk.value].tstat.runnable
    modifies k`tcb, k`queue, k`readyPrimap, k`schedtsk
    ensures k.Rep()
    ensures k.View() == S.MakeWait(old(k.View()), SLP, old(k.tcb)[k.runtsk.value].wobj, None)
  {
    hide CoreOk, Kernel.Rep, HasReady, BaseTime, Remove, S.MakeWait;
    ghost var s := k.View();
    PlainWaitIs(s, SLP, None);
    SetWaiting(k, SLP);
    MakeWait(k, s, SLP);
  }

  /** What make_wait_tmout has done, field by field, is what is specified. */
  lemma SleepIs(s: State, tmout: int, s': State)
    requires CoreOk(s) && S.InTask(s) && s.tcb[s.runtsk.value].tstat.runnable && s.cfg.time.Ok()
    requires var t := s.runtsk.value;
      var pri := Ready(s.tcb[t].priority);
      && pri in s.queue
      && s' == s.(
        tcb := s.tcb[t := s.tcb[t].(tstat := TsWaiting(SLP), winfo := Tmevtb(if tmout > 0 then Some(TaskTimer(t)) else None))],
        queue := s.queue[pri := Remove(s.queue[pri], t)],
        pending := if tmout > 0
          then s.pending[TaskTimer(t) := Pending(BaseTime(s.cfg.time, s.ticks) + tmout, WaitTmout(t))] else s.pending)
    ensures s' == S.MakeWait(s, SLP, s.tcb[s.runtsk.value].wobj, if tmout > 0 then Some(tmout) else None)
  {
    hide CoreOk, BaseTime, S.MakeWait, Remove;
    PlainWaitIs(s, SLP, if tmout > 0 then Some(tmout) else None);
  }

  /** The running task goes to sleep, for a limited time if `tmout` is positive. */
  method SleepTmout(k: Kernel, tmout: int)
    requires k.Rep() && CoreOk(k.View()) && S.InTask(k.View()) && k.tcb[k.runtsk.value].tstat.runnable
    requires tmout == S.TMO_FEVR || 0 < tmout <= k.cfg.time.tmax
    modifies k`tcb, k`queue, k`readyPrimap, k`schedtsk
    modifies k.tm.heap, k.tm`blocks, k.tm`times, k.tm`lastIndex, k.tm`pending
    ensures k.Rep()
    ensures k.View() == S.MakeWait(old(k.View()), SLP, old(k.tcb)[k.runtsk.value].wobj, if tmout > 0 then Some(tmout) else None)
  {
    hide CoreOk, Kernel.Rep, BaseTime, Remove, S.MakeWait;
    ghost var s := k.View();
    TaskFacts(s, k.runtsk.value);
    TimerFacts(s, k.runtsk.value);
    SetWaiting(k, SLP);
    MakeWaitTmout(k, tmout, s, SLP);
    SleepIs(s, tmout, k.View());
  }

  /** The running task waits for `dlytim` milliseconds. */
  method Delay(k: Kernel, dlytim: nat)
    requires k.Rep() && CoreOk(k.View()) && S.InTask(k.View()) && k.tcb[k.runtsk.value].tstat.runnable
    requires dlytim <= k.cfg.time.tmax
    modifies k`tcb, k`queue, k`readyPrimap, k`schedtsk
    modifies k.tm.heap, k.tm`blocks, k.tm`times, k.tm`lastIndex, k.tm`pending
    ensures k.Rep()
    ensures k.View() == S.MakeWait(old(k.View()), DLY, old(k.tcb)[k.runtsk.value].wobj, Some(dlytim))
  {
    hide CoreOk, Kernel.SchedRep, Kernel.Timing, S.MakeWait, BaseTime;
    ghost var s := k.View();
    PlainWaitIs(s, DLY, Some(dlytim));
    TimerFacts(s, k.runtsk.value);
    SetWaiting(k, DLY);
    StopRunning(k, s);
    EnqueueTimer(k, TaskTimer(k.runtsk.value), dlytim, WaitTmoutOk(k.runtsk.value));
  }

  /** The first part of dly_tsk: the running task is not runnable any more, and its timer is noted. */
  method StopRunning(k: Kernel, ghost s: State)
    requires k.Rep() && GoingToWait(k, s, DLY)
    modifies k`tcb, k`queue, k`readyPrimap, k`schedtsk
    ensures k.Rep()
    ensures var t := s.runtsk.value;
      var pri := Ready(s.tcb[t].priority);
      && HasReady(s.queue)
      && k.queue == s.queue[pri := Remove(s.queue[pri], t)]
      && k.tcb == s.tcb[t := s.tcb[t].(tstat := TsWaiting(DLY), winfo := Tmevtb(Some(TaskTimer(t))))]
  {
    hide Mirrors, PriOk, Sched, CoreOk, Kernel.Timing;
    var t := k.runtsk.value;
    ReadyFacts(s);
    TaskFacts(s, t);
    PriKept(s.queue, s.tcb, t, k.tcb[t]);
    var _ := MakeNonRunnable(k, t);
    k.tcb := k.tcb[t := k.tcb[t].(winfo := Tmevtb(Some(TaskTimer(t))))];
  }

  /** slp_tsk, up to the dispatch. */
  method SlpTsk(k: Kernel) returns (out: S.Outcome)
    requires k.Rep() && Inv(k.View())
    modifies k`tcb, k`queue, k`readyPrimap, k`schedtsk, k`runtsk
    ensures k.Rep() && Inv(k.View())
    ensures S.Result(k.View(), out) == S.TslpTsk(old(k.View()), S.TMO_FEVR)
  {
    hide CoreOk, DispatchOk, Kernel.Timing, Mirrors, Sched, S.MakeWait;
    ghost var s := k.View();
    TslpTskKeeps(s, S.TMO_FEVR);
    var ok := CheckDispatch(k);
    if !ok {
      return S.Returns(E_CTX);
    }
    var t := k.runtsk.value;
    if k.tcb[t].wupque {
      k.tcb := k.tcb[t := k.tcb[t].(wupque := false)];
      return S.Returns(E_OK);
    }
    Sleep(k);
    DispatchNow(k);
    return S.Blocks;
  }

  /** tslp_tsk, up to the dispatch. */
  method TslpTsk(k: Kernel, tmout: int) returns (out: S.Outcome)
    requires k.Rep() && Inv(k.View()) && tmout <= k.cfg.time.tmax
    modifies k`tcb, k`queue, k`readyPrimap, k`schedtsk, k`runtsk
    modifies k.tm.heap, k.tm`blocks, k.tm`times, k.tm`lastIndex, k.tm`pending
    ensures k.Rep() && Inv(k.View())
    ensures S.Result(k.View(), out) == S.TslpTsk(old(k.View()), tmout)
  {
    hide CoreOk, DispatchOk, Kernel.Timing, Mirrors, Sched, S.MakeWait;
    ghost var s := k.View();
    TslpTskKeeps(s, tmout);
    var ok := CheckDispatch(k);
    if !ok {
      return S.Returns(E_CTX);
    }
    if tmout < S.TMO_FEVR {
      return S.Returns(E_PAR);
    }
    var t := k.runtsk.value;
    if k.tcb[t].wupque {
      k.tcb := k.tcb[t := k.tcb[t].(wupque := false)];
      return S.Returns(E_OK);
    }
    if tmout == S.TMO_POL {
      return S.Returns(E_TMOUT);
    }
    SleepTmout(k, tmout);
    DispatchNow(k);
    return S.Blocks;
  }

  /** dly_tsk, up to the dispatch. */
  method DlyTsk(k: Kernel, dlytim: nat) returns (out: S.Outcome)
    requires k.Rep() && Inv(k.View())
    modifies k`tcb, k`queue, k`readyPrimap, k`schedtsk, k`runtsk
    modifies k.tm.heap, k.tm`blocks, k.tm`times, k.tm`lastIndex, k.tm`pending
    ensures k.Rep() && Inv(k.View())
    ensures S.Result(k.View(), out) == S.DlyTsk(old(k.View()), dlytim)
  {
    hide CoreOk, DispatchOk, Kernel.Timing, Mirrors, Sched, S.MakeWait;
    ghost var s := k.View();
    DlyTskKeeps(s, dlytim);
    var ok := CheckDispatch(k);
    if !ok {
      return S.Returns(E_CTX);
    }
    if dlytim > k.cfg.time.tmax {
      return S.Returns(E_PAR);
    }
    Delay(k, dlytim);
    DispatchNow(k);
    return S.Blocks;
  }

  /** The end of a wait that is not for an object, field by field. */
  lemma WakeupIs(s: State, t: TaskId)
    requires CoreOk(s) && t < |s.tcb| && s.tcb[t].tstat.WaitSlp()
    ensures s.tcb[t].tstat.waiting && HasReady(s.queue) && NotReady(s.queue, t) && TimerOk(s.tcb[t], t, s.pending)
    ensures S.Release(s, t, E_OK) == s.(
      tcb := s.tcb[t := Ended(s.tcb[t], E_OK)],
      queue := EnterReady(s.queue, Ended(s.tcb[t], E_OK), t),
      pending := s.pending - {TaskTimer(t)})
  {
    hide QueuesOk, TimersOk, Sorted, ClockOk;
    TaskFacts(s, t);
    WaitingFacts(s, t);
    ReleaseIs(s, t, E_OK);
  }

  /** A sleeping task wakes up. */
  method WakeSleeper(k: Kernel, t: TaskId) returns (d: bool)
    requires k.Rep() && CoreOk(k.View()) && t < |k.tcb| && k.tcb[t].tstat.WaitSlp()
    modifies k`tcb, k`queue, k`readyPrimap, k`schedtsk
    modifies k.tm.heap, k.tm`blocks, k.tm`times, k.tm`lastIndex, k.tm`pending
    ensures k.Rep() && t < |old(k.tcb)| && k.View() == S.Release(old(k.View()), t, E_OK)
    ensures d <==> k.dspflg && k.schedtsk != old(k.schedtsk)
  {
    hide CoreOk, Kernel.Timing, Mirrors, PriOk, Sched, S.Release, EnterReady, Ended;
    ghost var s := k.View();
    TaskFacts(s, t);
    ReadyFacts(s);
    WakeupIs(s, t);
    d := WaitComplete(k, t);
  }

  /** What wup_tsk and iwup_tsk do to the task. */
  method Wakeup(k: Kernel, t: TaskId) returns (ercd: Ercd, d: bool)
    requires k.Rep() && CoreOk(k.View()) && t < |k.tcb|
    modifies k`tcb, k`queue, k`readyPrimap, k`schedtsk
    modifies k.tm.heap, k.tm`blocks, k.tm`times, k.tm`lastIndex, k.tm`pending
    ensures k.Rep()
    ensures S.Result(k.View(), S.Returns(ercd)) == S.Wakeup(old(k.View()), t)
    ensures d <==> k.dspflg && k.schedtsk != old(k.schedtsk)
  {
    hide CoreOk, Kernel.Rep, S.Release;
    d := false;
    if k.tcb[t].tstat.Dormant() {
      ercd := E_OBJ;
    } else if k.tcb[t].tstat.WaitSlp() {
      d := WakeSleeper(k, t);
      ercd := E_OK;
    } else if !k.tcb[t].wupque {
      SetTcb(k, t, k.tcb[t].(wupque := true));
      ercd := E_OK;
    } else {
      ercd := E_QOVR;
    }
  }

  /** wup_tsk. */
  method WupTsk(k: Kernel, tskid: int) returns (ercd: Ercd)
    requires k.Rep() && Inv(k.View())
    modifies k`tcb, k`queue, k`readyPrimap, k`schedtsk, k`runtsk
    modifies k.tm.heap, k.tm`blocks, k.tm`times, k.tm`lastIndex, k.tm`pending
    ensures k.Rep() && Inv(k.View())
    ensures S.Result(k.View(), S.Returns(ercd)) == S.WupTsk(old(k.View()), tskid)
  {
    hide CoreOk, DispatchOk, Kernel.Rep, Sched, S.Wakeup, S.Dispatch;
    ghost var s, best := k.View(), k.schedtsk;
    BestIs(k);
    WupCallsKeep(s, tskid);
    TaskContext(s);
    var ctx := SenseContext(k);
    if ctx {
      return E_CTX;
    }
    var target := GetTcb(k, tskid, true);
    if target == None {
      return E_ID;
    }
    WakeupFrame(s, target.value);
    var d: bool;
    ercd, d := Wakeup(k, target.value);
    DispatchIf(k, d, s, best);
  }

  lemma ReleaseFrame(s: State, t: TaskId, ercd: Ercd)
    requires t < |s.tcb|
    ensures var s' := S.Release(s, t, ercd);
      s'.runtsk == s.runtsk && s'.dspflg == s.dspflg
  {
    hide S.Enter, S.Leave;
  }

  lemma WakeupFrame(s: State, t: TaskId)
    requires t < |s.tcb|
    ensures var s' := S.Wakeup(s, t).s; s'.runtsk == s.runtsk && s'.dspflg == s.dspflg
    ensures var s' := S.BreakWait(s, t).s; s'.runtsk == s.runtsk && s'.dspflg == s.dspflg
  {
    hide S.Release;
    ReleaseFrame(s, t, E_OK);
    ReleaseFrame(s, t, E_RLWAI);
  }

  /** iwup_tsk. */
  method IWupTsk(k: Kernel, tskid: int) returns (ercd: Ercd)
    requires k.Rep() && Inv(k.View())
    modifies k`tcb, k`queue, k`readyPrimap, k`schedtsk, k`reqflg
    modifies k.tm.heap, k.tm`blocks, k.tm`times, k.tm`lastIndex, k.tm`pending
    ensures k.Rep() && Inv(k.View())
    ensures S.Result(k.View(), S.Returns(ercd)) == S.IWupTsk(old(k.View()), tskid)
  {
    hide CoreOk, DispatchOk, Kernel.Timing, Mirrors, HasReady, Sched, S.Wakeup;
    ghost var s := k.View();
    WupCallsKeep(s, tskid);
    if !k.intctx {
      return E_CTX;
    }
    var target := GetTcb(k, tskid, false);
    if target == None {
      return E_ID;
    }
    var d: bool;
    ercd, d := Wakeup(k, target.value);
    if d {
      k.reqflg := true;
    }
  }

  /** can_wup. */
  method CanWup(k: Kernel, tskid: int) returns (out: S.Outcome)
    requires k.Rep() && Inv(k.View())
    modifies k`tcb
    ensures k.Rep() && Inv(k.View())
    ensures S.Result(k.View(), out) == S.CanWup(old(k.View()), tskid)
  {
    hide CoreOk, DispatchOk, Kernel.Timing, Mirrors, HasReady, Sched;
    ghost var s := k.View();
    CanWupKeeps(s, tskid);
    TaskContext(s);
    var ctx := SenseContext(k);
    if ctx {
      return S.Returns(E_CTX);
    }
    var target := GetTcb(k, tskid, true);
    if target == None {
      return S.Returns(E_ID);
    }
    var t := target.value;
    if k.tcb[t].tstat.Dormant() {
      return S.Returns(E_OBJ);
    }
    out := S.Count(if k.tcb[t].wupque then 1 else 0);
    k.tcb := k.tcb[t := k.tcb[t].(wupque := false)];
  }

  /** A wait is broken. */
  method EndWait(k: Kernel, t: TaskId) returns (d: bool)
    requires k.Rep() && CoreOk(k.View()) && t < |k.tcb| && k.tcb[t].tstat.waiting
    modifies k`tcb, k`queue, k`readyPrimap, k`schedtsk
    modifies k.tm.heap, k.tm`blocks, k.tm`times, k.tm`lastIndex, k.tm`pending
    ensures k.Rep() && t < |old(k.tcb)| && k.View() == S.Release(old(k.View()), t, E_RLWAI)
    ensures d <==> k.dspflg && k.schedtsk != old(k.schedtsk)
  {
    hide CoreOk, Kernel.Timing, Mirrors, PriOk, Sched, S.Release, S.Leave, EnterReady, Ended;
    ghost var s := k.View();
    TaskFacts(s, t);
    WaitingFacts(s, t);
    ReadyFacts(s);
    ReleaseIs(s, t, E_RLWAI);
    d := WaitRelease(k, t);
  }

  /** What rel_wai and irel_wai do to the task. */
  method BreakWait(k: Kernel, t: TaskId) returns (ercd: Ercd, d: bool)
    requires k.Rep() && CoreOk(k.View()) && t < |k.tcb|
    modifies k`tcb, k`queue, k`readyPrimap, k`schedtsk
    modifies k.tm.heap, k.tm`blocks, k.tm`times, k.tm`lastIndex, k.tm`pending
    ensures k.Rep()
    ensures S.Result(k.View(), S.Returns(ercd)) == S.BreakWait(old(k.View()), t)
    ensures d <==> k.dspflg && k.schedtsk != old(k.schedtsk)
  {
    hide CoreOk, Kernel.Rep, S.Release;
    d := false;
    if !k.tcb[t].tstat.waiting {
      ercd := E_OBJ;
    } else {
      d := EndWait(k, t);
      ercd := E_OK;
    }
  }

  /** rel_wai. */
  method RelWai(k: Kernel, tskid: int) returns (ercd: Ercd)
    requires k.Rep() && Inv(k.View())
    modifies k`tcb, k`queue, k`readyPrimap, k`schedtsk, k`runtsk
    modifies k.tm.heap, k.tm`blocks, k.tm`times, k.tm`lastIndex, k.tm`pending
    ensures k.Rep() && Inv(k.View())
    ensures S.Result(k.View(), S.Returns(ercd)) == S.RelWai(old(k.View()), tskid)
  {
    hide CoreOk, DispatchOk, Kernel.Rep, Sched, S.BreakWait, S.Dispatch;
    ghost var s, best := k.View(), k.schedtsk;
    BestIs(k);
    RelWaiCallsKeep(s, tskid);
    TaskContext(s);
    var ctx := SenseContext(k);
    if ctx {
      return E_CTX;
    }
    var target := GetTcb(k, tskid, false);
    if target == None {
      return E_ID;
    }
    WakeupFrame(s, target.value);
    var d: bool;
    ercd, d := BreakWait(k, target.value);
    DispatchIf(k, d, s, best);
  }

  /** irel_wai. */
  method IRelWai(k: Kernel, tskid: int) returns (ercd: Ercd)
    requires k.Rep() && Inv(k.View())
    modifies k`tcb, k`queue, k`readyPrimap, k`schedtsk, k`reqflg
    modifies k.tm.heap, k.tm`blocks, k.tm`times, k.tm`lastIndex, k.tm`pending
    ensures k.Rep() && Inv(k.View())
    ensures S.Result(k.View(), S.Returns(ercd)) == S.IRelWai(old(k.View()), tskid)
  {
    hide CoreOk, DispatchOk, Kernel.Timing, Mirrors, HasReady, Sched, S.BreakWait;
    ghost var s := k.View();
    RelWaiCallsKeep(s, tskid);
    if !k.intctx {
      return E_CTX;
    }
    var target := GetTcb(k, tskid, false);
    if target == None {
      return E_ID;
    }
    var d: bool;
    ercd, d := BreakWait(k, target.value);
    if d {
      k.reqflg := true;
    }
  }

  /** A task that is suspended or resumed moves between its ready queue and none, field by field. */
  lemma SuspendIs(s: State, t: TaskId)
    requires CoreOk(s) && t < |s.tcb|
    ensures var c := s.tcb[t];
      && HasReady(s.queue)
      && (c.tstat.runnable ==>
        S.Rehome(s, t, c.(tstat := TS_SUSPENDED)) == s.(
          tcb := s.tcb[t := c.(tstat := TS_SUSPENDED)],
          queue := s.queue[Ready(c.priority) := Remove(s.queue[Ready(c.priority)], t)]))
      && (c.tstat.suspended && !c.tstat.waiting ==>
        S.Rehome(s, t, c.(tstat := TS_RUNNABLE)) == s.(
          tcb := s.tcb[t := c.(tstat := TS_RUNNABLE)],
          queue := s.queue[Ready(c.priority) := s.queue[Ready(c.priority)] + [t]]))
  {
    hide QueuesOk, TimersOk, Sorted, ClockOk, Remove;
    TaskFacts(s, t);
  }

  /** What sus_tsk does to the task. */
  method Suspend(k: Kernel, t: TaskId) returns (d: bool)
    requires k.Rep() && CoreOk(k.View()) && t < |k.tcb| && k.tcb[t].tstat.runnable
    modifies k`tcb, k`queue, k`readyPrimap, k`schedtsk
    ensures k.Rep()
    ensures k.View() == S.Rehome(old(k.View()), t, old(k.tcb)[t].(tstat := TS_SUSPENDED))
    ensures d <==> k.dspflg && k.schedtsk != old(k.schedtsk)
  {
    hide CoreOk, Kernel.Timing, Mirrors, PriOk, Sched, S.Rehome;
    ghost var s := k.View();
    TaskFacts(s, t);
    ReadyFacts(s);
    SuspendIs(s, t);
    PriKept(s.queue, s.tcb, t, s.tcb[t].(tstat := TS_SUSPENDED));
    k.tcb := k.tcb[t := k.tcb[t].(tstat := TS_SUSPENDED)];
    d := MakeNonRunnable(k, t);
  }

  /** What rsm_tsk does to a task that only is suspended. */
  method Resume(k: Kernel, t: TaskId) returns (d: bool)
    requires k.Rep() && CoreOk(k.View()) && t < |k.tcb| && k.tcb[t].tstat.suspended && !k.tcb[t].tstat.waiting
    modifies k`tcb, k`queue, k`readyPrimap, k`schedtsk
    ensures k.Rep()
    ensures k.View() == S.Rehome(old(k.View()), t, old(k.tcb)[t].(tstat := TS_RUNNABLE))
    ensures d <==> k.dspflg && k.schedtsk != old(k.schedtsk)
  {
    hide CoreOk, Kernel.Timing, Mirrors, PriOk, Sched, S.Rehome;
    ghost var s := k.View();
    TaskFacts(s, t);
    ReadyFacts(s);
    SuspendIs(s, t);
    PriElsewhere(k.queue, k.tcb, t, k.tcb[t].(tstat := TS_RUNNABLE));
    k.tcb := k.tcb[t := k.tcb[t].(tstat := TS_RUNNABLE)];
    d := MakeRunnable(k, t);
  }

  /** sus_tsk. */
  method SusTsk(k: Kernel, tskid: int) returns (ercd: Ercd)
    requires k.Rep() && Inv(k.View())
    modifies k`tcb, k`queue, k`readyPrimap, k`schedtsk, k`runtsk
    ensures k.Rep() && Inv(k.View())
    ensures S.Result(k.View(), S.Returns(ercd)) == S.SusTsk(old(k.View()), tskid)
  {
    hide CoreOk, DispatchOk, Kernel.Rep, Sched, S.Dispatch;
    hide S.Rehome;
    ghost var s, best := k.View(), k.schedtsk;
    BestIs(k);
    SusTskKeeps(s, tskid);
    TaskContext(s);
    var ctx := SenseContext(k);
    if ctx {
      return E_CTX;
    }
    var target := GetTcb(k, tskid, true);
    if target == None {
      return E_ID;
    }
    var t := target.value;
    if Some(t) == k.runtsk && !k.dspflg {
      ercd := E_CTX;
    } else if k.tcb[t].tstat.Dormant() {
      ercd := E_OBJ;
    } else if k.tcb[t].tstat.runnable {
      var d := Suspend(k, t);
      DispatchIf(k, d, s, best);
      ercd := E_OK;
    } else if k.tcb[t].tstat.suspended {
      ercd := E_QOVR;
    } else {
      SetTcb(k, t, k.tcb[t].(tstat := k.tcb[t].tstat.(suspended := true)));
      ercd := E_OK;
    }
  }

  /** rsm_tsk. */
  method RsmTsk(k: Kernel, tskid: int) returns (ercd: Ercd)
    requires k.Rep() && Inv(k.View())
    modifies k`tcb, k`queue, k`readyPrimap, k`schedtsk, k`runtsk
    ensures k.Rep() && Inv(k.View())
    ensures S.Result(k.View(), S.Returns(ercd)) == S.RsmTsk(old(k.View()), tskid)
  {
    hide CoreOk, DispatchOk, Kernel.Rep, Sched, S.Dispatch;
    hide S.Rehome;
    ghost var s, best := k.View(), k.schedtsk;
    BestIs(k);
    RsmTskKeeps(s, tskid);
    TaskContext(s);
    var ctx := SenseContext(k);
    if ctx {
      return E_CTX;
    }
    var target := GetTcb(k, tskid, false);
    if target == None {
      return E_ID;
    }
    var t := target.value;
    if !k.tcb[t].tstat.suspended {
      ercd := E_OBJ;
    } else if !k.tcb[t].tstat.waiting {
      var d := Resume(k, t);
      DispatchIf(k, d, s, best);
      ercd := E_OK;
    } else {
      SetTcb(k, t, k.tcb[t].(tstat := k.tcb[t].tstat.(suspended := false)));
      ercd := E_OK;
    }
  }
}
