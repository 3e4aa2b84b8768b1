/**
 task_manage.c: activation, termination and priority of tasks.
 */
module TaskManage {
  import opened Common
  import opened HeapLinks
  import opened KernelState
  import opened KernelRuns
  import opened KernelFacts
  import opened ReadyQueue
  import opened Kernels
  import opened Task
  import opened Waiting
  import S = KernelSpec

  /** sense_context: an interrupt handler is running, or no task is. */
  method SenseContext(k: Kernel) returns (b: bool)
    ensures b <==> k.intctx || k.runtsk == None
  {
    b := k.intctx || k.runtsk == None;
  }

  /** The task that `tskid` means. */
  method GetTcb(k: Kernel, tskid: int, selfOk: bool) returns (t: Option<TaskId>)
    requires S.InTask(k.View()) || !selfOk
    ensures t == S.Target(k.View(), tskid, selfOk)
  {
    if 1 <= tskid <= |k.tcb| {
      t := Some(tskid - 1);
    } else if tskid == 0 && selfOk {
      t := k.runtsk;
    } else {
      t := None;
    }
  }

  /** A step that starts in `s` and leaves the flags alone ends as it should: the dispatcher
      is called if it must be. */
  lemma DispatchIs(s: State, s': State, d: bool)
    requires Inv(s) && S.InTask(s) && s'.runtsk == s.runtsk && s'.dspflg == s.dspflg
    requires d <==> s.dspflg && Sched(s'.queue) != Sched(s.queue)
    ensures S.Dispatch(s') == if d then s'.(runtsk := Sched(s'.queue)) else s'
  {
  }

  lemma BestIs(k: Kernel)
    requires k.Rep()
    ensures k.schedtsk == Sched(k.queue)
  {
    hide Kernel.Timing, Mirrors, HasReady, Sched;
  }

  /** A task's control block changes, but not what it is linked in. */
  method SetTcb(k: Kernel, t: TaskId, c: Tcb)
    requires k.Rep() && t < |k.tcb|
    modifies k`tcb
    ensures k.Rep() && k.tcb == old(k.tcb)[t := c]
  {
    hide Kernel.Timing, Mirrors, HasReady, Sched;
    k.tcb := k.tcb[t := c];
  }

  /** The end of a call that started in `s`, when `best` was the best task: dispatch() if it
      is necessary. */
  method DispatchIf(k: Kernel, d: bool, ghost s: State, ghost best: Option<TaskId>)
    requires k.Rep() && Inv(s) && S.InTask(s) && best == Sched(s.queue)
    requires k.runtsk == s.runtsk && k.dspflg == s.dspflg && (d <==> k.dspflg && k.schedtsk != best)
    modifies k`runtsk
    ensures k.Rep() && k.View() == S.Dispatch(old(k.View()))
  {
    hide CoreOk, DispatchOk, Kernel.Timing, Mirrors, HasReady, Sched, S.Dispatch;
    DispatchIs(s, k.View(), d);
    if d {
      DispatchNow(k);
    }
  }

  /** The running task exists. */
  lemma TaskContext(s: State)
    requires Inv(s)
    ensures S.InTask(s) <==> !s.intctx && s.runtsk.Some?
  {
    hide CoreOk, Sched;
  }

  /** What act_tsk and iact_tsk do to the task. */
  method Activate(k: Kernel, t: TaskId) returns (ercd: Ercd, d: bool)
    requires k.Rep() && CoreOk(k.View()) && t < |k.tcb|
    modifies k`tcb, k`queue, k`readyPrimap, k`schedtsk
    ensures k.Rep()
    ensures S.Result(k.View(), S.Returns(ercd)) == S.Activate(old(k.View()), t)
    ensures d <==> k.dspflg && k.schedtsk != old(k.schedtsk)
  {
    hide CoreOk, Kernel.Timing, Mirrors, PriOk, Sched, S.MakeActive;
    ghost var s := k.View();
    if k.tcb[t].tstat.Dormant() {
      TaskFacts(s, t);
      ReadyFacts(s);
      MakeActiveIs(s, t);
      d := MakeActive(k, t);
      ercd := E_OK;
    } else if !k.tcb[t].actque {
      k.tcb := k.tcb[t := k.tcb[t].(actque := true)];
      ercd, d := E_OK, false;
    } else {
      ercd, d := E_QOVR, false;
    }
  }

  lemma Shaped(s: State)
    requires CoreOk(s)
    ensures ShapeOk(s) && |s.tcb| == |s.cfg.ipriority|
  {
    hide QueuesOk, TimersOk, Sorted, ClockOk;
  }

  /** act_tsk. */
  method ActTsk(k: Kernel, tskid: int) returns (ercd: Ercd)
    requires k.Rep() && Inv(k.View())
    modifies k`tcb, k`queue, k`readyPrimap, k`schedtsk, k`runtsk
    ensures k.Rep() && Inv(k.View())
    ensures S.Result(k.View(), S.Returns(ercd)) == S.ActTsk(old(k.View()), tskid)
  {
    hide CoreOk, DispatchOk, Kernel.Rep, Sched, S.Activate, S.Dispatch;
    ghost var s, best := k.View(), k.schedtsk;
    BestIs(k);
    ActCallsKeep(s, tskid);
    TaskContext(s);
    var ctx := SenseContext(k);
    if ctx {
      return E_CTX;
    }
    var target := GetTcb(k, tskid, true);
    if target == None {
      return E_ID;
    }
    var d: bool;
    ercd, d := Activate(k, target.value);
    DispatchIf(k, d, s, best);
  }

  /** iact_tsk. */
  method IActTsk(k: Kernel, tskid: int) returns (ercd: Ercd)
    requires k.Rep() && Inv(k.View())
    modifies k`tcb, k`queue, k`readyPrimap, k`schedtsk, k`reqflg
    ensures k.Rep() && Inv(k.View())
    ensures S.Result(k.View(), S.Returns(ercd)) == S.IActTsk(old(k.View()), tskid)
  {
    hide CoreOk, DispatchOk, Kernel.Timing, Mirrors, HasReady, Sched, S.Activate;
    ghost var s := k.View();
    ActCallsKeep(s, tskid);
    if !k.intctx {
      return E_CTX;
    }
    var target := GetTcb(k, tskid, false);
    if target == None {
      return E_ID;
    }
    var d: bool;
    ercd, d := Activate(k, target.value);
    if d {
      k.reqflg := true;
    }
  }

  /** can_act. */
  method CanAct(k: Kernel, tskid: int) returns (out: S.Outcome)
    requires k.Rep() && Inv(k.View())
    modifies k`tcb
    ensures k.Rep() && Inv(k.View())
    ensures S.Result(k.View(), out) == S.CanAct(old(k.View()), tskid)
  {
    hide CoreOk, DispatchOk, Kernel.Timing, Mirrors, HasReady, Sched;
    ghost var s := k.View();
    CanActKeeps(s, tskid);
    TaskContext(s);
    var ctx := SenseContext(k);
    if ctx {
      return S.Returns(E_CTX);
    }
    var target := GetTcb(k, tskid, true);
    if target == None {
      return S.Returns(E_ID);
    }
    var t := target.value;
    out := S.Count(if k.tcb[t].actque then 1 else 0);
    k.tcb := k.tcb[t := k.tcb[t].(actque := false)];
  }

  /** make_dormant, and the new start if one was requested. */
  method Restart(k: Kernel, t: TaskId) returns (d: bool)
    requires k.Scheduling() && NotReady(k.queue, t) && t < |k.tcb| && t < |k.cfg.ipriority| && k.cfg.ipriority[t] < TNUM_TPRI
    modifies k`tcb, k`queue, k`readyPrimap, k`schedtsk
    ensures k.Scheduling()
    ensures var c := old(k.tcb)[t].(tstat := TS_DORMANT, priority := k.cfg.ipriority[t], wupque := false, actque := false);
      var c' := if old(k.tcb)[t].actque then c.(tstat := TS_RUNNABLE) else c;
      && k.tcb == old(k.tcb)[t := c'] && k.queue == EnterReady(old(k.queue), c', t)
    ensures d <==> k.dspflg && k.schedtsk != old(k.schedtsk)
  {
    hide Mirrors, PriOk, Sched;
    ghost var tcb := k.tcb;
    MakeDormant(k, t);
    PriElsewhere(k.queue, tcb, t, k.tcb[t]);
    d := false;
    if k.tcb[t].actque {
      PriElsewhere(k.queue, k.tcb, t, k.tcb[t].(actque := false));
      k.tcb := k.tcb[t := k.tcb[t].(actque := false)];
      d := MakeActive(k, t);
    }
  }

  /** What is left of ext_tsk when the flags are set: the running task ends. */
  method EndRunning(k: Kernel)
    requires k.Rep() && CoreOk(k.View()) && k.runtsk.Some? && k.runtsk.value < |k.tcb| && k.tcb[k.runtsk.value].tstat.runnable
    modifies k`tcb, k`queue, k`readyPrimap, k`schedtsk
    ensures k.Rep()
    ensures k.runtsk.value < |old(k.tcb)| == |k.cfg.ipriority|
    ensures var s' := S.Terminate(old(k.View()), k.runtsk.value);
      k.tcb == s'.tcb && k.queue == s'.queue && k.tm.pending == s'.pending
  {
    hide CoreOk, Kernel.Timing, Mirrors, PriOk, Sched, S.Terminate, S.Leave, EnterReady;
    ghost var s := k.View();
    var t := k.runtsk.value;
    TaskFacts(s, t);
    ReadyFacts(s);
    LeftNotReady(s, t);
    TerminateIs(s, t);
    IpriorityOk(s, t);
    var _ := MakeNonRunnable(k, t);
    var _ := Restart(k, t);
  }

  /** The configurator's priorities are in range. */
  lemma IpriorityOk(s: State, t: TaskId)
    requires CoreOk(s) && t < |s.tcb|
    ensures |s.tcb| == |s.cfg.ipriority| && s.cfg.ipriority[t] < TNUM_TPRI
  {
    hide QueuesOk, TimersOk, Sorted, ClockOk;
  }

  /** The end of a task touches its control block, the queues and its timer only. */
  lemma TerminateFrame(s: State, t: TaskId)
    requires t < |s.tcb| == |s.cfg.ipriority|
    ensures var s' := S.Terminate(s, t);
      s' == s.(tcb := s'.tcb, queue := s'.queue, pending := s'.pending)
  {
    hide S.Rehome;
    var c := s.tcb[t].(tstat := TS_DORMANT, priority := s.cfg.ipriority[t], wupque := false, actque := false);
    RehomeFrame(s, t, c);
    var s1 := S.Rehome(s, t, c).(pending := s.pending - {TaskTimer(t)});
    RehomeFrame(s1, t, s1.tcb[t].(tstat := TS_RUNNABLE));
  }

  /** Moving a task touches its control block and the queues only. */
  lemma RehomeFrame(s: State, t: TaskId, c: Tcb)
    requires t < |s.tcb|
    ensures var s' := S.Rehome(s, t, c);
      s' == s.(tcb := s'.tcb, queue := s'.queue) && |s'.tcb| == |s.tcb| && s'.tcb[t] == c
  {
    hide S.Leave, S.Enter;
  }

  /** The head of ext_tsk: a task that ends leaves dispatching enabled. */
  method EnableDispatch(k: Kernel)
    requires k.Rep()
    modifies k`disdsp, k`ipmflg, k`dspflg
    ensures k.Rep() && !k.disdsp && k.ipmflg && k.dspflg
  {
    hide Kernel.Timing, Mirrors, HasReady, Sched;
    if k.disdsp {
      k.disdsp := false;
    }
    if !k.ipmflg {
      k.ipmflg := true;
    }
    k.dspflg := true;
  }

  /** The dispatcher is called in any case. */
  method DispatchAlways(k: Kernel)
    requires k.Rep() && k.dspflg
    modifies k`runtsk
    ensures k.Rep() && k.View() == S.Dispatch(old(k.View()))
  {
    hide Kernel.Timing, Mirrors, HasReady, Sched;
    DispatchNow(k);
  }

  /** ext_tsk, up to where the task is gone. */
  method ExtTsk(k: Kernel) returns (out: S.Outcome)
    requires k.Rep() && Inv(k.View())
    modifies k`tcb, k`queue, k`readyPrimap, k`schedtsk, k`runtsk, k`disdsp, k`ipmflg, k`dspflg
    ensures k.Rep() && Inv(k.View())
    ensures S.Result(k.View(), out) == S.ExtTsk(old(k.View()))
  {
    hide CoreOk, DispatchOk, Kernel.Rep, Sched, S.Terminate, S.Dispatch;
    ghost var s := k.View();
    ExtTskKeeps(s);
    TaskContext(s);
    var ctx := SenseContext(k);
    if ctx {
      return S.Returns(E_CTX);
    }
    RunningRunnable(s);
    EnableDispatch(k);
    FlagsCore(s, k.View());
    TerminateFrame(k.View(), k.runtsk.value);
    EndRunning(k);
    DispatchAlways(k);
    return S.Blocks;
  }

  /** The running task can run. */
  lemma RunningRunnable(s: State)
    requires Inv(s) && s.runtsk.Some?
    ensures CoreOk(s) && ShapeOk(s)
    ensures s.runtsk.value < |s.tcb| && s.tcb[s.runtsk.value].tstat.runnable
  {
    hide QueuesOk, TimersOk, Sorted, ClockOk, Sched;
  }

  /** The middle of ter_tsk: `t`, not the running task, leaves whatever it is linked in. */
  method LeaveAll(k: Kernel, t: TaskId)
    requires k.Rep() && CoreOk(k.View()) && t < |k.tcb|
    requires k.dspflg ==> k.schedtsk != Some(t)
    modifies k`queue, k`readyPrimap, k`schedtsk
    modifies k.tm.heap, k.tm`blocks, k.tm`times, k.tm`lastIndex, k.tm`pending
    ensures k.Rep() && HasReady(k.queue) && PriOk(k.queue, k.tcb) && NotReady(k.queue, t)
    ensures k.queue == S.Leave(old(k.queue), k.tcb[t], t)
    ensures k.tm.pending == old(k.tm.pending) - {TaskTimer(t)}
    ensures k.dspflg ==> k.schedtsk == old(k.schedtsk)
  {
    hide CoreOk, Kernel.Timing, Mirrors, PriOk, Sched, S.Leave;
    ghost var s := k.View();
    TaskFacts(s, t);
    ReadyFacts(s);
    LeftNotReady(s, t);
    if k.tcb[t].tstat.runnable {
      var _ := MakeNonRunnable(k, t);
    } else if k.tcb[t].tstat.waiting {
      WaitingFacts(s, t);
      OtherQueue(k.readyPrimap, k.queue, k.tcb, t);
      WaitDequeueWobj(k, t);
      WaitDequeueTmevtb(k, t);
    }
  }

  /** ter_tsk on a task that is neither dormant nor running: only a new start can make a
      dispatch necessary. */
  method TerminateOther(k: Kernel, t: TaskId) returns (d: bool)
    requires k.Rep() && CoreOk(k.View()) && t < |k.tcb|
    requires k.dspflg ==> k.schedtsk != Some(t)
    modifies k`tcb, k`queue, k`readyPrimap, k`schedtsk
    modifies k.tm.heap, k.tm`blocks, k.tm`times, k.tm`lastIndex, k.tm`pending
    ensures k.Rep() && t < |old(k.tcb)| == |k.cfg.ipriority|
    ensures var s' := S.Terminate(old(k.View()), t);
      k.tcb == s'.tcb && k.queue == s'.queue && k.tm.pending == s'.pending
    ensures d <==> k.dspflg && k.schedtsk != old(k.schedtsk)
  {
    hide CoreOk, Kernel.Timing, Mirrors, PriOk, Sched, S.Terminate, S.Leave, EnterReady;
    ghost var s := k.View();
    IpriorityOk(s, t);
    TerminateIs(s, t);
    LeaveAll(k, t);
    d := Restart(k, t);
  }

  /** ter_tsk. */
  method TerTsk(k: Kernel, tskid: int) returns (ercd: Ercd)
    requires k.Rep() && Inv(k.View())
    modifies k`tcb, k`queue, k`readyPrimap, k`schedtsk, k`runtsk
    modifies k.tm.heap, k.tm`blocks, k.tm`times, k.tm`lastIndex, k.tm`pending
    ensures k.Rep() && Inv(k.View())
    ensures S.Result(k.View(), S.Returns(ercd)) == S.TerTsk(old(k.View()), tskid)
  {
    hide CoreOk, ShapeOk, DispatchOk, Kernel.Rep, Sched, S.Terminate, S.Dispatch;
    ghost var s, best := k.View(), k.schedtsk;
    BestIs(k);
    TerTskKeeps(s, tskid);
    Shaped(s);
    TaskContext(s);
    var ctx := SenseContext(k);
    if ctx {
      return E_CTX;
    }
    var target := GetTcb(k, tskid, false);
    if target == None {
      return E_ID;
    }
    var t := target.value;
    if k.runtsk == Some(t) {
      return E_ILUSE;
    }
    if k.tcb[t].tstat.Dormant() {
      return E_OBJ;
    }
    BestRuns(s);
    TerminateFrame(s, t);
    var d := TerminateOther(k, t);
    DispatchIf(k, d, s, best);
    return E_OK;
  }

  /** When dispatching is possible, a task that calls is the best one. */
  lemma BestRuns(s: State)
    requires Inv(s) && !s.intctx
    ensures CoreOk(s) && ShapeOk(s) && (s.dspflg ==> s.runtsk == Sched(s.queue))
  {
    hide QueuesOk, TimersOk, Sorted, ClockOk, Sched;
  }

  /** chg_pri. */
  method ChgPri(k: Kernel, tskid: int, tskpri: int) returns (ercd: Ercd)
    requires k.Rep() && Inv(k.View())
    modifies k`tcb, k`queue, k`readyPrimap, k`schedtsk, k`runtsk
    ensures k.Rep() && Inv(k.View())
    ensures S.Result(k.View(), S.Returns(ercd)) == S.ChgPri(old(k.View()), tskid, tskpri)
  {
    hide CoreOk, ShapeOk, DispatchOk, Kernel.Rep, Sched, S.ChangePriority, S.Dispatch;
    ghost var s, best := k.View(), k.schedtsk;
    BestIs(k);
    ChgPriKeeps(s, tskid, tskpri);
    Shaped(s);
    TaskContext(s);
    var ctx := SenseContext(k);
    if ctx {
      return E_CTX;
    }
    var target := GetTcb(k, tskid, true);
    if target == None {
      return E_ID;
    }
    if !(0 <= tskpri <= TNUM_TPRI) {
      return E_PAR;
    }
    var t := target.value;
    IpriorityOk(s, t);
    var newpri := if tskpri == 0 then k.cfg.ipriority[t] else tskpri - 1;
    if k.tcb[t].tstat.Dormant() {
      return E_OBJ;
    }
    ChangePriorityFrame(s, t, newpri);
    var d := ChangePriority(k, t, newpri);
    DispatchIf(k, d, s, best);
    return E_OK;
  }
}
