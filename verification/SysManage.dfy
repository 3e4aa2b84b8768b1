/**
 sys_manage.c, chg_ipm of interrupt.c, the flags in call_texrtn of task.c, and the entry
 and exit of interrupt handlers: everything about when dispatching is possible.
 */
module SysManage {
  import opened Common
  import opened KernelState
  import opened KernelRuns
  import opened KernelFacts
  import opened ReadyQueue
  import opened Kernels
  import opened Task
  import opened Waiting
  import opened TaskManage
  import S = KernelSpec

  lemma ReadyNoDup(s: State, pri: nat)
    requires CoreOk(s) && pri < TNUM_TPRI
    ensures Ready(pri) in s.queue && NoDup(s.queue[Ready(pri)])
  {
    hide TimersOk, Sorted, ClockOk;
  }

  /** The ready queue of a priority is rotated. */
  method RotateNow(k: Kernel, pri: nat) returns (d: bool)
    requires k.Rep() && CoreOk(k.View()) && pri < TNUM_TPRI
    modifies k`queue, k`readyPrimap, k`schedtsk
    ensures k.Rep() && k.View() == S.RotateReady(old(k.View()), pri)
    ensures d <==> k.dspflg && k.schedtsk != old(k.schedtsk)
  {
    hide CoreOk, Kernel.Timing, Mirrors, Sched, S.Rotate, PriOk;
    ReadyFacts(k.View());
    ReadyNoDup(k.View(), pri);
    d := RotateReadyQueue(k, pri);
  }

  /** rot_rdq. */
  method RotRdq(k: Kernel, tskpri: int) returns (ercd: Ercd)
    requires k.Rep() && Inv(k.View())
    modifies k`queue, k`readyPrimap, k`schedtsk, k`runtsk
    ensures k.Rep() && Inv(k.View())
    ensures S.Result(k.View(), S.Returns(ercd)) == S.RotRdq(old(k.View()), tskpri)
  {
    hide CoreOk, DispatchOk, Kernel.Rep, Sched, S.Dispatch, S.Rotate;
    ghost var s, best := k.View(), k.schedtsk;
    BestIs(k);
    RotRdqKeeps(s, tskpri);
    TaskContext(s);
    var ctx := SenseContext(k);
    if ctx {
      return E_CTX;
    }
    if !(0 <= tskpri <= TNUM_TPRI) {
      return E_PAR;
    }
    RunningRunnable(s);
    TaskFacts(s, k.runtsk.value);
    var pri := if tskpri == 0 then k.tcb[k.runtsk.value].priority else tskpri - 1;
    var d := RotateNow(k, pri);
    DispatchIf(k, d, s, best);
    return E_OK;
  }

  /** irot_rdq. */
  method IRotRdq(k: Kernel, tskpri: int) returns (ercd: Ercd)
    requires k.Rep() && Inv(k.View())
    modifies k`queue, k`readyPrimap, k`schedtsk, k`reqflg
    ensures k.Rep() && Inv(k.View())
    ensures S.Result(k.View(), S.Returns(ercd)) == S.IRotRdq(old(k.View()), tskpri)
  {
    hide CoreOk, DispatchOk, Kernel.Timing, Mirrors, HasReady, Sched, S.Rotate;
    ghost var s := k.View();
    RotRdqKeeps(s, tskpri);
    if !k.intctx {
      return E_CTX;
    }
    if !(1 <= tskpri <= TNUM_TPRI) {
      return E_PAR;
    }
    ReadyFacts(s);
    ReadyNoDup(s, tskpri - 1);
    var d := RotateReadyQueue(k, tskpri - 1);
    if d {
      k.reqflg := true;
    }
    return E_OK;
  }

  /** dis_dsp. */
  method DisDsp(k: Kernel) returns (ercd: Ercd)
    requires k.Rep() && Inv(k.View())
    modifies k`disdsp, k`dspflg
    ensures k.Rep() && Inv(k.View())
    ensures S.Result(k.View(), S.Returns(ercd)) == S.DisDsp(old(k.View()))
  {
    hide CoreOk, DispatchOk, Kernel.Timing, Mirrors, HasReady, Sched;
    FlagCallsKeep(k.View(), true);
    TaskContext(k.View());
    var ctx := SenseContext(k);
    if ctx {
      return E_CTX;
    }
    k.disdsp := true;
    k.dspflg := false;
    return E_OK;
  }

  /** ena_dsp: a task that has become better meanwhile runs now. */
  method EnaDsp(k: Kernel) returns (ercd: Ercd)
    requires k.Rep() && Inv(k.View())
    modifies k`disdsp, k`dspflg, k`runtsk
    ensures k.Rep() && Inv(k.View())
    ensures S.Result(k.View(), S.Returns(ercd)) == S.EnaDsp(old(k.View()))
  {
    hide CoreOk, Kernel.Timing, Mirrors, HasReady, Sched;
    FlagCallsKeep(k.View(), true);
    TaskContext(k.View());
    var ctx := SenseContext(k);
    if ctx {
      return E_CTX;
    }
    k.disdsp := false;
    if k.ipmflg {
      k.dspflg := true;
      if k.runtsk != k.schedtsk {
        DispatchNow(k);
      }
    }
    return E_OK;
  }

  /** chg_ipm; `ena` says that the new mask is TIPM_ENAALL. */
  method ChgIpm(k: Kernel, ena: bool) returns (ercd: Ercd)
    requires k.Rep() && Inv(k.View())
    modifies k`ipmflg, k`dspflg, k`runtsk
    ensures k.Rep() && Inv(k.View())
    ensures S.Result(k.View(), S.Returns(ercd)) == S.ChgIpm(old(k.View()), ena)
  {
    hide CoreOk, Kernel.Timing, Mirrors, HasReady, Sched;
    FlagCallsKeep(k.View(), ena);
    TaskContext(k.View());
    var ctx := SenseContext(k);
    if ctx {
      return E_CTX;
    }
    if ena {
      k.ipmflg := true;
      if !k.disdsp {
        k.dspflg := true;
        if k.runtsk != k.schedtsk {
          DispatchNow(k);
        }
      }
    } else {
      k.ipmflg := false;
      k.dspflg := false;
    }
    return E_OK;
  }

  /** call_texrtn, from the return of the task exception routine to the dispatch. */
  method TexReturn(k: Kernel, savedDisdsp: bool)
    requires k.Rep() && Inv(k.View()) && S.InTask(k.View())
    modifies k`ipmflg, k`disdsp, k`dspflg, k`runtsk
    ensures k.Rep() && Inv(k.View())
    ensures k.View() == S.TexReturn(old(k.View()), savedDisdsp).s
  {
    hide CoreOk, DispatchOk, Kernel.Timing, Mirrors, HasReady, Sched;
    FlagCallsKeep(k.View(), savedDisdsp);
    if !k.ipmflg {
      k.ipmflg := true;
    }
    k.disdsp := savedDisdsp;
    k.dspflg := !k.disdsp;
    if k.runtsk != k.schedtsk && k.dspflg {
      DispatchNow(k);
    }
  }

  /** The entry of an interrupt handler. */
  method EnterInt(k: Kernel)
    requires k.Rep() && Inv(k.View())
    modifies k`intctx
    ensures k.Rep() && Inv(k.View())
    ensures k.View() == S.EnterInt(old(k.View()))
  {
    hide CoreOk, DispatchOk, Kernel.Timing, Mirrors, HasReady, Sched;
    InterruptKeeps(k.View());
    k.intctx := true;
  }

  /** The exit of the outermost interrupt handler: a requested dispatch is made up for, if
      dispatching is possible. */
  method ExitInt(k: Kernel)
    requires k.Rep() && Inv(k.View()) && k.intctx && !k.ticking
    modifies k`intctx, k`reqflg, k`runtsk
    ensures k.Rep() && Inv(k.View())
    ensures k.View() == S.ExitInt(old(k.View()))
  {
    hide CoreOk, DispatchOk, Kernel.Timing, Mirrors, HasReady, Sched;
    InterruptKeeps(k.View());
    k.intctx := false;
    if k.reqflg {
      k.reqflg := false;
      if k.dspflg && k.runtsk != k.schedtsk {
        DispatchNow(k);
      }
    }
  }
}
