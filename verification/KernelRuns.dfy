/**
 Runs of the kernel: any sequence of service calls from tasks and from interrupt handlers,
 of waits on objects and hand-overs by objects, ticks, timer callbacks and interrupts.
 */
module KernelRuns {
  import opened Common
  import opened HeapLinks
  import opened SystemTime
  import opened KernelState
  import opened KernelSpec
  import opened KernelInv
  import opened Capacity

  datatype Op =
    | OpActTsk(tskid: int) | OpIActTsk(tskid: int) | OpCanAct(tskid: int)
    | OpExtTsk | OpTerTsk(tskid: int) | OpChgPri(tskid: int, tskpri: int)
    | OpTslpTsk(tmout: int) | OpDlyTsk(dlytim: nat)
    | OpWupTsk(tskid: int) | OpIWupTsk(tskid: int) | OpCanWup(tskid: int)
    | OpRelWai(tskid: int) | OpIRelWai(tskid: int) | OpSusTsk(tskid: int) | OpRsmTsk(tskid: int)
    | OpRotRdq(tskpri: int) | OpIRotRdq(tskpri: int)
    | OpDisDsp | OpEnaDsp | OpChgIpm(ena: bool) | OpTexReturn(savedDisdsp: bool)
    | OpStaAlm(almid: int, almtim: nat, fromInt: bool) | OpStpAlm(almid: int, fromInt: bool)
    | OpStaCyc(cycid: int) | OpStpCyc(cycid: int)
    | OpWaitOn(q: QName, wtmout: int) | OpEndWaits(ts: seq<TaskId>, ercd: Ercd) | OpIEndWaits(ts: seq<TaskId>)
    | OpEnterInt | OpExitInt | OpTickStart | OpFire(e: Event) | OpTickEnd

  /** Distinct tasks that wait on objects. */
  ghost predicate AllWaiting(s: State, ts: seq<TaskId>) {
    NoDup(ts) && forall i :: 0 <= i < |ts| ==> ts[i] < |s.tcb| && s.tcb[ts[i]].tstat.waiting && s.tcb[ts[i]].tstat.WaitWobj()
  }

  /** When a step can happen at all. Timeouts are signed numbers no larger than a relative time. */
  ghost predicate Enabled(s: State, op: Op)
    requires s.cfg.time.Ok()
  {
    match op
    case OpTslpTsk(tmout) => tmout <= s.cfg.time.tmax
    case OpWaitOn(q, tmout) => MayWait(s) && q in s.cfg.queues && TMO_FEVR <= tmout <= s.cfg.time.tmax && tmout != TMO_POL
    case OpEndWaits(ts, ercd) => InTask(s) && AllWaiting(s, ts)
    case OpIEndWaits(ts) => s.intctx && AllWaiting(s, ts)
    case OpExitInt => s.intctx && !s.ticking
    case OpTickStart => s.intctx && !s.ticking
    case OpFire(e) => s.ticking && IsTop(s, e)
    case OpTickEnd => s.ticking && forall e :: e in s.pending ==> TickTime(s.cfg.time, s.ticks) < s.pending[e].time
    case _ => true
  }

  function Do(s: State, op: Op): State
    requires ShapeOk(s) && Enabled(s, op)
  {
    match op
    case OpActTsk(tskid) => ActTsk(s, tskid).s
    case OpIActTsk(tskid) => IActTsk(s, tskid).s
    case OpCanAct(tskid) => CanAct(s, tskid).s
    case OpExtTsk => ExtTsk(s).s
    case OpTerTsk(tskid) => TerTsk(s, tskid).s
    case OpChgPri(tskid, tskpri) => ChgPri(s, tskid, tskpri).s
    case OpTslpTsk(tmout) => TslpTsk(s, tmout).s
    case OpDlyTsk(dlytim) => DlyTsk(s, dlytim).s
    case OpWupTsk(tskid) => WupTsk(s, tskid).s
    case OpIWupTsk(tskid) => IWupTsk(s, tskid).s
    case OpCanWup(tskid) => CanWup(s, tskid).s
    case OpRelWai(tskid) => RelWai(s, tskid).s
    case OpIRelWai(tskid) => IRelWai(s, tskid).s
    case OpSusTsk(tskid) => SusTsk(s, tskid).s
    case OpRsmTsk(tskid) => RsmTsk(s, tskid).s
    case OpRotRdq(tskpri) => RotRdq(s, tskpri).s
    case OpIRotRdq(tskpri) => IRotRdq(s, tskpri).s
    case OpDisDsp => DisDsp(s).s
    case OpEnaDsp => EnaDsp(s).s
    case OpChgIpm(ena) => ChgIpm(s, ena).s
    case OpTexReturn(saved) => TexReturn(s, saved).s
    case OpStaAlm(almid, almtim, fromInt) => StaAlm(s, almid, almtim, fromInt).s
    case OpStpAlm(almid, fromInt) => StpAlm(s, almid, fromInt).s
    case OpStaCyc(cycid) => StaCyc(s, cycid).s
    case OpStpCyc(cycid) => StpCyc(s, cycid).s
    case OpWaitOn(q, tmout) => WaitOn(s, q, tmout).s
    case OpEndWaits(ts, ercd) => EndWaits(s, ts, ercd)
    case OpIEndWaits(ts) => IEndWaits(s, ts)
    case OpEnterInt => EnterInt(s)
    case OpExitInt => ExitInt(s)
    case OpTickStart => TickStart(s)
    case OpFire(e) => Fire(s, e)
    case OpTickEnd => TickEnd(s)
  }

  // ----- each step keeps the invariant -----

  lemma ActivateKeeps(s: State, t: TaskId)
    requires Inv(s) && t < |s.tcb|
    ensures InTask(s) ==> Inv(TaskEnd(Activate(s, t)).s)
    ensures s.intctx ==> Inv(IntEnd(s, Activate(s, t)).s)
  {
    hide QueuesOk, Sorted, TimersOk, ClockOk, Sched;
    var r := Activate(s, t);
    if s.tcb[t].tstat.Dormant() {
      MakeActiveKeeps(s, t);
    } else if !s.tcb[t].actque {
      assert TaskOk(s.cfg, t, s.tcb[t]);
      TagKeeps(s, t, s.tcb[t].(actque := true));
    }
    if InTask(s) {
      TaskEndKeeps(r);
    }
    if s.intctx {
      IntEndKeeps(s, r);
    }
  }

  lemma CanActKeeps(s: State, tskid: int)
    requires Inv(s)
    ensures Inv(CanAct(s, tskid).s)
  {
    hide QueuesOk, Sorted, TimersOk, ClockOk;
    if InTask(s) && Target(s, tskid, true).Some? {
      var t := Target(s, tskid, true).value;
      assert TaskOk(s.cfg, t, s.tcb[t]);
      TagKeeps(s, t, s.tcb[t].(actque := false));
    }
  }

  lemma ExtTskKeeps(s: State)
    requires Inv(s)
    ensures Inv(ExtTsk(s).s)
  {
    hide QueuesOk, Sorted, TimersOk, ClockOk, Sched;
    if InTask(s) {
      var s0 := s.(disdsp := false, ipmflg := true, dspflg := true);
      FlagsCore(s, s0);
      TerminateKeeps(s0, s.runtsk.value);
      TaskEndKeeps(Result(Terminate(s0, s.runtsk.value), Blocks));
    }
  }

  /** Flags do not matter to tasks, queues and timers. */
  lemma FlagsCore(s: State, s': State)
    requires CoreOk(s)
    requires s' == s.(disdsp := s'.disdsp, ipmflg := s'.ipmflg, dspflg := s'.dspflg, reqflg := s'.reqflg, runtsk := s'.runtsk)
    ensures CoreOk(s')
  {
    hide QueuesOk, Sorted, TimersOk;
  }

  lemma TerTskKeeps(s: State, tskid: int)
    requires Inv(s)
    ensures Inv(TerTsk(s, tskid).s)
  {
    hide QueuesOk, Sorted, TimersOk, ClockOk, Sched;
    if InTask(s) && Target(s, tskid, false).Some? {
      var t := Target(s, tskid, false).value;
      if Some(t) != s.runtsk && !s.tcb[t].tstat.Dormant() {
        TerminateKeeps(s, t);
        TaskEndKeeps(Result(Terminate(s, t), Returns(E_OK)));
      }
    }
  }

  lemma ChgPriKeeps(s: State, tskid: int, tskpri: int)
    requires Inv(s)
    ensures Inv(ChgPri(s, tskid, tskpri).s)
  {
    hide QueuesOk, Sorted, TimersOk, ClockOk, Sched, ChangePriority;
    if InTask(s) && Target(s, tskid, true).Some? && 0 <= tskpri <= TNUM_TPRI {
      var t := Target(s, tskid, true).value;
      var pri := if tskpri == 0 then s.cfg.ipriority[t] else tskpri - 1;
      if !s.tcb[t].tstat.Dormant() {
        ChangePriorityKeeps(s, t, pri);
        ChangePriorityFrame(s, t, pri);
        TaskEndKeeps(Result(ChangePriority(s, t, pri), Returns(E_OK)));
      }
    }
  }

  /** A change of priority touches one control block and the queues, but no task's state. */
  lemma ChangePriorityFrame(s: State, t: TaskId, pri: nat)
    requires t < |s.tcb|
    ensures var s' := ChangePriority(s, t, pri);
      && s' == s.(tcb := s'.tcb, queue := s'.queue) && |s'.tcb| == |s.tcb|
      && forall u :: 0 <= u < |s.tcb| ==> s'.tcb[u].tstat == s.tcb[u].tstat
  {
    hide Enter, Leave;
  }

  /** Waiting gives the processor away, so only a task that may be preempted may wait. */
  lemma WaitKeeps(s: State, cause: nat, wobj: nat, tmout: Option<nat>)
    requires Inv(s) && MayWait(s)
    requires cause == DLY ==> tmout.Some?
    requires cause == SLP ==> !s.tcb[s.runtsk.value].wupque
    requires cause >= RDTQ ==> Wait(cause, wobj) in s.cfg.queues
    requires tmout.Some? ==> tmout.value <= s.cfg.time.tmax
    ensures Inv(TaskEnd(Result(MakeWait(s, cause, wobj, tmout), Blocks)).s)
  {
    hide QueuesOk, Sorted, TimersOk, ClockOk, Sched;
    MakeWaitKeeps(s, cause, wobj, tmout);
    TaskEndKeeps(Result(MakeWait(s, cause, wobj, tmout), Blocks));
  }

  lemma TslpTskKeeps(s: State, tmout: int)
    requires Inv(s) && tmout <= s.cfg.time.tmax
    ensures Inv(TslpTsk(s, tmout).s)
  {
    hide QueuesOk, Sorted, TimersOk, ClockOk, Sched;
    if MayWait(s) && TMO_FEVR <= tmout {
      var t := s.runtsk.value;
      assert TaskOk(s.cfg, t, s.tcb[t]);
      if s.tcb[t].wupque {
        TagKeeps(s, t, s.tcb[t].(wupque := false));
      } else if tmout != TMO_POL {
        WaitKeeps(s, SLP, s.tcb[t].wobj, if tmout > 0 then Some(tmout) else None);
      }
    }
  }

  lemma DlyTskKeeps(s: State, dlytim: nat)
    requires Inv(s)
    ensures Inv(DlyTsk(s, dlytim).s)
  {
    hide QueuesOk, Sorted, TimersOk, ClockOk, Sched;
    if MayWait(s) && dlytim <= s.cfg.time.tmax {
      WaitKeeps(s, DLY, s.tcb[s.runtsk.value].wobj, Some(dlytim));
    }
  }

  lemma WakeupKeeps(s: State, t: TaskId)
    requires Inv(s) && t < |s.tcb|
    ensures InTask(s) ==> Inv(TaskEnd(Wakeup(s, t)).s)
    ensures s.intctx ==> Inv(IntEnd(s, Wakeup(s, t)).s)
  {
    hide QueuesOk, Sorted, TimersOk, ClockOk, Sched;
    var r := Wakeup(s, t);
    var c := s.tcb[t];
    assert TaskOk(s.cfg, t, c);
    if c.tstat.WaitSlp() {
      ReleaseKeeps(s, t, E_OK);
    } else if !c.tstat.Dormant() && !c.wupque {
      TagKeeps(s, t, c.(wupque := true));
    }
    if InTask(s) {
      TaskEndKeeps(r);
    }
    if s.intctx {
      IntEndKeeps(s, r);
    }
  }

  lemma CanWupKeeps(s: State, tskid: int)
    requires Inv(s)
    ensures Inv(CanWup(s, tskid).s)
  {
    hide QueuesOk, Sorted, TimersOk, ClockOk;
    if InTask(s) && Target(s, tskid, true).Some? {
      var t := Target(s, tskid, true).value;
      assert TaskOk(s.cfg, t, s.tcb[t]);
      TagKeeps(s, t, s.tcb[t].(wupque := false));
    }
  }

  lemma BreakWaitKeeps(s: State, t: TaskId)
    requires Inv(s) && t < |s.tcb|
    ensures InTask(s) ==> Inv(TaskEnd(BreakWait(s, t)).s)
    ensures s.intctx ==> Inv(IntEnd(s, BreakWait(s, t)).s)
  {
    hide QueuesOk, Sorted, TimersOk, ClockOk, Sched;
    var r := BreakWait(s, t);
    assert TaskOk(s.cfg, t, s.tcb[t]);
    if s.tcb[t].tstat.waiting {
      ReleaseKeeps(s, t, E_RLWAI);
    }
    if InTask(s) {
      TaskEndKeeps(r);
    }
    if s.intctx {
      IntEndKeeps(s, r);
    }
  }

  lemma SusTskKeeps(s: State, tskid: int)
    requires Inv(s)
    ensures Inv(SusTsk(s, tskid).s)
  {
    hide QueuesOk, Sorted, TimersOk, ClockOk, Sched;
    if InTask(s) && Target(s, tskid, true).Some? {
      var t := Target(s, tskid, true).value;
      var c := s.tcb[t];
      assert TaskOk(s.cfg, t, c);
      if Some(t) == s.runtsk && !s.dspflg {
      } else if c.tstat.runnable {
        PlainMoveKeeps(s, t, c.(tstat := TS_SUSPENDED));
        TaskEndKeeps(Result(Rehome(s, t, c.(tstat := TS_SUSPENDED)), Returns(E_OK)));
      } else if c.tstat.waiting {
        TagKeeps(s, t, c.(tstat := c.tstat.(suspended := true)));
      }
    }
  }

  lemma RsmTskKeeps(s: State, tskid: int)
    requires Inv(s)
    ensures Inv(RsmTsk(s, tskid).s)
  {
    hide QueuesOk, Sorted, TimersOk, ClockOk, Sched;
    if InTask(s) && Target(s, tskid, false).Some? {
      var t := Target(s, tskid, false).value;
      var c := s.tcb[t];
      assert TaskOk(s.cfg, t, c);
      if c.tstat.suspended && !c.tstat.waiting {
        PlainMoveKeeps(s, t, c.(tstat := TS_RUNNABLE));
        TaskEndKeeps(Result(Rehome(s, t, c.(tstat := TS_RUNNABLE)), Returns(E_OK)));
      } else if c.tstat.suspended {
        TagKeeps(s, t, c.(tstat := c.tstat.(suspended := false)));
      }
    }
  }

  lemma RotateReadyKeeps(s: State, pri: nat)
    requires Inv(s)
    ensures InTask(s) ==> Inv(TaskEnd(Result(RotateReady(s, pri), Returns(E_OK))).s)
    ensures s.intctx ==> Inv(IntEnd(s, Result(RotateReady(s, pri), Returns(E_OK))).s)
  {
    hide QueuesOk, Sorted, TimersOk, ClockOk, Sched;
    RotateKeeps(s, pri);
    if InTask(s) {
      TaskEndKeeps(Result(RotateReady(s, pri), Returns(E_OK)));
    }
    if s.intctx {
      IntEndKeeps(s, Result(RotateReady(s, pri), Returns(E_OK)));
    }
  }

  lemma RotRdqKeeps(s: State, tskpri: int)
    requires Inv(s)
    ensures Inv(RotRdq(s, tskpri).s) && Inv(IRotRdq(s, tskpri).s)
  {
    hide CoreOk, DispatchOk;
    if InTask(s) && 0 <= tskpri <= TNUM_TPRI {
      RotateReadyKeeps(s, if tskpri == 0 then s.tcb[s.runtsk.value].priority else tskpri - 1);
    }
    if s.intctx && 1 <= tskpri <= TNUM_TPRI {
      RotateReadyKeeps(s, tskpri - 1);
    }
  }

  /** dis_dsp, ena_dsp, chg_ipm and the return of a task exception routine. */
  lemma FlagCallsKeep(s: State, b: bool)
    requires Inv(s)
    ensures Inv(DisDsp(s).s) && Inv(EnaDsp(s).s) && Inv(ChgIpm(s, b).s) && Inv(TexReturn(s, b).s)
  {
    hide QueuesOk, Sorted, TimersOk, ClockOk, Sched;
    if InTask(s) {
      var s1 := s.(disdsp := true, dspflg := false);
      var s2 := s.(disdsp := false, dspflg := s.ipmflg);
      var s3 := s.(ipmflg := b, dspflg := b && !s.disdsp);
      var s4 := s.(ipmflg := true, disdsp := b, dspflg := !b);
      FlagsCore(s, s1);
      FlagsCore(s, s2);
      FlagsCore(s, s3);
      FlagsCore(s, s4);
      TaskEndKeeps(Result(s2, Returns(E_OK)));
      TaskEndKeeps(Result(s3, Returns(E_OK)));
      TaskEndKeeps(Result(s4, Returns(E_OK)));
    }
  }

  lemma StartAlarmKeeps(s: State, a: nat, almtim: nat)
    requires CoreOk(s) && a < |s.alm| && almtim <= s.cfg.time.tmax
    ensures CoreOk(StartAlarm(s, a, almtim))
  {
    hide QueuesOk, Sorted, ClockOk;
    BaseBounds(s.cfg.time, s.ticks);
    HandlerKeeps(s, StartAlarm(s, a, almtim), AlmTimer(a));
  }

  lemma StopAlarmKeeps(s: State, a: nat)
    requires CoreOk(s) && a < |s.alm|
    ensures CoreOk(StopAlarm(s, a))
  {
    hide QueuesOk, Sorted, ClockOk;
    HandlerKeeps(s, StopAlarm(s, a), AlmTimer(a));
  }

  lemma AlarmCallsKeep(s: State, almid: int, almtim: nat, fromInt: bool)
    requires Inv(s)
    ensures Inv(StaAlm(s, almid, almtim, fromInt).s) && Inv(StpAlm(s, almid, fromInt).s)
  {
    hide QueuesOk, Sorted, TimersOk, ClockOk, Sched;
    if 1 <= almid <= |s.alm| {
      StopAlarmKeeps(s, almid - 1);
      if almtim <= s.cfg.time.tmax {
        StartAlarmKeeps(s, almid - 1, almtim);
      }
    }
  }

  lemma CyclicCallsKeep(s: State, cycid: int)
    requires Inv(s)
    ensures Inv(StaCyc(s, cycid).s) && Inv(StpCyc(s, cycid).s)
  {
    hide QueuesOk, Sorted, ClockOk, Sched;
    if InTask(s) && 1 <= cycid <= |s.cyc| {
      BaseBounds(s.cfg.time, s.ticks);
      HandlerKeeps(s, StaCyc(s, cycid).s, CycTimer(cycid - 1));
      HandlerKeeps(s, StpCyc(s, cycid).s, CycTimer(cycid - 1));
    }
  }

  /** Ending several waits: those not reached yet still wait. */
  lemma {:induction false} ReleaseAllKeeps(s: State, ts: seq<TaskId>, ercd: Ercd)
    requires CoreOk(s) && AllWaiting(s, ts)
    ensures AllTasks(ts, |s.tcb|)
    ensures var s' := ReleaseAll(s, ts, ercd);
      && CoreOk(s')
      && s' == s.(tcb := s'.tcb, queue := s'.queue, pending := s'.pending)
      && |s'.tcb| == |s.tcb|
      && forall t :: 0 <= t < |s.tcb| && s.tcb[t].tstat.runnable ==> s'.tcb[t].tstat.runnable
    decreases |ts|
  {
    hide QueuesOk, Sorted, TimersOk, ClockOk;
    if ts != [] {
      var s1 := Release(s, ts[0], ercd);
      ReleaseKeeps(s, ts[0], ercd);
      assert AllWaiting(s1, ts[1..]) by {
        assert forall i :: 0 <= i < |ts[1..]| ==> ts[1..][i] == ts[i + 1];
      }
      ReleaseAllKeeps(s1, ts[1..], ercd);
      assert TaskOk(s.cfg, ts[0], s.tcb[ts[0]]);
    }
  }

  lemma EndWaitsKeeps(s: State, ts: seq<TaskId>, ercd: Ercd)
    requires Inv(s) && InTask(s) && AllWaiting(s, ts)
    ensures Inv(EndWaits(s, ts, ercd))
  {
    hide QueuesOk, Sorted, TimersOk, ClockOk, Sched, ReleaseAll;
    ReleaseAllKeeps(s, ts, ercd);
    TaskEndKeeps(Result(ReleaseAll(s, ts, ercd), Returns(E_OK)));
  }

  lemma IntReleaseKeeps(s: State, t: TaskId, ercd: Ercd)
    requires Inv(s) && s.intctx && t < |s.tcb| && s.tcb[t].tstat.waiting
    ensures Inv(IntEnd(s, Result(Release(s, t, ercd), Returns(E_OK))).s)
  {
    hide QueuesOk, Sorted, TimersOk, ClockOk, Sched;
    ReleaseKeeps(s, t, ercd);
    assert TaskOk(s.cfg, t, s.tcb[t]);
    IntEndKeeps(s, Result(Release(s, t, ercd), Returns(E_OK)));
  }

  lemma {:induction false} IEndWaitsKeeps(s: State, ts: seq<TaskId>)
    requires Inv(s) && s.intctx && AllWaiting(s, ts)
    ensures AllTasks(ts, |s.tcb|) && Inv(IEndWaits(s, ts))
    decreases |ts|
  {
    hide QueuesOk, Sorted, TimersOk, ClockOk, Sched;
    if ts != [] {
      var s1 := IntEnd(s, Result(Release(s, ts[0], E_OK), Returns(E_OK))).s;
      IntReleaseKeeps(s, ts[0], E_OK);
      assert AllWaiting(s1, ts[1..]) by {
        assert forall i :: 0 <= i < |ts[1..]| ==> ts[1..][i] == ts[i + 1];
      }
      IEndWaitsKeeps(s1, ts[1..]);
    }
  }

  lemma InterruptKeeps(s: State)
    requires Inv(s)
    ensures Inv(EnterInt(s))
    ensures s.intctx && !s.ticking ==> Inv(ExitInt(s))
  {
    hide QueuesOk, Sorted, TimersOk, Sched;
    if s.intctx && !s.ticking {
      var s' := s.(intctx := false, reqflg := false);
      TaskEndKeeps(Result(s', Returns(E_OK)));
      assert !s.reqflg ==> Dispatch(s') == s';
    }
  }

  lemma TickStartKeeps(s: State)
    requires Inv(s) && s.intctx && !s.ticking
    ensures Inv(TickStart(s))
  {
    hide QueuesOk, Sorted, TimersOk, Sched;
    BaseBounds(s.cfg.time, s.ticks);
    BaseBounds(s.cfg.time, s.ticks + 1);
  }

  lemma TickEndKeeps(s: State)
    requires Inv(s) && s.ticking && forall e :: e in s.pending ==> TickTime(s.cfg.time, s.ticks) < s.pending[e].time
    ensures Inv(TickEnd(s))
  {
    hide QueuesOk, Sorted, TimersOk, Sched;
  }

  lemma FireKeeps(s: State, e: Event)
    requires Inv(s) && s.ticking && IsTop(s, e)
    ensures Inv(Fire(s, e))
  {
    hide QueuesOk, Sorted, Sched;
    assert Armed(s.tcb, s.cyc, s.alm, e);
    match e
    case TaskTimer(t) =>
      hide TimersOk, ClockOk;
      IntReleaseKeeps(s, t, if s.tcb[t].tstat.cause == DLY then E_OK else E_TMOUT);
    case CycTimer(c) =>
      BaseBounds(s.cfg.time, s.ticks);
      hide ClockOk;
      HandlerKeeps(s, Fire(s, e), e);
    case AlmTimer(a) =>
      hide ClockOk;
      StopAlarmKeeps(s, a);
  }

  lemma InvShape(s: State)
    requires Inv(s)
    ensures ShapeOk(s) && s.cfg.time.Ok()
  {
    hide QueuesOk, TimersOk, Sorted, ClockOk, DispatchOk, QueueNames;
  }

  /** Is it a call that manages or synchronises tasks? */
  predicate TaskCall(op: Op) {
    op.OpActTsk? || op.OpIActTsk? || op.OpCanAct? || op.OpExtTsk? || op.OpTerTsk? || op.OpChgPri? || op.OpTslpTsk? || op.OpDlyTsk?
    || op.OpWupTsk? || op.OpIWupTsk? || op.OpCanWup? || op.OpRelWai? || op.OpIRelWai? || op.OpSusTsk? || op.OpRsmTsk?
  }

  /** Every step keeps the invariant. */
  lemma StepKeeps(s: State, op: Op)
    requires Inv(s) && Enabled(s, op)
    ensures Inv(Do(s, op))
  {
    hide Inv, Enabled, Do;
    if TaskCall(op) {
      TaskCallKeeps(s, op);
    } else {
      OtherStepKeeps(s, op);
    }
  }

  lemma TaskCallKeeps(s: State, op: Op)
    requires Inv(s) && Enabled(s, op) && TaskCall(op)
    ensures Inv(Do(s, op))
  {
    hide Inv, ShapeOk, IsTop, AllWaiting;
    InvShape(s);
    hide Enabled, ActTsk, IActTsk, CanAct, ExtTsk, TerTsk, ChgPri;
    match op
    case OpActTsk(tskid) => ActCallsKeep(s, tskid);
    case OpIActTsk(tskid) => ActCallsKeep(s, tskid);
    case OpCanAct(tskid) => CanActKeeps(s, tskid);
    case OpExtTsk => ExtTskKeeps(s);
    case OpTerTsk(tskid) => TerTskKeeps(s, tskid);
    case OpChgPri(tskid, tskpri) => ChgPriKeeps(s, tskid, tskpri);
    case _ => SyncCallKeeps(s, op);
  }

  lemma SyncCallKeeps(s: State, op: Op)
    requires Inv(s) && Enabled(s, op)
    requires op.OpTslpTsk? || op.OpDlyTsk? || op.OpWupTsk? || op.OpIWupTsk? || op.OpCanWup? || op.OpRelWai? || op.OpIRelWai?
      || op.OpSusTsk? || op.OpRsmTsk?
    ensures Inv(Do(s, op))
  {
    hide Inv, ShapeOk, IsTop, AllWaiting;
    InvShape(s);
    hide TslpTsk, DlyTsk, WupTsk, IWupTsk, CanWup, RelWai, IRelWai, SusTsk, RsmTsk;
    match op
    case OpTslpTsk(tmout) => TslpTskKeeps(s, tmout);
    case OpDlyTsk(dlytim) => DlyTskKeeps(s, dlytim);
    case OpWupTsk(tskid) => WupCallsKeep(s, tskid);
    case OpIWupTsk(tskid) => WupCallsKeep(s, tskid);
    case OpCanWup(tskid) => CanWupKeeps(s, tskid);
    case OpRelWai(tskid) => RelWaiCallsKeep(s, tskid);
    case OpIRelWai(tskid) => RelWaiCallsKeep(s, tskid);
    case OpSusTsk(tskid) => SusTskKeeps(s, tskid);
    case OpRsmTsk(tskid) => RsmTskKeeps(s, tskid);
  }

  lemma OtherStepKeeps(s: State, op: Op)
    requires Inv(s) && Enabled(s, op) && !TaskCall(op)
    ensures Inv(Do(s, op))
  {
    hide Inv, ShapeOk, IsTop, AllWaiting;
    InvShape(s);
    hide DisDsp, EnaDsp, ChgIpm, TexReturn, StaAlm, StpAlm, StaCyc, StpCyc, RotRdq, IRotRdq, WaitOn, EndWaits, IEndWaits, EnterInt, ExitInt;
    hide TickStart, Fire, TickEnd;
    match op
    case OpRotRdq(tskpri) => RotRdqKeeps(s, tskpri);
    case OpIRotRdq(tskpri) => RotRdqKeeps(s, tskpri);
    case OpDisDsp => FlagCallsKeep(s, true);
    case OpEnaDsp => FlagCallsKeep(s, true);
    case OpChgIpm(ena) => FlagCallsKeep(s, ena);
    case OpTexReturn(saved) => FlagCallsKeep(s, saved);
    case OpStaAlm(almid, almtim, fromInt) => AlarmCallsKeep(s, almid, almtim, fromInt);
    case OpStpAlm(almid, fromInt) => AlarmCallsKeep(s, almid, 0, fromInt);
    case OpStaCyc(cycid) => CyclicCallsKeep(s, cycid);
    case OpStpCyc(cycid) => CyclicCallsKeep(s, cycid);
    case OpWaitOn(q, tmout) => WaitOnKeeps(s, q, tmout);
    case OpEndWaits(ts, ercd) => EndWaitsKeeps(s, ts, ercd);
    case OpIEndWaits(ts) => IEndWaitsKeeps(s, ts);
    case OpEnterInt => InterruptKeeps(s);
    case OpExitInt => InterruptKeeps(s);
    case OpTickStart => TickStartKeeps(s);
    case OpFire(e) => FireKeeps(s, e);
    case OpTickEnd => TickEndKeeps(s);
  }

  // The calls that come in a task and an interrupt variant.

  lemma ActCallsKeep(s: State, tskid: int)
    requires Inv(s)
    ensures Inv(ActTsk(s, tskid).s) && Inv(IActTsk(s, tskid).s)
  {
    hide CoreOk, DispatchOk, Activate;
    if InTask(s) && Target(s, tskid, true).Some? {
      ActivateKeeps(s, Target(s, tskid, true).value);
    }
    if Target(s, tskid, false).Some? {
      ActivateKeeps(s, Target(s, tskid, false).value);
    }
  }

  lemma WupCallsKeep(s: State, tskid: int)
    requires Inv(s)
    ensures Inv(WupTsk(s, tskid).s) && Inv(IWupTsk(s, tskid).s)
  {
    hide CoreOk, DispatchOk, Wakeup;
    if InTask(s) && Target(s, tskid, true).Some? {
      WakeupKeeps(s, Target(s, tskid, true).value);
    }
    if Target(s, tskid, false).Some? {
      WakeupKeeps(s, Target(s, tskid, false).value);
    }
  }

  lemma RelWaiCallsKeep(s: State, tskid: int)
    requires Inv(s)
    ensures Inv(RelWai(s, tskid).s) && Inv(IRelWai(s, tskid).s)
  {
    hide CoreOk, DispatchOk, BreakWait;
    if Target(s, tskid, false).Some? {
      BreakWaitKeeps(s, Target(s, tskid, false).value);
    }
  }

  lemma WaitOnKeeps(s: State, q: QName, tmout: int)
    requires Inv(s) && MayWait(s) && q in s.cfg.queues && TMO_FEVR <= tmout <= s.cfg.time.tmax && tmout != TMO_POL
    ensures q.Wait? && Inv(WaitOn(s, q, tmout).s)
  {
    hide QueuesOk, Sorted, TimersOk, ClockOk, Sched;
    WaitKeeps(s, q.cause, q.id, if tmout > 0 then Some(tmout) else None);
  }

  // ----- start-up -----

  /** Before any task is activated. `sta` says which cyclic handlers start at once (TA_STA). */
  function Empty(cfg: Config, sta: seq<bool>): State
    requires cfg.time.Ok() && |sta| == |cfg.cycphs|
  {
    State(cfg,
          seq(|cfg.ipriority|, t requires 0 <= t < |cfg.ipriority| =>
            Tcb(TS_DORMANT, cfg.ipriority[t], false, false, Wercd(E_OK), 0)),
          map q | q in QueueNames(cfg) :: [],
          sta, seq(cfg.nalm, _ => false),
          map c: nat | c < |sta| && sta[c] :: CycTimer(c) := Pending(cfg.cycphs[c], CallCychdr(c)),
          0, 0, false, None, false, true, false, true, false)
  }

  /** initialize_task: the tasks with TA_ACT are activated, in the order of torder_table. */
  function ActivateAll(s: State, torder: seq<TaskId>, act: set<TaskId>): State
    requires AllTasks(torder, |s.tcb|)
    decreases |torder|
  {
    if torder == [] then s
    else ActivateAll(if torder[0] in act then MakeActive(s, torder[0]) else s, torder[1..], act)
  }

  /** The state in which the first task starts. */
  function Boot(cfg: Config, torder: seq<TaskId>, act: set<TaskId>, sta: seq<bool>): State
    requires cfg.time.Ok() && |sta| == |cfg.cycphs| && AllTasks(torder, |cfg.ipriority|)
  {
    Dispatch(ActivateAll(Empty(cfg, sta), torder, act))
  }

  lemma EmptyOk(cfg: Config, sta: seq<bool>)
    requires cfg.Ok() && |sta| == |cfg.cycphs|
    ensures CoreOk(Empty(cfg, sta))
  {
    var s := Empty(cfg, sta);
    FirstTicks(cfg.time);
    BaseBounds(cfg.time, 0);
    forall q
      ensures q in s.queue <==> (q.Ready? && q.pri < TNUM_TPRI) || q in cfg.queues
    {
    }
    forall e
      ensures e in s.pending <==> Armed(s.tcb, s.cyc, s.alm, e)
    {
    }
  }

  lemma {:induction false} ActivateAllKeeps(s: State, torder: seq<TaskId>, act: set<TaskId>)
    requires CoreOk(s) && AllTasks(torder, |s.tcb|) && NoDup(torder)
    requires forall t :: t in torder ==> s.tcb[t].tstat.Dormant()
    ensures var s' := ActivateAll(s, torder, act);
      CoreOk(s') && s' == s.(tcb := s'.tcb, queue := s'.queue)
    decreases |torder|
  {
    hide QueuesOk, Sorted, TimersOk, ClockOk;
    if torder != [] {
      var t := torder[0];
      var s1 := if t in act then MakeActive(s, t) else s;
      MakeActiveKeeps(s, t);
      assert forall x :: x in torder[1..] ==> x in torder && x != t;
      ActivateAllKeeps(s1, torder[1..], act);
    }
  }

  lemma BootOk(cfg: Config, torder: seq<TaskId>, act: set<TaskId>, sta: seq<bool>)
    requires cfg.Ok() && |sta| == |cfg.cycphs| && AllTasks(torder, |cfg.ipriority|) && NoDup(torder)
    ensures Inv(Boot(cfg, torder, act, sta))
  {
    hide QueuesOk, Sorted, TimersOk, ClockOk, Sched;
    EmptyOk(cfg, sta);
    var s := Empty(cfg, sta);
    ActivateAllKeeps(s, torder, act);
    TaskEndKeeps(Result(ActivateAll(s, torder, act), Blocks));
  }

  /** The tasks with TA_ACT and the priority `p`, in the order of torder_table. */
  function ToStart(torder: seq<TaskId>, act: set<TaskId>, tcb: seq<Tcb>, p: nat): seq<TaskId>
    requires AllTasks(torder, |tcb|)
    decreases |torder|
  {
    if torder == [] then []
    else (if torder[0] in act && tcb[torder[0]].priority == p then [torder[0]] else []) + ToStart(torder[1..], act, tcb, p)
  }

  lemma {:induction false} SameToStart(torder: seq<TaskId>, act: set<TaskId>, tcb: seq<Tcb>, tcb': seq<Tcb>, p: nat)
    requires AllTasks(torder, |tcb|) && |tcb| == |tcb'| && forall t: nat :: t < |tcb| ==> tcb'[t].priority == tcb[t].priority
    ensures ToStart(torder, act, tcb, p) == ToStart(torder, act, tcb', p)
    decreases |torder|
  {
    if torder != [] {
      SameToStart(torder[1..], act, tcb, tcb', p);
    }
  }

  lemma StartOne(s: State, t: TaskId, p: nat)
    requires CoreOk(s) && t < |s.tcb| && s.tcb[t].tstat.Dormant() && p < TNUM_TPRI
    ensures var s' := MakeActive(s, t);
      && s'.tcb == s.tcb[t := s.tcb[t].(tstat := TS_RUNNABLE)]
      && Ready(p) in s.queue && Ready(p) in s'.queue
      && s'.queue[Ready(p)] == s.queue[Ready(p)] + if p == s.tcb[t].priority then [t] else []
  {
    hide QueuesOk, TimersOk, Sorted, ClockOk;
    assert TaskOk(s.cfg, t, s.tcb[t]);
  }

  lemma MakeActiveTcb(s: State, t: TaskId)
    requires t < |s.tcb|
    ensures MakeActive(s, t).tcb == s.tcb[t := s.tcb[t].(tstat := TS_RUNNABLE)]
  {
    hide Enter, Leave;
  }

  /** initialize_task, task by task. */
  lemma {:induction false} AllStarted(s: State, torder: seq<TaskId>, act: set<TaskId>)
    requires AllTasks(torder, |s.tcb|) && NoDup(torder)
    ensures var s' := ActivateAll(s, torder, act);
      && |s'.tcb| == |s.tcb|
      && forall t: nat :: t < |s.tcb| ==>
        s'.tcb[t] == if t in torder && t in act then s.tcb[t].(tstat := TS_RUNNABLE) else s.tcb[t]
    decreases |torder|
  {
    hide MakeActive;
    if torder != [] {
      var t := torder[0];
      MakeActiveTcb(s, t);
      assert forall x :: x in torder <==> x == t || x in torder[1..];
      assert t !in torder[1..];
      AllStarted(if t in act then MakeActive(s, t) else s, torder[1..], act);
    }
  }

  /** The first task of torder_table, and what is left to do after it. */
  lemma OneQueued(s: State, torder: seq<TaskId>, act: set<TaskId>, p: nat)
    requires CoreOk(s) && torder != [] && AllTasks(torder, |s.tcb|) && NoDup(torder) && p < TNUM_TPRI
    requires forall t :: t in torder ==> s.tcb[t].tstat.Dormant()
    ensures var s1 := if torder[0] in act then MakeActive(s, torder[0]) else s;
      && CoreOk(s1) && |s1.tcb| == |s.tcb| && NoDup(torder[1..]) && AllTasks(torder[1..], |s.tcb|)
      && (forall t :: t in torder[1..] ==> s1.tcb[t].tstat.Dormant())
      && Ready(p) in s.queue && Ready(p) in s1.queue
      && s1.queue[Ready(p)] + ToStart(torder[1..], act, s1.tcb, p) == s.queue[Ready(p)] + ToStart(torder, act, s.tcb, p)
  {
    hide CoreOk, MakeActive, NoDup, AllTasks, ToStart;
    var t := torder[0];
    TailOf(torder, |s.tcb|);
    ReadyThere(s, p);
    FirstToStart(torder, act, s.tcb, p);
    if t in act {
      MakeActiveKeeps(s, t);
      StartOne(s, t, p);
      var s1 := MakeActive(s, t);
      SameToStart(torder[1..], act, s.tcb, s1.tcb, p);
    }
  }

  lemma FirstToStart(torder: seq<TaskId>, act: set<TaskId>, tcb: seq<Tcb>, p: nat)
    requires torder != [] && AllTasks(torder, |tcb|)
    ensures torder[0] < |tcb| && AllTasks(torder[1..], |tcb|)
    ensures var first := if torder[0] in act && tcb[torder[0]].priority == p then [torder[0]] else [];
      forall q: seq<TaskId> :: q + ToStart(torder, act, tcb, p) == (q + first) + ToStart(torder[1..], act, tcb, p)
  {
  }

  lemma TailOf(torder: seq<TaskId>, n: nat)
    requires torder != [] && AllTasks(torder, n) && NoDup(torder)
    ensures AllTasks(torder[1..], n) && NoDup(torder[1..]) && torder[0] < n && torder[0] !in torder[1..]
    ensures forall t :: t in torder[1..] ==> t in torder && t < n
  {
  }

  /** The same, one ready queue at a time. */
  lemma {:induction false} AllQueued(s: State, torder: seq<TaskId>, act: set<TaskId>, p: nat)
    requires CoreOk(s) && AllTasks(torder, |s.tcb|) && NoDup(torder) && p < TNUM_TPRI
    requires forall t :: t in torder ==> s.tcb[t].tstat.Dormant()
    ensures var s' := ActivateAll(s, torder, act);
      && Ready(p) in s.queue && Ready(p) in s'.queue
      && s'.queue[Ready(p)] == s.queue[Ready(p)] + ToStart(torder, act, s.tcb, p)
    decreases |torder|
  {
    hide CoreOk, MakeActive, NoDup;
    ReadyThere(s, p);
    if torder != [] {
      OneQueued(s, torder, act, p);
      AllQueued(if torder[0] in act then MakeActive(s, torder[0]) else s, torder[1..], act, p);
    }
  }

  lemma ReadyThere(s: State, p: nat)
    requires CoreOk(s) && p < TNUM_TPRI
    ensures Ready(p) in s.queue
  {
    hide QueuesOk, TimersOk, Sorted, ClockOk;
  }

  /** The state in which the first task starts: exactly the tasks with TA_ACT are runnable, those of
      the same priority in the order of torder_table, and the others dormant; each task has its
      initial priority and no requests; exactly the cyclic handlers with TA_STA are on. */
  lemma BootIs(cfg: Config, torder: seq<TaskId>, act: set<TaskId>, sta: seq<bool>)
    requires cfg.Ok() && |sta| == |cfg.cycphs| && AllTasks(torder, |cfg.ipriority|) && NoDup(torder)
    ensures var s := Boot(cfg, torder, act, sta);
      && |s.tcb| == |cfg.ipriority|
      && (forall t: nat :: t < |s.tcb| ==>
        s.tcb[t] == Tcb(if t in torder && t in act then TS_RUNNABLE else TS_DORMANT, cfg.ipriority[t], false, false, Wercd(E_OK), 0))
      && (forall p: nat :: p < TNUM_TPRI ==> Ready(p) in s.queue && s.queue[Ready(p)] == ToStart(torder, act, s.tcb, p))
      && s.cyc == sta && s.alm == seq(cfg.nalm, _ => false)
      && (forall e :: e in s.pending <==> e.CycTimer? && e.cyc < |sta| && sta[e.cyc])
      && (forall e :: e in s.pending ==> s.pending[e].time == cfg.cycphs[e.cyc])
      && s.ipmflg && !s.disdsp && !s.intctx && s.ticks == 0 && s.runtsk == Sched(s.queue)
  {
    hide QueuesOk, TimersOk, Sorted, ClockOk, Sched;
    EmptyOk(cfg, sta);
    var s := Empty(cfg, sta);
    AllStarted(s, torder, act);
    ActivateAllKeeps(s, torder, act);
    var s' := ActivateAll(s, torder, act);
    forall p: nat | p < TNUM_TPRI
      ensures Ready(p) in s'.queue && s'.queue[Ready(p)] == ToStart(torder, act, s'.tcb, p)
    {
      AllQueued(s, torder, act, p);
      SameToStart(torder, act, s.tcb, s'.tcb, p);
    }
  }

  // ----- runs -----

  /** The steps `ops` lead from `s` to `s'`. */
  ghost predicate Run(s: State, ops: seq<Op>, s': State)
    decreases |ops|
  {
    if ops == [] then s == s'
    else ShapeOk(s) && Enabled(s, ops[0]) && Run(Do(s, ops[0]), ops[1..], s')
  }

  lemma {:induction false} RunKeeps(s: State, ops: seq<Op>, s': State)
    requires Inv(s) && Run(s, ops, s')
    ensures Inv(s')
    decreases |ops|
  {
    hide CoreOk, DispatchOk, Do, Enabled;
    if ops != [] {
      StepKeeps(s, ops[0]);
      RunKeeps(Do(s, ops[0]), ops[1..], s');
    }
  }

  /** In every state that any run reaches from start-up:
      each task is linked in exactly the queue its state says, once, and nowhere else;
      outside interrupt handlers the best task runs whenever dispatching is possible, and
      inside them a dispatch is requested when it no longer does;
      priority-ordered wait queues are sorted;
      exactly the waiting tasks with a timeout and the running handlers have a time event,
      so that there are never more time events than tasks and handlers;
      between ticks none of them is due. */
  lemma ReachableStates(cfg: Config, torder: seq<TaskId>, act: set<TaskId>, sta: seq<bool>, ops: seq<Op>, s: State)
    requires cfg.Ok() && |sta| == |cfg.cycphs| && AllTasks(torder, |cfg.ipriority|) && NoDup(torder)
    requires Run(Boot(cfg, torder, act, sta), ops, s)
    ensures forall q, t: nat :: q in s.queue && t < |s.tcb| ==> (t in s.queue[q] <==> Home(s.tcb[t]) == Some(q))
    ensures forall q :: q in s.queue ==> NoDup(s.queue[q])
    ensures forall t: nat :: t < |s.tcb| ==> var c := s.tcb[t];
      && !(c.tstat.runnable && (c.tstat.waiting || c.tstat.suspended))
      && (c.tstat.Dormant() ==> !c.actque && !c.wupque)
      && (c.tstat.waiting && c.tstat.WaitSlp() ==> !c.wupque)
    ensures s.dspflg <==> s.ipmflg && !s.disdsp
    ensures !s.intctx && s.dspflg ==> s.runtsk == Sched(s.queue)
    ensures s.intctx && s.dspflg && s.runtsk != Sched(s.queue) ==> s.reqflg
    ensures s.runtsk.Some? ==> s.runtsk.value < |s.tcb| && s.tcb[s.runtsk.value].tstat.runnable
    ensures forall q :: q in s.cfg.tpri ==> q in s.queue && Sorted(s.queue[q], s.tcb)
    ensures forall e :: e in s.pending <==> Armed(s.tcb, s.cyc, s.alm, e)
    ensures |s.pending| <= |s.tcb| + |s.cyc| + |s.alm|
    ensures forall e :: e in s.pending && !s.ticking && s.ticks > 0 ==>
      s.cfg.time.Ok() && TickTime(s.cfg.time, s.ticks) < s.pending[e].time
  {
    BootOk(cfg, torder, act, sta);
    RunKeeps(Boot(cfg, torder, act, sta), ops, s);
    FewTimers(s.tcb, s.cyc, s.alm, s.pending);
    forall t: nat | t < |s.tcb|
      ensures var c := s.tcb[t];
        && !(c.tstat.runnable && (c.tstat.waiting || c.tstat.suspended))
        && (c.tstat.Dormant() ==> !c.actque && !c.wupque)
        && (c.tstat.waiting && c.tstat.WaitSlp() ==> !c.wupque)
    {
      assert TaskOk(s.cfg, t, s.tcb[t]);
    }
  }
}
