/**
 The dispatching flags and the running task, step by step and over runs.
 */
module Dispatching {
  import opened Common
  import opened HeapLinks
  import opened SystemTime
  import opened KernelState
  import opened KernelSpec
  import opened KernelRuns
  import opened WaitSteps
  import opened TaskFates
  import opened Precedence
  import opened WhoRuns

  // ----- the flags after a step -----

  function NextDisdsp(s: State, op: Op): bool {
    if Verdict(s, op) != E_OK then s.disdsp
    else match op
      case OpDisDsp => true
      case OpEnaDsp => false
      case OpExtTsk => false
      case OpTexReturn(saved) => saved
      case _ => s.disdsp
  }

  function NextIpmflg(s: State, op: Op): bool {
    if Verdict(s, op) != E_OK then s.ipmflg
    else match op
      case OpChgIpm(ena) => ena
      case OpExtTsk => true
      case OpTexReturn(_) => true
      case _ => s.ipmflg
  }

  function NextIntctx(s: State, op: Op): bool {
    match op
    case OpEnterInt => true
    case OpExitInt => false
    case _ => s.intctx
  }

  /** The step leaves the flags alone, and dispatches only if that is possible before it. */
  ghost predicate FlagsLeft(s: State, s': State) {
    && s'.disdsp == s.disdsp && s'.ipmflg == s.ipmflg && s'.dspflg == s.dspflg && s'.intctx == s.intctx
    && (s'.runtsk == s.runtsk || (!s.intctx && s.dspflg))
  }

  lemma EndLeaves(s: State)
    ensures forall r: Result {:trigger TaskEnd(r)} :: !s.intctx && FlagsLeft(s, r.s) ==> FlagsLeft(s, TaskEnd(r).s)
    ensures forall r: Result {:trigger IntEnd(s, r)} :: FlagsLeft(s, r.s) ==> FlagsLeft(s, IntEnd(s, r).s)
    ensures FlagsLeft(s, s)
  {
    hide Sched;
  }

  /** Tasks move, and time events come and go, without touching the flags. */
  lemma PartsLeave(s: State, t: TaskId, c: Tcb)
    requires t < |s.tcb|
    ensures FlagsLeft(s, Rehome(s, t, c)) && FlagsLeft(s, Retag(s, t, c))
  {
    hide Enter, Leave;
  }

  lemma ReleaseLeaves(s: State, t: TaskId, ercd: Ercd)
    requires t < |s.tcb|
    ensures var s' := Release(s, t, ercd);
      s' == s.(tcb := s'.tcb, queue := s'.queue, pending := s'.pending) && |s'.tcb| == |s.tcb|
  {
    hide Enter, Leave;
  }

  lemma TerminateLeaves(s: State, t: TaskId)
    requires t < |s.tcb| == |s.cfg.ipriority|
    ensures var s' := Terminate(s, t); s' == s.(tcb := s'.tcb, queue := s'.queue, pending := s'.pending)
  {
    hide Rehome;
    var c := s.tcb[t].(tstat := TS_DORMANT, priority := s.cfg.ipriority[t], wupque := false, actque := false);
    var s1 := Rehome(s, t, c).(pending := s.pending - {TaskTimer(t)});
    RehomeLeaves(s, t, c);
    RehomeLeaves(s1, t, c.(tstat := TS_RUNNABLE));
  }

  lemma RehomeLeaves(s: State, t: TaskId, c: Tcb)
    requires t < |s.tcb|
    ensures Rehome(s, t, c) == s.(tcb := s.tcb[t := c], queue := Rehome(s, t, c).queue)
  {
    hide Enter, Leave;
  }

  lemma ChangePriorityLeaves(s: State, t: TaskId, pri: nat)
    requires t < |s.tcb|
    ensures FlagsLeft(s, ChangePriority(s, t, pri))
  {
    hide Rehome;
    PartsLeave(s, t, s.tcb[t].(priority := pri));
  }

  lemma MakeWaitLeaves(s: State, cause: nat, wobj: nat, tmout: Option<nat>)
    requires InTask(s) && s.cfg.time.Ok()
    ensures FlagsLeft(s, MakeWait(s, cause, wobj, tmout))
  {
    hide Enter, Leave, BaseTime;
  }

  lemma {:induction false} ReleaseAllLeaves(s: State, ts: seq<TaskId>, ercd: Ercd)
    requires AllTasks(ts, |s.tcb|)
    ensures var s' := ReleaseAll(s, ts, ercd); s' == s.(tcb := s'.tcb, queue := s'.queue, pending := s'.pending)
    decreases |ts|
  {
    hide Release;
    if ts != [] {
      ReleaseLeaves(s, ts[0], ercd);
      ReleaseAllLeaves(Release(s, ts[0], ercd), ts[1..], ercd);
    }
  }

  lemma {:induction false} IEndWaitsLeaves(s: State, ts: seq<TaskId>)
    requires AllTasks(ts, |s.tcb|)
    ensures var s' := IEndWaits(s, ts); s' == s.(tcb := s'.tcb, queue := s'.queue, pending := s'.pending, reqflg := s'.reqflg)
    decreases |ts|
  {
    hide Release, Sched;
    if ts != [] {
      ReleaseLeaves(s, ts[0], E_OK);
      IEndWaitsLeaves(IntEnd(s, Result(Release(s, ts[0], E_OK), Returns(E_OK))).s, ts[1..]);
    }
  }

  // The service calls, one by one or in groups.

  lemma ActCallsLeave(s: State, tskid: int)
    ensures FlagsLeft(s, ActTsk(s, tskid).s) && FlagsLeft(s, IActTsk(s, tskid).s)
    ensures FlagsLeft(s, CanAct(s, tskid).s) && FlagsLeft(s, CanWup(s, tskid).s)
  {
    hide Rehome, Retag, FlagsLeft, TaskEnd, IntEnd;
    EndLeaves(s);
    forall t: nat, c | t < |s.tcb|
      ensures FlagsLeft(s, Rehome(s, t, c)) && FlagsLeft(s, Retag(s, t, c))
    {
      PartsLeave(s, t, c);
    }
  }

  lemma WorkCallsLeave(s: State, tskid: int, tskpri: int)
    requires ShapeOk(s)
    ensures FlagsLeft(s, TerTsk(s, tskid).s) && FlagsLeft(s, ChgPri(s, tskid, tskpri).s)
  {
    hide Terminate, ChangePriority, FlagsLeft, TaskEnd, QueueNames;
    EndLeaves(s);
    forall t: nat | t < |s.tcb|
      ensures FlagsLeft(s, Terminate(s, t))
    {
      TerminateFlags(s, t);
    }
    forall t: nat, pri: nat | t < |s.tcb|
      ensures FlagsLeft(s, ChangePriority(s, t, pri))
    {
      ChangePriorityLeaves(s, t, pri);
    }
  }

  lemma TerminateFlags(s: State, t: TaskId)
    requires t < |s.tcb| == |s.cfg.ipriority|
    ensures FlagsLeft(s, Terminate(s, t))
  {
    hide Terminate;
    TerminateLeaves(s, t);
  }

  lemma SleepCallsLeave(s: State, tmout: int, dlytim: nat)
    requires s.cfg.time.Ok()
    ensures FlagsLeft(s, TslpTsk(s, tmout).s) && FlagsLeft(s, DlyTsk(s, dlytim).s)
  {
    hide MakeWait, Retag, FlagsLeft, TaskEnd;
    EndLeaves(s);
    if InTask(s) {
      var t := s.runtsk.value;
      PartsLeave(s, t, s.tcb[t].(wupque := false));
      MakeWaitLeaves(s, SLP, s.tcb[t].wobj, if tmout > 0 then Some(tmout) else None);
      MakeWaitLeaves(s, DLY, s.tcb[t].wobj, Some(dlytim));
    }
  }

  lemma WakeCallsLeave(s: State, tskid: int)
    ensures FlagsLeft(s, WupTsk(s, tskid).s) && FlagsLeft(s, IWupTsk(s, tskid).s)
    ensures FlagsLeft(s, RelWai(s, tskid).s) && FlagsLeft(s, IRelWai(s, tskid).s)
  {
    hide Wakeup, BreakWait, FlagsLeft, TaskEnd, IntEnd;
    EndLeaves(s);
    forall t: nat | t < |s.tcb|
      ensures FlagsLeft(s, Wakeup(s, t).s) && FlagsLeft(s, BreakWait(s, t).s)
    {
      WakeupLeaves(s, t);
    }
  }

  lemma WakeupLeaves(s: State, t: TaskId)
    requires t < |s.tcb|
    ensures FlagsLeft(s, Wakeup(s, t).s) && FlagsLeft(s, BreakWait(s, t).s)
  {
    hide Release;
    ReleaseLeaves(s, t, E_OK);
    ReleaseLeaves(s, t, E_RLWAI);
  }

  lemma SuspendCallsLeave(s: State, tskid: int)
    ensures FlagsLeft(s, SusTsk(s, tskid).s) && FlagsLeft(s, RsmTsk(s, tskid).s)
  {
    hide Rehome, Retag, FlagsLeft, TaskEnd;
    EndLeaves(s);
    forall t: nat, c | t < |s.tcb|
      ensures FlagsLeft(s, Rehome(s, t, c)) && FlagsLeft(s, Retag(s, t, c))
    {
      PartsLeave(s, t, c);
    }
  }

  lemma RotateCallsLeave(s: State, tskpri: int)
    ensures FlagsLeft(s, RotRdq(s, tskpri).s) && FlagsLeft(s, IRotRdq(s, tskpri).s)
  {
    hide TaskEnd, IntEnd;
    EndLeaves(s);
  }

  lemma AlarmCallsLeave(s: State, id: int, almtim: nat, fromInt: bool)
    requires ShapeOk(s)
    ensures FlagsLeft(s, StaAlm(s, id, almtim, fromInt).s) && FlagsLeft(s, StpAlm(s, id, fromInt).s)
  {
    hide BaseTime, QueueNames;
  }

  lemma CyclicCallsLeave(s: State, id: int)
    requires ShapeOk(s)
    ensures FlagsLeft(s, StaCyc(s, id).s) && FlagsLeft(s, StpCyc(s, id).s)
  {
    hide BaseTime, QueueNames;
  }

  lemma WaitOnLeaves(s: State, q: QName, tmout: int)
    requires s.cfg.time.Ok() && MayWait(s) && q.Wait?
    ensures FlagsLeft(s, WaitOn(s, q, tmout).s)
  {
    hide MakeWait, Sched;
    MakeWaitLeaves(s, q.cause, q.id, if tmout > 0 then Some(tmout) else None);
  }

  lemma EndWaitsLeave(s: State, ts: seq<TaskId>, ercd: Ercd)
    requires AllTasks(ts, |s.tcb|)
    ensures InTask(s) ==> FlagsLeft(s, EndWaits(s, ts, ercd))
    ensures s.intctx ==> FlagsLeft(s, IEndWaits(s, ts))
  {
    hide ReleaseAll, IEndWaits, Sched;
    ReleaseAllLeaves(s, ts, ercd);
    IEndWaitsLeaves(s, ts);
  }

  lemma WaitStepsLeave(s: State, op: Op)
    requires Inv(s) && ShapeOk(s) && Enabled(s, op) && (op.OpWaitOn? || op.OpEndWaits? || op.OpIEndWaits? || op.OpFire?)
    ensures FlagsLeft(s, Do(s, op))
  {
    hide Inv, QueueNames, WaitOn, EndWaits, IEndWaits, AllWaiting, IsTop, Fire, Sched, FlagsLeft;
    CoreIs(s);
    WaitsOk(s, op);
    match op
    case OpWaitOn(q, tmout) => WaitOnLeaves(s, q, tmout);
    case OpEndWaits(ts, ercd) => EndWaitsLeave(s, ts, ercd);
    case OpIEndWaits(ts) => EndWaitsLeave(s, ts, E_OK);
    case OpFire(e) => FireLeaves(s, e);
  }

  lemma FireLeaves(s: State, e: Event)
    requires s.cfg.time.Ok() && IsTop(s, e)
    ensures e in s.pending && FlagsLeft(s, Fire(s, e))
  {
    hide Release, IntEnd, Sched;
    EndLeaves(s);
    forall t: nat | t < |s.tcb|
      ensures FlagsLeft(s, Release(s, t, E_OK)) && FlagsLeft(s, Release(s, t, E_TMOUT))
    {
      ReleaseLeaves(s, t, E_OK);
      ReleaseLeaves(s, t, E_TMOUT);
    }
  }

  // ----- the whole -----

  /** Steps that can change a flag. */
  predicate FlagStep(op: Op) {
    op.OpDisDsp? || op.OpEnaDsp? || op.OpExtTsk? || op.OpTexReturn? || op.OpChgIpm? || op.OpEnterInt? || op.OpExitInt?
  }

  lemma OtherStepsLeave(s: State, op: Op)
    requires Inv(s) && Enabled(s, op) && !FlagStep(op)
    ensures ShapeOk(s) && FlagsLeft(s, Do(s, op))
  {
    hide Inv, QueueNames, FlagsLeft, AllWaiting, IsTop;
    CoreIs(s);
    if TaskCall(op) {
      TaskCallsLeave(s, op);
    } else if op.OpWaitOn? || op.OpEndWaits? || op.OpIEndWaits? || op.OpFire? {
      WaitStepsLeave(s, op);
    } else {
      hide RotRdq, IRotRdq, StaAlm, StpAlm, StaCyc, StpCyc;
      match op
      case OpRotRdq(tskpri) => RotateCallsLeave(s, tskpri);
      case OpIRotRdq(tskpri) => RotateCallsLeave(s, tskpri);
      case OpStaAlm(almid, almtim, fromInt) => AlarmCallsLeave(s, almid, almtim, fromInt);
      case OpStpAlm(almid, fromInt) => AlarmCallsLeave(s, almid, 0, fromInt);
      case OpStaCyc(cycid) => CyclicCallsLeave(s, cycid);
      case OpStpCyc(cycid) => CyclicCallsLeave(s, cycid);
      case _ => TicksLeave(s);
    }
  }

  lemma TicksLeave(s: State)
    requires s.cfg.time.Ok()
    ensures FlagsLeft(s, TickStart(s)) && FlagsLeft(s, TickEnd(s))
  {
    hide TickTime;
  }

  lemma TaskCallsLeave(s: State, op: Op)
    requires Inv(s) && ShapeOk(s) && Enabled(s, op) && TaskCall(op) && !op.OpExtTsk?
    ensures FlagsLeft(s, Do(s, op))
  {
    hide Inv, QueueNames, FlagsLeft;
    hide ActTsk, IActTsk, CanAct, TerTsk, ChgPri, CanWup;
    match op
    case OpActTsk(tskid) => ActCallsLeave(s, tskid);
    case OpIActTsk(tskid) => ActCallsLeave(s, tskid);
    case OpCanAct(tskid) => ActCallsLeave(s, tskid);
    case OpCanWup(tskid) => ActCallsLeave(s, tskid);
    case OpTerTsk(tskid) => WorkCallsLeave(s, tskid, 0);
    case OpChgPri(tskid, tskpri) => WorkCallsLeave(s, tskid, tskpri);
    case _ => SyncCallsLeave(s, op);
  }

  lemma SyncCallsLeave(s: State, op: Op)
    requires Inv(s) && ShapeOk(s) && Enabled(s, op)
    requires op.OpTslpTsk? || op.OpDlyTsk? || op.OpWupTsk? || op.OpIWupTsk? || op.OpRelWai? || op.OpIRelWai? || op.OpSusTsk? || op.OpRsmTsk?
    ensures FlagsLeft(s, Do(s, op))
  {
    hide Inv, QueueNames, FlagsLeft;
    hide TslpTsk, DlyTsk, WupTsk, IWupTsk, RelWai, IRelWai, SusTsk, RsmTsk;
    match op
    case OpTslpTsk(tmout) => SleepCallsLeave(s, tmout, 0);
    case OpDlyTsk(dlytim) => SleepCallsLeave(s, 0, dlytim);
    case OpWupTsk(tskid) => WakeCallsLeave(s, tskid);
    case OpIWupTsk(tskid) => WakeCallsLeave(s, tskid);
    case OpRelWai(tskid) => WakeCallsLeave(s, tskid);
    case OpIRelWai(tskid) => WakeCallsLeave(s, tskid);
    case OpSusTsk(tskid) => SuspendCallsLeave(s, tskid);
    case OpRsmTsk(tskid) => SuspendCallsLeave(s, tskid);
  }

  /** What a step makes of the flags that are set by calls. */
  ghost predicate FlagsNext(s: State, op: Op, s': State) {
    && s'.disdsp == NextDisdsp(s, op) && s'.ipmflg == NextIpmflg(s, op) && s'.intctx == NextIntctx(s, op)
    && (s'.intctx || !s'.dspflg ==> s'.runtsk == s.runtsk)
  }

  /** The calls that set flags are for tasks. */
  lemma FlagVerdict(s: State, op: Op)
    requires op.OpDisDsp? || op.OpEnaDsp? || op.OpExtTsk? || op.OpTexReturn? || op.OpChgIpm?
    ensures Verdict(s, op) == E_OK <==> InTask(s)
  {
  }

  lemma ExtFlags(s: State)
    requires Inv(s)
    ensures ShapeOk(s) && FlagsNext(s, OpExtTsk, ExtTsk(s).s)
  {
    hide Inv, Terminate, Sched, Verdict;
    CoreIs(s);
    FlagVerdict(s, OpExtTsk);
    if InTask(s) {
      TerminateLeaves(s.(disdsp := false, ipmflg := true, dspflg := true), s.runtsk.value);
    }
  }

  lemma LockFlags(s: State)
    ensures FlagsNext(s, OpDisDsp, DisDsp(s).s) && FlagsNext(s, OpEnaDsp, EnaDsp(s).s)
  {
    hide Sched, Verdict;
    FlagVerdict(s, OpDisDsp);
    FlagVerdict(s, OpEnaDsp);
  }

  lemma MaskFlags(s: State, ena: bool)
    ensures FlagsNext(s, OpChgIpm(ena), ChgIpm(s, ena).s)
  {
    hide Sched, Verdict;
    FlagVerdict(s, OpChgIpm(ena));
  }

  lemma TexFlags(s: State, saved: bool)
    ensures FlagsNext(s, OpTexReturn(saved), TexReturn(s, saved).s)
  {
    hide Sched, Verdict;
    FlagVerdict(s, OpTexReturn(saved));
  }

  lemma InterruptFlags(s: State)
    ensures FlagsNext(s, OpEnterInt, EnterInt(s)) && FlagsNext(s, OpExitInt, ExitInt(s))
  {
    hide Sched, Verdict;
  }

  /** Each step sets the flags that it is to set. Dispatching is possible as the flags say; and
      if it is, outside of interrupt handlers the task runs that comes first, while otherwise
      the same task goes on running. */
  lemma StepFlags(s: State, op: Op)
    requires Inv(s) && Enabled(s, op)
    ensures ShapeOk(s)
    ensures var s' := Do(s, op);
      && s'.disdsp == NextDisdsp(s, op) && s'.ipmflg == NextIpmflg(s, op) && s'.intctx == NextIntctx(s, op)
      && (s'.dspflg <==> s'.ipmflg && !s'.disdsp)
      && s'.runtsk == if s'.intctx || !s'.dspflg then s.runtsk else Sched(s'.queue)
  {
    hide Inv, Enabled, Do, NextDisdsp, NextIpmflg, NextIntctx, Sched;
    CoreIs(s);
    StepKeeps(s, op);
    FlagsOk(Do(s, op));
    Dispatched(Do(s, op));
    if FlagStep(op) {
      FlagStepFlags(s, op);
    } else {
      FlagsOk(s);
      OtherStepsLeave(s, op);
      NextSame(s, op);
    }
  }

  lemma FlagsOk(s: State)
    requires Inv(s)
    ensures s.dspflg <==> s.ipmflg && !s.disdsp
  {
    hide CoreOk, Sched;
  }

  lemma NextSame(s: State, op: Op)
    requires !FlagStep(op)
    ensures NextDisdsp(s, op) == s.disdsp && NextIpmflg(s, op) == s.ipmflg && NextIntctx(s, op) == s.intctx
  {
    hide Verdict;
  }

  lemma FlagStepFlags(s: State, op: Op)
    requires Inv(s) && Enabled(s, op) && FlagStep(op)
    ensures ShapeOk(s) && FlagsNext(s, op, Do(s, op))
  {
    hide Inv, QueueNames, FlagsNext, DisDsp, EnaDsp, ChgIpm, TexReturn, ExtTsk, EnterInt, ExitInt;
    CoreIs(s);
    match op
    case OpDisDsp => LockFlags(s);
    case OpEnaDsp => LockFlags(s);
    case OpChgIpm(ena) => MaskFlags(s, ena);
    case OpTexReturn(saved) => TexFlags(s, saved);
    case OpExtTsk => ExtFlags(s);
    case OpEnterInt => InterruptFlags(s);
    case OpExitInt => InterruptFlags(s);
  }

  // ----- runs -----

  /** Dispatching is disabled by a call of dis_dsp, and the step does not enable it. */
  predicate Locks(s: State, op: Op) {
    Verdict(s, op) == E_OK ==> !op.OpEnaDsp? && !op.OpExtTsk? && !(op.OpTexReturn? && !op.savedDisdsp)
  }

  ghost predicate LockedRun(s: State, ops: seq<Op>, s': State)
    requires Run(s, ops, s')
    decreases |ops|
  {
    ops != [] ==> Locks(s, ops[0]) && LockedRun(Do(s, ops[0]), ops[1..], s')
  }

  /** As long as dispatching stays disabled the same task runs, whatever becomes runnable. */
  lemma {:induction false} NobodyElseRuns(s: State, ops: seq<Op>, s': State)
    requires Inv(s) && s.disdsp && Run(s, ops, s') && LockedRun(s, ops, s')
    ensures Inv(s') && s'.disdsp && !s'.dspflg && s'.runtsk == s.runtsk && s'.runtsk.Some?
    decreases |ops|
  {
    hide CoreOk, Sched, ShapeOk, Enabled, Do, Verdict;
    if ops != [] {
      StepKeeps(s, ops[0]);
      StepFlags(s, ops[0]);
      NobodyElseRuns(Do(s, ops[0]), ops[1..], s');
    }
  }

  /** From dis_dsp to ena_dsp: in between only the caller runs, and then whoever comes first. */
  lemma LockAndUnlock(s: State, ops: seq<Op>, s': State)
    requires Inv(s) && InTask(s) && ShapeOk(s) && OutcomeOf(s, OpDisDsp) == Returns(E_OK)
    requires Run(Do(s, OpDisDsp), ops, s') && LockedRun(Do(s, OpDisDsp), ops, s') && InTask(s')
    ensures s'.runtsk == s.runtsk && ShapeOk(s') && OutcomeOf(s', OpEnaDsp) == Returns(E_OK)
    ensures var after := Do(s', OpEnaDsp);
      && !after.disdsp && (after.dspflg <==> s'.ipmflg)
      && after.runtsk == if s'.ipmflg then Sched(after.queue) else s.runtsk
  {
    hide Inv, Sched, ShapeOk, Do, OutcomeOf, LockedRun, Run, Verdict;
    FlagVerdict(s, OpDisDsp);
    StepKeeps(s, OpDisDsp);
    StepFlags(s, OpDisDsp);
    NobodyElseRuns(Do(s, OpDisDsp), ops, s');
    CoreIs(s');
    FlagVerdict(s', OpEnaDsp);
    RefusedExactly(s', OpEnaDsp);
    StepFlags(s', OpEnaDsp);
  }

  /** Interrupts are masked by chg_ipm, and the step does not unmask them. */
  predicate Masks(s: State, op: Op) {
    Verdict(s, op) == E_OK ==> !(op.OpChgIpm? && op.ena) && !op.OpExtTsk? && !op.OpTexReturn?
  }

  ghost predicate MaskedRun(s: State, ops: seq<Op>, s': State)
    requires Run(s, ops, s')
    decreases |ops|
  {
    ops != [] ==> Masks(s, ops[0]) && MaskedRun(Do(s, ops[0]), ops[1..], s')
  }

  lemma {:induction false} NobodyElseUnmasked(s: State, ops: seq<Op>, s': State)
    requires Inv(s) && !s.ipmflg && Run(s, ops, s') && MaskedRun(s, ops, s')
    ensures Inv(s') && !s'.ipmflg && !s'.dspflg && s'.runtsk == s.runtsk && s'.runtsk.Some?
    decreases |ops|
  {
    hide CoreOk, Sched, ShapeOk, Enabled, Do, Verdict;
    if ops != [] {
      StepKeeps(s, ops[0]);
      StepFlags(s, ops[0]);
      NobodyElseUnmasked(Do(s, ops[0]), ops[1..], s');
    }
  }

  /** The same from chg_ipm with a mask to chg_ipm with TIPM_ENAALL; dispatching may still be
      disabled by dis_dsp then. */
  lemma MaskAndUnmask(s: State, ops: seq<Op>, s': State)
    requires Inv(s) && InTask(s) && ShapeOk(s) && OutcomeOf(s, OpChgIpm(false)) == Returns(E_OK)
    requires Run(Do(s, OpChgIpm(false)), ops, s') && MaskedRun(Do(s, OpChgIpm(false)), ops, s') && InTask(s')
    ensures s'.runtsk == s.runtsk && ShapeOk(s') && OutcomeOf(s', OpChgIpm(true)) == Returns(E_OK)
    ensures var after := Do(s', OpChgIpm(true));
      && after.ipmflg && (after.dspflg <==> !s'.disdsp)
      && after.runtsk == if s'.disdsp then s.runtsk else Sched(after.queue)
  {
    hide Inv, Sched, ShapeOk, Do, OutcomeOf, MaskedRun, Run, Verdict;
    FlagVerdict(s, OpChgIpm(false));
    StepKeeps(s, OpChgIpm(false));
    StepFlags(s, OpChgIpm(false));
    NobodyElseUnmasked(Do(s, OpChgIpm(false)), ops, s');
    CoreIs(s');
    FlagVerdict(s', OpChgIpm(true));
    RefusedExactly(s', OpChgIpm(true));
    StepFlags(s', OpChgIpm(true));
  }

  /** No interrupt handler returns to a task. */
  predicate StaysInside(ops: seq<Op>) {
    OpExitInt !in ops
  }

  /** Interrupt handlers do not switch tasks. */
  lemma {:induction false} HandlersDoNotSwitch(s: State, ops: seq<Op>, s': State)
    requires Inv(s) && s.intctx && Run(s, ops, s') && StaysInside(ops)
    ensures Inv(s') && s'.intctx && s'.runtsk == s.runtsk
    decreases |ops|
  {
    hide Inv, Sched, ShapeOk, Do, Enabled;
    if ops != [] {
      assert ops[0] in ops;
      StepKeeps(s, ops[0]);
      StepFlags(s, ops[0]);
      HandlersDoNotSwitch(Do(s, ops[0]), ops[1..], s');
    }
  }

  /** From the first instruction of an interrupt handler to its return, whatever it calls: then
      the task runs that comes first, if dispatching is possible, and else the interrupted one. */
  lemma InterruptSwitchesAtEnd(s: State, ops: seq<Op>, s': State)
    requires Inv(s) && ShapeOk(s) && Run(Do(s, OpEnterInt), ops, s') && StaysInside(ops) && !s'.ticking
    ensures ShapeOk(s') && Enabled(s', OpExitInt)
    ensures var after := Do(s', OpExitInt);
      && s'.runtsk == s.runtsk && !after.intctx && after.queue == s'.queue
      && after.runtsk == if s'.dspflg then Sched(s'.queue) else s.runtsk
  {
    hide Inv, Sched, ShapeOk, Run, Do;
    StepKeeps(s, OpEnterInt);
    StepFlags(s, OpEnterInt);
    HandlersDoNotSwitch(Do(s, OpEnterInt), ops, s');
    CoreIs(s');
    StepFlags(s', OpExitInt);
    ExitQueues(s');
  }

  lemma ExitQueues(s: State)
    requires ShapeOk(s) && Enabled(s, OpExitInt)
    ensures Do(s, OpExitInt).queue == s.queue && Do(s, OpExitInt).dspflg == s.dspflg
  {
    hide Sched, QueueNames;
  }
}
