/**
 What time events do over runs: a running cyclic handler is activated once for every
 period, and a tick fires what is due, in the order of time.
 */
module Ticks {
  import opened Common
  import opened HeapLinks
  import opened SystemTime
  import opened KernelState
  import opened KernelSpec
  import opened KernelRuns

  // ----- one step -----

  /** From `s` to `s'` the clock and the time event `x` stay as they are. */
  ghost predicate EventKept(s: State, s': State, x: Event) {
    && s'.cfg == s.cfg && s'.ticks == s.ticks
    && (x in s'.pending <==> x in s.pending)
    && (x in s.pending ==> s'.pending[x] == s.pending[x])
  }

  lemma NothingDone(s: State, x: Event)
    ensures EventKept(s, s, x)
  {
  }

  lemma InTurn(s: State, s1: State, s2: State, x: Event)
    requires EventKept(s, s1, x) && EventKept(s1, s2, x)
    ensures EventKept(s, s2, x)
  {
  }

  /** The end of a step touches dispatching only. */
  lemma EndKept(s: State, x: Event)
    ensures forall r: Result {:trigger TaskEnd(r)} :: EventKept(s, r.s, x) ==> EventKept(s, TaskEnd(r).s, x)
    ensures forall r: Result {:trigger IntEnd(s, r)} :: EventKept(s, r.s, x) ==> EventKept(s, IntEnd(s, r).s, x)
  {
    hide Sched;
  }

  lemma RehomeKept(s: State, t: TaskId, d: Tcb, x: Event)
    requires t < |s.tcb|
    ensures EventKept(s, Rehome(s, t, d), x) && |Rehome(s, t, d).tcb| == |s.tcb| && Rehome(s, t, d).tcb[t] == d
    ensures forall u: TaskId :: x != TaskTimer(u) ==> EventKept(s, Rehome(s, t, d).(pending := s.pending - {TaskTimer(u)}), x)
  {
    hide Enter, Leave;
  }

  lemma RetagKept(s: State, t: TaskId, d: Tcb, x: Event)
    requires t < |s.tcb|
    ensures EventKept(s, Retag(s, t, d), x)
  {
  }

  lemma ReleaseKept(s: State, t: TaskId, ercd: Ercd, x: Event)
    requires t < |s.tcb| && x != TaskTimer(t)
    ensures EventKept(s, Release(s, t, ercd), x) && |Release(s, t, ercd).tcb| == |s.tcb|
  {
    hide Enter, Leave;
  }

  /** `x` is the timer of none of the tasks. */
  predicate NotOf(ts: seq<TaskId>, x: Event) {
    forall i :: 0 <= i < |ts| ==> x != TaskTimer(ts[i])
  }

  lemma {:induction false} ReleaseAllKept(s: State, ts: seq<TaskId>, ercd: Ercd, x: Event)
    requires AllTasks(ts, |s.tcb|) && NotOf(ts, x)
    ensures EventKept(s, ReleaseAll(s, ts, ercd), x)
    decreases |ts|
  {
    hide Release;
    if ts != [] {
      ReleaseKept(s, ts[0], ercd, x);
      ReleaseAllKept(Release(s, ts[0], ercd), ts[1..], ercd, x);
    }
  }

  lemma {:induction false} IEndWaitsKept(s: State, ts: seq<TaskId>, x: Event)
    requires AllTasks(ts, |s.tcb|) && NotOf(ts, x)
    ensures EventKept(s, IEndWaits(s, ts), x)
    decreases |ts|
  {
    hide Release, EventKept, Sched;
    NothingDone(s, x);
    if ts != [] {
      var s1 := IntEnd(s, Result(Release(s, ts[0], E_OK), Returns(E_OK))).s;
      ReleaseKept(s, ts[0], E_OK, x);
      EndKept(s, x);
      IEndWaitsKept(s1, ts[1..], x);
      InTurn(s, s1, IEndWaits(s1, ts[1..]), x);
    }
  }

  lemma TerminateKept(s: State, t: TaskId, x: Event)
    requires t < |s.tcb| == |s.cfg.ipriority| && x != TaskTimer(t)
    ensures EventKept(s, Terminate(s, t), x)
  {
    hide Rehome, EventKept;
    var d := s.tcb[t].(tstat := TS_DORMANT, priority := s.cfg.ipriority[t], wupque := false, actque := false);
    RehomeKept(s, t, d, x);
    var s1 := Rehome(s, t, d).(pending := s.pending - {TaskTimer(t)});
    RehomeKept(s1, t, s1.tcb[t].(tstat := TS_RUNNABLE), x);
    InTurn(s, s1, MakeActive(s1, t), x);
  }

  lemma MakeWaitKept(s: State, cause: nat, wobj: nat, tmout: Option<nat>, x: Event)
    requires InTask(s) && s.cfg.time.Ok() && x != TaskTimer(s.runtsk.value)
    ensures EventKept(s, MakeWait(s, cause, wobj, tmout), x)
  {
    hide Enter, Leave, BaseTime;
  }

  // The parts of service calls that work on one task.

  lemma ActivateKept(s: State, t: TaskId, x: Event)
    requires t < |s.tcb|
    ensures EventKept(s, Activate(s, t).s, x)
  {
    hide Rehome;
    RehomeKept(s, t, s.tcb[t].(tstat := TS_RUNNABLE), x);
  }

  lemma ChangePriorityKept(s: State, t: TaskId, pri: nat, x: Event)
    requires t < |s.tcb|
    ensures EventKept(s, ChangePriority(s, t, pri), x)
  {
    hide Rehome;
    RehomeKept(s, t, s.tcb[t].(priority := pri), x);
  }

  lemma WakeupKept(s: State, t: TaskId, x: Event)
    requires t < |s.tcb| && x != TaskTimer(t)
    ensures EventKept(s, Wakeup(s, t).s, x) && EventKept(s, BreakWait(s, t).s, x)
  {
    hide Release;
    ReleaseKept(s, t, E_OK, x);
    ReleaseKept(s, t, E_RLWAI, x);
  }

  /** `x` is not the timer of the running task. */
  predicate NotRunning(s: State, x: Event) {
    s.runtsk.Some? ==> x != TaskTimer(s.runtsk.value)
  }

  /** The timer of the task that `tskid` means, when it is no TSK_SELF. */
  function TaskOf(tskid: int): Event {
    TaskTimer(if tskid >= 1 then tskid - 1 else 0)
  }

  // The service calls, one by one or in groups.

  lemma ActCallsKept(s: State, tskid: int, x: Event)
    ensures EventKept(s, ActTsk(s, tskid).s, x) && EventKept(s, IActTsk(s, tskid).s, x) && EventKept(s, CanAct(s, tskid).s, x)
  {
    hide TaskEnd, IntEnd, Activate, EventKept, Retag;
    NothingDone(s, x);
    EndKept(s, x);
    forall t: nat | t < |s.tcb|
      ensures EventKept(s, Activate(s, t).s, x) && EventKept(s, Retag(s, t, s.tcb[t].(actque := false)), x)
    {
      ActivateKept(s, t, x);
      RetagKept(s, t, s.tcb[t].(actque := false), x);
    }
  }

  lemma EndCallsKept(s: State, tskid: int, x: Event)
    requires ShapeOk(s)
    ensures NotRunning(s, x) ==> EventKept(s, ExtTsk(s).s, x)
    ensures x != TaskOf(tskid) ==> EventKept(s, TerTsk(s, tskid).s, x)
  {
    hide Terminate, TaskEnd, EventKept, QueueNames;
    NothingDone(s, x);
    EndKept(s, x);
    if InTask(s) {
      ExtFlagsKept(s, x);
      var s1 := s.(disdsp := false, ipmflg := true, dspflg := true);
      if NotRunning(s, x) {
        TerminateKept(s1, s.runtsk.value, x);
        InTurn(s, s1, Terminate(s1, s.runtsk.value), x);
      }
      if Target(s, tskid, false).Some? && x != TaskOf(tskid) {
        TerminateKept(s, Target(s, tskid, false).value, x);
      }
    }
  }

  lemma ExtFlagsKept(s: State, x: Event)
    ensures EventKept(s, s.(disdsp := false, ipmflg := true, dspflg := true), x)
  {
  }

  lemma ChgPriKept(s: State, tskid: int, tskpri: int, x: Event)
    requires ShapeOk(s)
    ensures EventKept(s, ChgPri(s, tskid, tskpri).s, x)
  {
    hide TaskEnd, ChangePriority, EventKept, QueueNames;
    NothingDone(s, x);
    EndKept(s, x);
    forall t: nat, pri: nat | t < |s.tcb|
      ensures EventKept(s, ChangePriority(s, t, pri), x)
    {
      ChangePriorityKept(s, t, pri, x);
    }
  }

  lemma SleepCallsKept(s: State, tmout: int, dlytim: nat, x: Event)
    requires s.cfg.time.Ok() && NotRunning(s, x)
    ensures EventKept(s, TslpTsk(s, tmout).s, x) && EventKept(s, DlyTsk(s, dlytim).s, x)
  {
    hide MakeWait, TaskEnd, EventKept, Retag;
    NothingDone(s, x);
    EndKept(s, x);
    if InTask(s) {
      RetagKept(s, s.runtsk.value, s.tcb[s.runtsk.value].(wupque := false), x);
      MakeWaitKept(s, SLP, s.tcb[s.runtsk.value].wobj, if tmout > 0 then Some(tmout) else None, x);
      MakeWaitKept(s, DLY, s.tcb[s.runtsk.value].wobj, Some(dlytim), x);
    }
  }

  lemma WakeCallsKept(s: State, tskid: int, x: Event)
    requires x != TaskOf(tskid) && NotRunning(s, x)
    ensures EventKept(s, WupTsk(s, tskid).s, x) && EventKept(s, IWupTsk(s, tskid).s, x)
    ensures EventKept(s, RelWai(s, tskid).s, x) && EventKept(s, IRelWai(s, tskid).s, x)
  {
    hide Wakeup, BreakWait, TaskEnd, IntEnd, EventKept;
    NothingDone(s, x);
    EndKept(s, x);
    if InTask(s) && Target(s, tskid, true).Some? {
      WakeupKept(s, Target(s, tskid, true).value, x);
    }
    if Target(s, tskid, false).Some? {
      WakeupKept(s, Target(s, tskid, false).value, x);
    }
  }

  lemma CanWupKept(s: State, tskid: int, x: Event)
    ensures EventKept(s, CanWup(s, tskid).s, x)
  {
  }

  lemma SuspendCallsKept(s: State, tskid: int, x: Event)
    ensures EventKept(s, SusTsk(s, tskid).s, x) && EventKept(s, RsmTsk(s, tskid).s, x)
  {
    hide Rehome, Retag, TaskEnd, EventKept;
    NothingDone(s, x);
    EndKept(s, x);
    forall t: nat, d: Tcb | t < |s.tcb|
      ensures EventKept(s, Rehome(s, t, d), x) && EventKept(s, Retag(s, t, d), x)
    {
      RehomeKept(s, t, d, x);
      RetagKept(s, t, d, x);
    }
  }

  lemma RotateCallsKept(s: State, tskpri: int, x: Event)
    ensures EventKept(s, RotRdq(s, tskpri).s, x) && EventKept(s, IRotRdq(s, tskpri).s, x)
  {
    hide TaskEnd, IntEnd;
    EndKept(s, x);
  }

  lemma FlagCallsKept(s: State, b: bool, x: Event)
    ensures EventKept(s, DisDsp(s).s, x) && EventKept(s, EnaDsp(s).s, x) && EventKept(s, ChgIpm(s, b).s, x) && EventKept(s, TexReturn(s, b).s, x)
  {
    hide TaskEnd, EventKept;
    EndKept(s, x);
    NothingDone(s, x);
    FlagsKept(s, x);
  }

  lemma FlagsKept(s: State, x: Event)
    ensures forall d, i, f :: EventKept(s, s.(disdsp := d, ipmflg := i, dspflg := f), x)
    ensures forall d, f :: EventKept(s, s.(disdsp := d, dspflg := f), x)
    ensures forall i, f :: EventKept(s, s.(ipmflg := i, dspflg := f), x)
  {
  }

  lemma AlarmCallsKept(s: State, id: int, almtim: nat, fromInt: bool, x: Event)
    requires s.cfg.time.Ok() && (id >= 1 ==> x != AlmTimer(id - 1))
    ensures EventKept(s, StaAlm(s, id, almtim, fromInt).s, x) && EventKept(s, StpAlm(s, id, fromInt).s, x)
  {
    hide EventKept, StartAlarm, StopAlarm;
    NothingDone(s, x);
    if 1 <= id <= |s.alm| {
      AlarmKept(s, id - 1, almtim, x);
    }
  }

  lemma AlarmKept(s: State, a: nat, time: nat, x: Event)
    requires s.cfg.time.Ok() && a < |s.alm| && x != AlmTimer(a)
    ensures EventKept(s, StartAlarm(s, a, time), x) && EventKept(s, StopAlarm(s, a), x)
  {
    hide BaseTime;
  }

  lemma CyclicCallsKept(s: State, id: int, x: Event)
    requires ShapeOk(s) && (id >= 1 ==> x != CycTimer(id - 1))
    ensures EventKept(s, StaCyc(s, id).s, x) && EventKept(s, StpCyc(s, id).s, x)
  {
    hide BaseTime, QueueNames;
  }

  lemma WaitOnKept(s: State, q: QName, tmout: int, x: Event)
    requires s.cfg.time.Ok() && InTask(s) && q.Wait? && NotRunning(s, x)
    ensures EventKept(s, WaitOn(s, q, tmout).s, x)
  {
    hide MakeWait, Sched;
    MakeWaitKept(s, q.cause, q.id, if tmout > 0 then Some(tmout) else None, x);
  }

  lemma EndWaitsKept(s: State, ts: seq<TaskId>, ercd: Ercd, x: Event)
    requires AllTasks(ts, |s.tcb|) && NotOf(ts, x)
    ensures EventKept(s, EndWaits(s, ts, ercd), x) && EventKept(s, IEndWaits(s, ts), x)
  {
    hide ReleaseAll, IEndWaits, Sched;
    ReleaseAllKept(s, ts, ercd, x);
    IEndWaitsKept(s, ts, x);
  }

  lemma InterruptsKept(s: State, x: Event)
    requires s.cfg.time.Ok()
    ensures EventKept(s, EnterInt(s), x) && EventKept(s, ExitInt(s), x) && EventKept(s, TickEnd(s), x)
  {
    hide Sched, TickTime;
  }

  /** The start of a tick moves the clock on, and nothing else that matters here. */
  lemma TickStarts(s: State)
    requires ShapeOk(s) && Enabled(s, OpTickStart)
    ensures !s.ticking
    ensures var s' := Do(s, OpTickStart);
      s'.cfg == s.cfg && s'.ticks == s.ticks + 1 && s'.pending == s.pending
  {
  }

  lemma FireKept(s: State, e: Event, x: Event)
    requires CoreOk(s) && e in s.pending && e != x
    ensures EventKept(s, Fire(s, e), x)
  {
    hide CoreOk, Release, IntEnd, EventKept;
    NothingDone(s, x);
    EndKept(s, x);
    CallbackIs(s, e);
    match e
    case TaskTimer(t) =>
      ReleaseKept(s, t, E_TMOUT, x);
      ReleaseKept(s, t, E_OK, x);
    case _ =>
      HandlerFireKept(s, e, x);
  }

  /** The callbacks are what the kind of the event says. */
  lemma CallbackIs(s: State, e: Event)
    requires CoreOk(s) && e in s.pending
    ensures s.pending[e].callback == CallbackOf(s.tcb, e) && Armed(s.tcb, s.cyc, s.alm, e)
    ensures e.CycTimer? ==> e.cyc < |s.cfg.cyctim| && s.cfg.cyctim[e.cyc] > 0
  {
    hide QueuesOk, Sorted, ClockOk, QueueNames;
  }

  lemma HandlerFireKept(s: State, e: Event, x: Event)
    requires e in s.pending && e != x && !e.TaskTimer? && s.pending[e].callback == CallbackOf(s.tcb, e)
    ensures EventKept(s, Fire(s, e), x)
  {
    hide Release, IntEnd;
  }

  /** Does the step start, stop or fire the time event `x`? */
  predicate Concerns(s: State, op: Op, x: Event) {
    match op
    case OpFire(e) => e == x
    case OpStaCyc(cycid) => cycid >= 1 && x == CycTimer(cycid - 1)
    case OpStpCyc(cycid) => cycid >= 1 && x == CycTimer(cycid - 1)
    case OpStaAlm(almid, _, _) => almid >= 1 && x == AlmTimer(almid - 1)
    case OpStpAlm(almid, _) => almid >= 1 && x == AlmTimer(almid - 1)
    case OpTerTsk(tskid) => x == TaskOf(tskid)
    case OpWupTsk(tskid) => x == TaskOf(tskid) || !NotRunning(s, x)
    case OpIWupTsk(tskid) => x == TaskOf(tskid) || !NotRunning(s, x)
    case OpRelWai(tskid) => x == TaskOf(tskid) || !NotRunning(s, x)
    case OpIRelWai(tskid) => x == TaskOf(tskid) || !NotRunning(s, x)
    case OpEndWaits(ts, _) => !NotOf(ts, x)
    case OpIEndWaits(ts) => !NotOf(ts, x)
    case OpExtTsk => !NotRunning(s, x)
    case OpTslpTsk(_) => !NotRunning(s, x)
    case OpDlyTsk(_) => !NotRunning(s, x)
    case OpWaitOn(_, _) => !NotRunning(s, x)
    case _ => false
  }

  /** No step but its own start, stop and firing changes the registration of a time event. */
  lemma StepKept(s: State, op: Op, x: Event)
    requires Inv(s) && Enabled(s, op) && !op.OpTickStart? && !Concerns(s, op, x)
    ensures EventKept(s, Do(s, op), x)
  {
    hide Inv, Enabled, Do, Concerns;
    if TaskCall(op) {
      TaskCallKept(s, op, x);
    } else {
      OtherStepKept(s, op, x);
    }
  }

  lemma TaskCallKept(s: State, op: Op, x: Event)
    requires Inv(s) && Enabled(s, op) && TaskCall(op) && !Concerns(s, op, x)
    ensures EventKept(s, Do(s, op), x)
  {
    hide Inv, Enabled, EventKept, ShapeOk, TaskOf, NotRunning;
    hide ActTsk, IActTsk, CanAct, ExtTsk, TerTsk, ChgPri;
    Waits(s, op);
    match op
    case OpActTsk(tskid) => ActCallsKept(s, tskid, x);
    case OpIActTsk(tskid) => ActCallsKept(s, tskid, x);
    case OpCanAct(tskid) => ActCallsKept(s, tskid, x);
    case OpExtTsk => EndCallsKept(s, 0, x);
    case OpTerTsk(tskid) => EndCallsKept(s, tskid, x);
    case OpChgPri(tskid, tskpri) => ChgPriKept(s, tskid, tskpri, x);
    case _ => SyncCallKept(s, op, x);
  }

  lemma SyncCallKept(s: State, op: Op, x: Event)
    requires Inv(s) && Enabled(s, op) && !Concerns(s, op, x)
    requires op.OpTslpTsk? || op.OpDlyTsk? || op.OpWupTsk? || op.OpIWupTsk? || op.OpCanWup? || op.OpRelWai? || op.OpIRelWai?
      || op.OpSusTsk? || op.OpRsmTsk?
    ensures EventKept(s, Do(s, op), x)
  {
    hide Inv, Enabled, EventKept, ShapeOk, TaskOf, NotRunning;
    hide TslpTsk, DlyTsk, WupTsk, IWupTsk, CanWup, RelWai, IRelWai, SusTsk, RsmTsk;
    Waits(s, op);
    match op
    case OpTslpTsk(tmout) => SleepCallsKept(s, tmout, 0, x);
    case OpDlyTsk(dlytim) => SleepCallsKept(s, 0, dlytim, x);
    case OpWupTsk(tskid) => WakeCallsKept(s, tskid, x);
    case OpIWupTsk(tskid) => WakeCallsKept(s, tskid, x);
    case OpCanWup(tskid) => CanWupKept(s, tskid, x);
    case OpRelWai(tskid) => WakeCallsKept(s, tskid, x);
    case OpIRelWai(tskid) => WakeCallsKept(s, tskid, x);
    case OpSusTsk(tskid) => SuspendCallsKept(s, tskid, x);
    case OpRsmTsk(tskid) => SuspendCallsKept(s, tskid, x);
  }

  lemma OtherStepKept(s: State, op: Op, x: Event)
    requires Inv(s) && Enabled(s, op) && !TaskCall(op) && !op.OpTickStart? && !Concerns(s, op, x)
    ensures EventKept(s, Do(s, op), x)
  {
    hide Inv, EventKept, CoreOk, ShapeOk, AllWaiting, IsTop, NotRunning, NotOf;
    hide DisDsp, EnaDsp, ChgIpm, TexReturn, StaAlm, StpAlm, StaCyc, StpCyc, RotRdq, IRotRdq, WaitOn, EndWaits, IEndWaits, EnterInt, ExitInt;
    hide TickStart, Fire, TickEnd;
    Waits(s, op);
    match op
    case OpRotRdq(tskpri) => RotateCallsKept(s, tskpri, x);
    case OpIRotRdq(tskpri) => RotateCallsKept(s, tskpri, x);
    case OpDisDsp => FlagCallsKept(s, true, x);
    case OpEnaDsp => FlagCallsKept(s, true, x);
    case OpChgIpm(ena) => FlagCallsKept(s, ena, x);
    case OpTexReturn(saved) => FlagCallsKept(s, saved, x);
    case OpStaAlm(almid, almtim, fromInt) => AlarmCallsKept(s, almid, almtim, fromInt, x);
    case OpStpAlm(almid, fromInt) => AlarmCallsKept(s, almid, 0, fromInt, x);
    case OpStaCyc(cycid) => CyclicCallsKept(s, cycid, x);
    case OpStpCyc(cycid) => CyclicCallsKept(s, cycid, x);
    case OpWaitOn(q, tmout) => WaitOnKept(s, q, tmout, x);
    case OpEndWaits(ts, ercd) => EndWaitsKept(s, ts, ercd, x);
    case OpIEndWaits(ts) => EndWaitsKept(s, ts, E_OK, x);
    case OpEnterInt => InterruptsKept(s, x);
    case OpExitInt => InterruptsKept(s, x);
    case OpFire(e) => FireKept(s, e, x);
    case OpTickEnd => InterruptsKept(s, x);
  }

  lemma Waits(s: State, op: Op)
    requires Inv(s) && Enabled(s, op)
    ensures CoreOk(s) && ShapeOk(s) && s.cfg.time.Ok()
    ensures op.OpWaitOn? ==> InTask(s) && op.q.Wait?
    ensures op.OpEndWaits? || op.OpIEndWaits? ==> AllTasks(op.ts, |s.tcb|)
    ensures op.OpFire? ==> op.e in s.pending
  {
    hide QueuesOk, Sorted, TimersOk, ClockOk, DispatchOk;
  }

  // ----- cyclic handlers over runs -----

  /** The times of the activations of `e` in the run `ops` from `s` to `s'`. */
  ghost function Fires(s: State, ops: seq<Op>, s': State, e: Event): seq<nat>
    requires Run(s, ops, s')
    decreases |ops|
  {
    if ops == [] then []
    else (if ops[0] == OpFire(e) then [s.pending[e].time] else []) + Fires(Do(s, ops[0]), ops[1..], s', e)
  }

  /** The cyclic handler `c` is neither started nor stopped. */
  ghost predicate Undisturbed(ops: seq<Op>, c: nat) {
    OpStaCyc(c + 1) !in ops && OpStpCyc(c + 1) !in ops
  }

  lemma FireCyclic(s: State, c: nat)
    requires Inv(s) && s.ticking && IsTop(s, CycTimer(c))
    ensures c < |s.cfg.cyctim| && s.cfg.cyctim[c] > 0
    ensures var s' := Fire(s, CycTimer(c));
      && s'.cfg == s.cfg && s'.ticks == s.ticks && CycTimer(c) in s'.pending
      && s'.pending[CycTimer(c)].time == s.pending[CycTimer(c)].time + s.cfg.cyctim[c]
  {
    hide QueuesOk, Sorted, ClockOk, QueueNames;
    assert Armed(s.tcb, s.cyc, s.alm, CycTimer(c));
  }

  /** Every time in `f` is one period after the one before, the first being `first`. */
  ghost predicate Periodic(f: seq<nat>, first: nat, period: nat) {
    forall k :: 0 <= k < |f| ==> f[k] == first + k * period
  }

  lemma PeriodicCons(f: seq<nat>, first: nat, period: nat)
    requires Periodic(f, first + period, period)
    ensures Periodic([first] + f, first, period)
    ensures first + period + |f| * period == first + |[first] + f| * period
  {
    var g := [first] + f;
    forall k | 0 <= k < |g|
      ensures g[k] == first + k * period
    {
      if k > 0 {
        assert f[k - 1] == first + period + (k - 1) * period;
        assert (k - 1) * period + period == k * period;
      }
    }
  }

  /** The k-th activation is due k periods after the first, and happens when it is due or later. */
  lemma {:induction false} CyclicFires(s: State, ops: seq<Op>, s': State, c: nat)
    requires Inv(s) && Run(s, ops, s') && Undisturbed(ops, c) && CycTimer(c) in s.pending
    ensures Inv(s') && s'.cfg == s.cfg && s.ticks <= s'.ticks && c < |s.cfg.cyctim|
    ensures var f := Fires(s, ops, s', CycTimer(c));
      var first := s.pending[CycTimer(c)].time;
      && CycTimer(c) in s'.pending && s'.pending[CycTimer(c)].time == first + |f| * s.cfg.cyctim[c]
      && Periodic(f, first, s.cfg.cyctim[c])
      && forall k :: 0 <= k < |f| ==> f[k] <= TickTime(s.cfg.time, s'.ticks)
    decreases |ops|
  {
    hide Inv, ShapeOk, Enabled, IsTop, Do, TickTime, Fire, Periodic;
    HasPeriod(s, c);
    NoneYet(s, c);
    if ops != [] {
      var op := ops[0];
      var s1 := Do(s, op);
      StepKeeps(s, op);
      assert op in ops;
      assert Undisturbed(ops[1..], c);
      var first := s.pending[CycTimer(c)].time;
      var p := s.cfg.cyctim[c];
      if op == OpFire(CycTimer(c)) {
        FireIsDo(s, CycTimer(c));
        FireCyclic(s, c);
        CyclicFires(s1, ops[1..], s', c);
        TickTimeMonotone(s.cfg.time, s.ticks, s'.ticks);
        PeriodicCons(Fires(s1, ops[1..], s', CycTimer(c)), first, p);
      } else {
        if op.OpTickStart? {
          TickStarts(s);
        } else {
          StepKept(s, op, CycTimer(c));
        }
        assert CycTimer(c) in s1.pending && s1.pending[CycTimer(c)] == s.pending[CycTimer(c)];
        CyclicFires(s1, ops[1..], s', c);
        assert Fires(s, ops, s', CycTimer(c)) == Fires(s1, ops[1..], s', CycTimer(c));
      }
    }
  }

  lemma FireIsDo(s: State, e: Event)
    requires ShapeOk(s) && Enabled(s, OpFire(e))
    ensures s.ticking && s.cfg.time.Ok() && IsTop(s, e) && Do(s, OpFire(e)) == Fire(s, e)
    ensures s.pending[e].time <= TickTime(s.cfg.time, s.ticks)
  {
  }

  lemma NoneYet(s: State, c: nat)
    requires Inv(s) && CycTimer(c) in s.pending && c < |s.cfg.cyctim|
    ensures Periodic([], s.pending[CycTimer(c)].time, s.cfg.cyctim[c]) && 0 * s.cfg.cyctim[c] == 0
  {
  }

  lemma HasPeriod(s: State, c: nat)
    requires Inv(s) && CycTimer(c) in s.pending
    ensures s.cfg.time.Ok() && c < |s.cfg.cyctim| && s.cfg.cyctim[c] > 0
  {
    hide QueuesOk, Sorted, ClockOk, QueueNames;
    assert Armed(s.tcb, s.cyc, s.alm, CycTimer(c));
  }

  /** However ticks fall, between ticks a running cyclic handler has been activated exactly
      once for every moment that has passed among first, first + period, first + 2 periods, ... */
  lemma CyclicHandlerOncePerPeriod(s: State, ops: seq<Op>, s': State, c: nat)
    requires Inv(s) && Run(s, ops, s') && Undisturbed(ops, c) && CycTimer(c) in s.pending
    requires !s'.ticking && s'.ticks > 0
    ensures s.cfg.time.Ok() && s'.cfg == s.cfg && c < |s.cfg.cyctim|
    ensures var n := |Fires(s, ops, s', CycTimer(c))|;
      var first := s.pending[CycTimer(c)].time;
      var now := TickTime(s.cfg.time, s'.ticks);
      forall k: nat :: k < n <==> first + k * s.cfg.cyctim[c] <= now
  {
    hide CoreOk, DispatchOk, TickTime;
    HasPeriod(s, c);
    CyclicFires(s, ops, s', c);
    NothingDue(s', CycTimer(c));
    var f := Fires(s, ops, s', CycTimer(c));
    var p := s.cfg.cyctim[c];
    forall k: nat
      ensures k < |f| <==> s.pending[CycTimer(c)].time + k * p <= TickTime(s.cfg.time, s'.ticks)
    {
      if k < |f| {
        assert f[k] == s.pending[CycTimer(c)].time + k * p;
      } else {
        MulOrder(|f|, k, p);
      }
    }
  }

  /** Between ticks, whatever is registered lies in the future. */
  lemma NothingDue(s: State, e: Event)
    requires Inv(s) && !s.ticking && s.ticks > 0 && e in s.pending
    ensures s.cfg.time.Ok() && TickTime(s.cfg.time, s.ticks) < s.pending[e].time
  {
    hide QueuesOk, Sorted, TimersOk;
  }
}
