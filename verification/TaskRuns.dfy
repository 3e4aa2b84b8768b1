/**
 What becomes of one task over runs: how its waits begin and end, and how long it is suspended.
 */
module TaskRuns {
  import opened Common
  import opened HeapLinks
  import opened KernelState
  import opened KernelSpec
  import opened KernelRuns
  import opened TaskFates
  import opened Requests
  import opened Precedence
  import opened WhoRuns
  import opened Dispatching
  import opened WaitSteps

  // ----- waits -----

  /** The step is a wakeup of `t`, and it is accepted. */
  predicate Wakes(s: State, op: Op, t: TaskId)
    requires ShapeOk(s) && Enabled(s, op)
  {
    (op.OpWupTsk? || op.OpIWupTsk?) && NamesTask(s, op, t) && OutcomeOf(s, op) == Returns(E_OK)
  }

  predicate Breaks(s: State, op: Op, t: TaskId)
    requires ShapeOk(s) && Enabled(s, op)
  {
    (op.OpRelWai? || op.OpIRelWai?) && NamesTask(s, op, t) && OutcomeOf(s, op) == Returns(E_OK)
  }

  predicate Serves(op: Op, t: TaskId) {
    (op.OpEndWaits? || op.OpIEndWaits?) && t in op.ts
  }

  /** The end of a wait: a task that waits goes on waiting, for the same thing, until one of
      five things happens. Its sleep ends with E_OK by a wakeup; any wait ends with E_RLWAI by
      rel_wai, with E_TMOUT, or E_OK if it is a delay, by its timer, with the code that the object
      gives if the object serves it; and it is over if the task is terminated. Then the task is
      runnable unless it is suspended. */
  lemma WaitEndsIff(s: State, op: Op, t: TaskId)
    requires Inv(s) && Enabled(s, op) && t < |s.tcb| && s.tcb[t].tstat.waiting
    ensures ShapeOk(s) && |Do(s, op).tcb| == |s.tcb|
    ensures var (c, c') := (s.tcb[t], Do(s, op).tcb[t]);
      var wakes := Wakes(s, op, t) && c.tstat.cause == SLP;
      && (!c'.tstat.waiting <==>
        wakes || Breaks(s, op, t) || op == OpFire(TaskTimer(t)) || Serves(op, t) || EndsTask(s, op, t))
      && (wakes ==> c'.winfo == Wercd(E_OK))
      && (Breaks(s, op, t) ==> c'.winfo == Wercd(E_RLWAI))
      && (op == OpFire(TaskTimer(t)) ==> c'.winfo == Wercd(if c.tstat.cause == DLY then E_OK else E_TMOUT))
      && (Serves(op, t) ==> c'.winfo == Wercd(if op.OpEndWaits? then op.ercd else E_OK))
      && (c'.tstat.waiting ==> c'.tstat.cause == c.tstat.cause && c'.wobj == c.wobj && c'.winfo == c.winfo)
      && (!c'.tstat.waiting && !EndsTask(s, op, t) ==> c'.tstat.suspended == c.tstat.suspended && c'.tstat.runnable == !c.tstat.suspended)
  {
    hide Inv, ShapeOk, OutcomeOf, Do, Enabled, EndsTask, Fate, Verdict, NextTstat, NextWinfo, WaitEnd, WaitStart, NamesTask, Ends;
    Waits(s, op, t);
    RefusedExactly(s, op);
    StepFate(s, op);
    EndsIs(s, op, t);
    StillWaits(s, op, t);
    NotRefused(s, op);
    EndsOnly(s, op, t);
    if Verdict(s, op) == E_OK {
      if op.OpWupTsk? || op.OpIWupTsk? || op.OpRelWai? || op.OpIRelWai? {
        ReturnsOk(s, op);
      }
      if Ends(s, op, t) {
        EndsFate(s, op, t);
      } else {
        FateOf(s, op, t);
        WaitEndIs(s, op, t);
      }
    }
  }

  /** A task that waits stays as it is unless its wait ends. */
  lemma StillWaits(s: State, op: Op, t: TaskId)
    requires Inv(s) && t < |s.tcb| && s.tcb[t].tstat.waiting
    ensures WaitStart(s, op, t).None?
    ensures WaitEnd(s, op, t).None? ==>
      && NextTstat(s, op, t).waiting && NextTstat(s, op, t).cause == s.tcb[t].tstat.cause
      && NextWinfo(s, op, t) == s.tcb[t].winfo
    ensures WaitEnd(s, op, t).Some? ==>
      && NextTstat(s, op, t) == Tstat(!s.tcb[t].tstat.suspended, false, s.tcb[t].tstat.suspended, 0)
      && NextWinfo(s, op, t) == Wercd(WaitEnd(s, op, t).value)
  {
    hide Inv, Verdict, WaitEnd, NamesTask;
    NotWaiting(s);
  }

  lemma ReturnsOk(s: State, op: Op)
    requires Verdict(s, op) == E_OK && (op.OpWupTsk? || op.OpIWupTsk? || op.OpRelWai? || op.OpIRelWai?)
    ensures Accepted(s, op) == Returns(E_OK)
  {
    hide Verdict;
  }

  lemma EndsOnly(s: State, op: Op, t: TaskId)
    ensures Ends(s, op, t) ==> (op.OpExtTsk? || op.OpTerTsk?) && Verdict(s, op) == E_OK
  {
    hide Verdict;
  }

  lemma WaitEndIs(s: State, op: Op, t: TaskId)
    requires t < |s.tcb| && s.tcb[t].tstat.waiting && Verdict(s, op) == E_OK
    ensures WaitEnd(s, op, t) ==
      if (op.OpWupTsk? || op.OpIWupTsk?) && NamesTask(s, op, t) && s.tcb[t].tstat.cause == SLP then Some(E_OK)
      else if (op.OpRelWai? || op.OpIRelWai?) && NamesTask(s, op, t) then Some(E_RLWAI)
      else if op == OpFire(TaskTimer(t)) then Some(if s.tcb[t].tstat.cause == DLY then E_OK else E_TMOUT)
      else if Serves(op, t) then Some(if op.OpEndWaits? then op.ercd else E_OK)
      else None
  {
    hide Verdict, NamesTask;
  }

  /** Steps that are no calls are not refused. */
  lemma NotRefused(s: State, op: Op)
    ensures op.OpFire? || op.OpEndWaits? || op.OpIEndWaits? || op.OpWaitOn? ==> Verdict(s, op) == E_OK
  {
  }

  lemma FateOf(s: State, op: Op, t: TaskId)
    requires t < |s.tcb| == |s.cfg.ipriority| && !Ends(s, op, t)
    ensures var c := Fate(s, op, t);
      && c.tstat == NextTstat(s, op, t) && c.winfo == NextWinfo(s, op, t)
      && c.wobj == if WaitStart(s, op, t).Some? then WaitStart(s, op, t).value.1 else s.tcb[t].wobj
  {
    hide Ends, NextTstat, NextWupque, NextActque, NextWinfo, NextPriority, WaitStart;
  }

  /** What the caller waits for, and for how long: without limit if that is negative. */
  function WaitFor(op: Op): (nat, int) {
    match op
    case OpTslpTsk(tmout) => (SLP, tmout)
    case OpDlyTsk(dlytim) => (DLY, dlytim)
    case OpWaitOn(Wait(cause, _), tmout) => (cause, tmout)
    case _ => (0, 0)
  }

  /** The start of a wait: the caller waits for what the call says, with a timer if and only if
      there is a limit, and the task runs that comes first now. */
  lemma WaitBegins(s: State, op: Op)
    requires Inv(s) && Enabled(s, op) && (op.OpTslpTsk? || op.OpDlyTsk? || op.OpWaitOn?)
    requires ShapeOk(s) && OutcomeOf(s, op) == Blocks
    ensures s.runtsk.Some? && s.runtsk.value < |s.tcb| == |Do(s, op).tcb|
    ensures var (s', t) := (Do(s, op), s.runtsk.value);
      var c' := s'.tcb[t];
      && c'.tstat.waiting && c'.tstat.cause == WaitFor(op).0 && !c'.tstat.suspended
      && (op.OpWaitOn? ==> op.q.Wait? && c'.wobj == op.q.id)
      && (TaskTimer(t) in s'.pending <==> op.OpDlyTsk? || WaitFor(op).1 > 0)
      && s'.runtsk == Sched(s'.queue) && s'.runtsk != Some(t)
  {
    hide Inv, ShapeOk, OutcomeOf, Do, Enabled, Sched, Verdict, Fate, Ends, NextTstat, NextWinfo, WaitStart;
    RefusedExactly(s, op);
    StepFate(s, op);
    StepKeeps(s, op);
    MayWaitNow(s, op);
    var t := s.runtsk.value;
    Waits(s, op, t);
    EndsOnly(s, op, t);
    FateOf(s, op, t);
    BeginsWith(s, op, t);
    TimerIff(Do(s, op), t);
    StepFlags(s, op);
    FlagsOk(s);
    Runs(Do(s, op));
  }

  lemma Runs(s: State)
    requires Inv(s)
    ensures s.runtsk.Some? ==> s.runtsk.value < |s.tcb| && s.tcb[s.runtsk.value].tstat.runnable
  {
    hide CoreOk, Sched;
  }

  lemma MayWaitNow(s: State, op: Op)
    requires Inv(s) && Enabled(s, op) && Verdict(s, op) == E_OK && (op.OpTslpTsk? || op.OpDlyTsk? || op.OpWaitOn?)
    ensures MayWait(s) && NextIntctx(s, op) == s.intctx && NextDisdsp(s, op) == s.disdsp && NextIpmflg(s, op) == s.ipmflg
    ensures op.OpWaitOn? ==> op.q.Wait?
  {
    hide CoreOk, DispatchOk, AllWaiting, IsTop;
    ParameterOk(s, op);
    WaitsOk(s, op);
    hide Verdict;
  }

  lemma BeginsWith(s: State, op: Op, t: TaskId)
    requires Inv(s) && s.runtsk == Some(t) && t < |s.tcb| && Verdict(s, op) == E_OK && Accepted(s, op) == Blocks
    requires (op.OpTslpTsk? || op.OpDlyTsk? || op.OpWaitOn?) && (op.OpWaitOn? ==> op.q.Wait?)
    ensures NextTstat(s, op, t) == Tstat(false, true, false, WaitFor(op).0)
    ensures WaitStart(s, op, t).Some? && (op.OpWaitOn? ==> WaitStart(s, op, t).value.1 == op.q.id)
    ensures NextWinfo(s, op, t) == Tmevtb(if op.OpDlyTsk? || WaitFor(op).1 > 0 then Some(TaskTimer(t)) else None)
  {
    hide Inv, Verdict;
    NotWaiting(s);
  }

  lemma TimerIff(s: State, t: TaskId)
    requires Inv(s) && t < |s.tcb| && s.tcb[t].tstat.waiting
    ensures TaskTimer(t) in s.pending <==> s.tcb[t].winfo == Tmevtb(Some(TaskTimer(t)))
    ensures !s.tcb[t].tstat.runnable
  {
    hide QueuesOk, Sorted, ClockOk, DispatchOk;
    assert Armed(s.tcb, s.cyc, s.alm, TaskTimer(t)) <==> TaskTimer(t) in s.pending;
    assert TaskOk(s.cfg, t, s.tcb[t]);
  }

  // ----- suspension -----

  /** The step neither resumes nor ends `t`. */
  predicate LeavesSuspended(s: State, op: Op, t: TaskId)
    requires ShapeOk(s) && Enabled(s, op)
  {
    !(op.OpRsmTsk? && op.tskid == t + 1 && OutcomeOf(s, op) == Returns(E_OK)) && !EndsTask(s, op, t)
  }

  /** One bit of the state of a task, in one step: it is suspended by sus_tsk, and until it is
      resumed or ends; and it waits or not, as it would without that. */
  lemma SuspendedIff(s: State, op: Op, t: TaskId)
    requires Inv(s) && Enabled(s, op) && t < |s.tcb|
    ensures ShapeOk(s) && |Do(s, op).tcb| == |s.tcb|
    ensures var c' := Do(s, op).tcb[t];
      var sus := op.OpSusTsk? && NamesTask(s, op, t) && OutcomeOf(s, op) == Returns(E_OK);
      var rsm := op.OpRsmTsk? && op.tskid == t + 1 && OutcomeOf(s, op) == Returns(E_OK);
      && (c'.tstat.suspended <==> sus || (s.tcb[t].tstat.suspended && LeavesSuspended(s, op, t)))
      && (sus || rsm ==> c'.tstat.waiting == s.tcb[t].tstat.waiting && c'.tstat.cause == s.tcb[t].tstat.cause
                         && c' == s.tcb[t].(tstat := c'.tstat) && c'.tstat.runnable == (rsm && !c'.tstat.waiting))
  {
    hide Inv, ShapeOk, OutcomeOf, Do, Enabled, EndsTask, Fate, Verdict, NextTstat, Ends;
    RefusedExactly(s, op);
    StepFate(s, op);
    Waits(s, op, t);
    EndsIs(s, op, t);
    EndsOnly(s, op, t);
    if Verdict(s, op) == E_OK {
      if Ends(s, op, t) {
        EndsFate(s, op, t);
      } else {
        FateOf(s, op, t);
        SuspendedNext(s, op, t);
        if (op.OpSusTsk? || op.OpRsmTsk?) && NamesTask(s, op, t) {
          Verdicts(s, op, t);
          SuspendedFate(s, op, t);
        }
      }
    }
  }

  lemma SuspendedNext(s: State, op: Op, t: TaskId)
    requires Inv(s) && t < |s.tcb| && Verdict(s, op) == E_OK
    ensures NextTstat(s, op, t).suspended <==>
      (op.OpSusTsk? && NamesTask(s, op, t)) || (s.tcb[t].tstat.suspended && !(op.OpRsmTsk? && NamesTask(s, op, t)))
    ensures op.OpSusTsk? || op.OpRsmTsk? ==> Accepted(s, op) == Returns(E_OK)
  {
    hide Inv, Verdict, NamesTask;
    NotWaiting(s);
    if s.tcb[t].tstat.waiting {
      StillWaits(s, op, t);
    }
  }

  ghost predicate SuspendedRun(s: State, ops: seq<Op>, s': State, t: TaskId)
    requires Run(s, ops, s')
    decreases |ops|
  {
    ops != [] ==> LeavesSuspended(s, ops[0], t) && SuspendedRun(Do(s, ops[0]), ops[1..], s', t)
  }

  /** A suspended task does not run, whatever happens to it, until it is resumed. */
  lemma {:induction false} SuspendedStays(s: State, ops: seq<Op>, s': State, t: TaskId)
    requires Inv(s) && Run(s, ops, s') && t < |s.tcb| && s.tcb[t].tstat.suspended && SuspendedRun(s, ops, s', t)
    ensures Inv(s') && |s'.tcb| == |s.tcb| && s'.tcb[t].tstat.suspended && !s'.tcb[t].tstat.runnable
    ensures s'.runtsk != Some(t) && Sched(s'.queue) != Some(t)
    decreases |ops|
  {
    hide Inv, ShapeOk, Enabled, Do, LeavesSuspended, Sched;
    if ops == [] {
      BitsFit(s);
      CoreIs(s);
      Runs(s);
      SchedIsFirst(s, t);
    } else {
      StepKeeps(s, ops[0]);
      SuspendedIff(s, ops[0], t);
      SuspendedStays(Do(s, ops[0]), ops[1..], s', t);
    }
  }
}
