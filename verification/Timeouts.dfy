/**
 Timeouts, delays, alarms and the first activation of a cyclic handler, from the call that
 registers the time event to its firing: it fires in the first tick that reaches its time,
 never before the requested time has passed, and less than a millisecond and a tick after it.
 */
module Timeouts {
  import opened Common
  import opened HeapLinks
  import opened SystemTime
  import opened KernelState
  import opened KernelSpec
  import opened KernelRuns
  import opened Ticks

  /** The time event that the step registers, and for what relative time. */
  function Starts(s: State, op: Op): Option<(Event, nat)> {
    match op
    case OpDlyTsk(dlytim) =>
      if MayWait(s) && dlytim <= s.cfg.time.tmax then Some((TaskTimer(s.runtsk.value), dlytim)) else None
    case OpTslpTsk(tmout) =>
      if MayWait(s) && tmout > 0 && !s.tcb[s.runtsk.value].wupque then Some((TaskTimer(s.runtsk.value), tmout)) else None
    case OpWaitOn(_, tmout) =>
      if MayWait(s) && tmout > 0 then Some((TaskTimer(s.runtsk.value), tmout)) else None
    case OpStaAlm(almid, almtim, fromInt) =>
      if (if fromInt then s.intctx else InTask(s)) && 1 <= almid <= |s.alm| && almtim <= s.cfg.time.tmax
      then Some((AlmTimer(almid - 1), almtim)) else None
    case OpStaCyc(cycid) =>
      if InTask(s) && 1 <= cycid <= |s.cyc| && cycid <= |s.cfg.cycphs| then Some((CycTimer(cycid - 1), s.cfg.cycphs[cycid - 1])) else None
    case _ => None
  }

  /** The number of the tick in which `e` fires first. */
  ghost function FirstFire(s: State, ops: seq<Op>, s': State, e: Event): Option<nat>
    requires Run(s, ops, s')
    decreases |ops|
  {
    if ops == [] then None
    else if ops[0] == OpFire(e) then Some(s.ticks)
    else FirstFire(Do(s, ops[0]), ops[1..], s', e)
  }

  /** Until it fires, no step stops `e` or starts it again. */
  ghost predicate LeftAlone(s: State, ops: seq<Op>, s': State, e: Event)
    requires Run(s, ops, s')
    decreases |ops|
  {
    ops != [] && ops[0] != OpFire(e) ==> !Concerns(s, ops[0], e) && LeftAlone(Do(s, ops[0]), ops[1..], s', e)
  }

  /** Tick `m` is the first one that reaches `time`. */
  predicate Reaches(c: TimeConfig, m: nat, time: nat)
    requires c.Ok()
  {
    time <= TickTime(c, m) && (m > 0 ==> TickTime(c, m - 1) < time)
  }

  /** `e` is registered, and no earlier tick has reached its time. */
  ghost predicate NotOverdue(s: State, e: Event)
    requires s.cfg.time.Ok()
  {
    e in s.pending && 0 < s.pending[e].time && (s.ticks > 0 ==> TickTime(s.cfg.time, s.ticks - 1) < s.pending[e].time)
  }

  /** A step that leaves `e` alone does not make it overdue. */
  lemma StillAhead(s: State, op: Op, e: Event)
    requires Inv(s) && s.cfg.time.Ok() && Enabled(s, op) && NotOverdue(s, e) && !Concerns(s, op, e)
    ensures var s1 := Do(s, op);
      && Inv(s1) && s1.cfg == s.cfg && s.ticks <= s1.ticks && NotOverdue(s1, e) && s1.pending[e] == s.pending[e]
  {
    hide Inv, ShapeOk, Enabled, Do, Concerns, TickTime;
    StepKeeps(s, op);
    if op.OpTickStart? {
      InvShape(s);
      TickStarts(s);
      FirstTicks(s.cfg.time);
      if s.ticks > 0 {
        NothingDue(s, e);
      }
    } else {
      StepKept(s, op, e);
    }
  }

  /** Over any run that leaves `e` alone: if it fires, then in the first tick that reaches its
      time; if it does not, it is still registered and no tick that is over has reached it. */
  lemma {:induction false} FiresInItsTick(s: State, ops: seq<Op>, s': State, e: Event)
    requires Inv(s) && s.cfg.time.Ok() && Run(s, ops, s') && LeftAlone(s, ops, s', e) && NotOverdue(s, e)
    ensures Inv(s') && s'.cfg == s.cfg && s.ticks <= s'.ticks
    ensures match FirstFire(s, ops, s', e)
      case Some(m) => s.ticks <= m <= s'.ticks && Reaches(s.cfg.time, m, s.pending[e].time)
      case None => NotOverdue(s', e) && s'.pending[e] == s.pending[e]
    decreases |ops|
  {
    hide Inv, ShapeOk, Enabled, IsTop, Do, Concerns, NotOverdue, TickTime;
    if ops != [] {
      var op := ops[0];
      var s1 := Do(s, op);
      if op == OpFire(e) {
        FireIsDo(s, e);
        Reached(s, e);
        TicksGoOn(s, ops, s');
      } else {
        StillAhead(s, op, e);
        FiresInItsTick(s1, ops[1..], s', e);
        Pends(s, e);
      }
    }
  }

  lemma Pends(s: State, e: Event)
    requires s.cfg.time.Ok() && NotOverdue(s, e)
    ensures e in s.pending
  {
  }

  lemma Reached(s: State, e: Event)
    requires s.cfg.time.Ok() && NotOverdue(s, e) && s.pending[e].time <= TickTime(s.cfg.time, s.ticks)
    ensures Reaches(s.cfg.time, s.ticks, s.pending[e].time)
  {
  }

  /** The clock does not go back. */
  lemma {:induction false} TicksGoOn(s: State, ops: seq<Op>, s': State)
    requires Inv(s) && Run(s, ops, s')
    ensures Inv(s') && s'.cfg == s.cfg && s.ticks <= s'.ticks
    decreases |ops|
  {
    hide Inv, ShapeOk, Enabled, Do, Concerns;
    if ops != [] {
      var s1 := Do(s, ops[0]);
      StepKeeps(s, ops[0]);
      if ops[0].OpTickStart? {
        InvShape(s);
        TickStarts(s);
      } else if ops[0].OpFire? {
        FireTicks(s, ops[0].e);
      } else {
        OneElse(s, ops[0]);
      }
      TicksGoOn(s1, ops[1..], s');
    }
  }

  /** Every step but the start of a tick leaves the clock alone: there is always some time
      event that it does not concern. */
  lemma OneElse(s: State, op: Op)
    requires Inv(s) && Enabled(s, op) && !op.OpTickStart? && !op.OpFire?
    ensures Do(s, op).ticks == s.ticks && Do(s, op).cfg == s.cfg
  {
    hide Inv, Enabled, Do;
    if op.OpStaCyc? || op.OpStpCyc? {
      StepKept(s, op, AlmTimer(0));
    } else {
      StepKept(s, op, CycTimer(0));
    }
  }

  lemma FireTicks(s: State, e: Event)
    requires Inv(s) && Enabled(s, OpFire(e))
    ensures Do(s, OpFire(e)).ticks == s.ticks && Do(s, OpFire(e)).cfg == s.cfg
  {
    hide Inv, Enabled, Do;
    StepKept(s, OpFire(e), if e == AlmTimer(0) then AlmTimer(1) else AlmTimer(0));
  }

  /** What a step starts is registered for the relative time, counted from the base time. */
  lemma Registers(s: State, op: Op)
    requires Inv(s) && Enabled(s, op) && Starts(s, op).Some?
    ensures var (e, d) := Starts(s, op).value;
      var s1 := Do(s, op);
      && Inv(s1) && s1.cfg == s.cfg && s1.cfg.time.Ok() && s1.ticks == s.ticks
      && e in s1.pending && s1.pending[e].time == BaseTime(s.cfg.time, s.ticks) + d
  {
    hide CoreOk, DispatchOk, Enter, Leave, Sched, BaseTime, TickTime;
    InvShape(s);
    StepKeeps(s, op);
  }

  /** From registration to firing: a time event that is registered for `d` milliseconds after
      tick n, and then left alone, fires in the first tick that reaches its time, and by no tick
      that is over has it missed it. In exact time, in units of 1/deno milliseconds, this tick
      comes at least d milliseconds after tick n + 1; and the tick before it comes less than
      d + 1 milliseconds after tick n + 1. */
  lemma TimeoutOnTime(s: State, op: Op, ops: seq<Op>, s': State)
    requires Inv(s) && Enabled(s, op) && Starts(s, op).Some? && Run(Do(s, op), ops, s')
    requires LeftAlone(Do(s, op), ops, s', Starts(s, op).value.0)
    ensures s.cfg.time.Ok() && s'.cfg == s.cfg
    ensures var ((e, d), n, c) := (Starts(s, op).value, s.ticks, s.cfg.time);
      var fired := FirstFire(Do(s, op), ops, s', e);
      && (fired.Some? ==>
        && Reaches(c, fired.value, BaseTime(c, n) + d) && n < fired.value
        && fired.value * c.nume >= (n + 1) * c.nume + d * c.deno
        && (fired.value - 1) * c.nume < (n + 1) * c.nume + (d + 1) * c.deno)
      && (!s'.ticking ==> (fired.Some? <==> BaseTime(c, n) + d <= TickTime(c, s'.ticks)))
  {
    hide Inv, Enabled, ShapeOk, Starts, Do, LeftAlone, FirstFire, Run;
    InvShape(s);
    var ((e, d), n, c) := (Starts(s, op).value, s.ticks, s.cfg.time);
    var s1 := Do(s, op);
    Registers(s, op);
    Ahead(s1, e, d);
    FiresInItsTick(s1, ops, s', e);
    match FirstFire(s1, ops, s', e)
    case Some(m) =>
      OnTime(c, n, d, m);
      TickTimeMonotone(c, m, s'.ticks);
    case None =>
      if !s'.ticking {
        NotYet(s', e);
      }
  }

  lemma Ahead(s: State, e: Event, d: nat)
    requires s.cfg.time.Ok() && e in s.pending && s.pending[e].time == BaseTime(s.cfg.time, s.ticks) + d
    ensures NotOverdue(s, e)
  {
    hide TickTime, BaseTime;
    BaseBounds(s.cfg.time, s.ticks);
    if s.ticks > 0 {
      TickTimeMonotone(s.cfg.time, s.ticks - 1, s.ticks);
    }
  }

  lemma NotYet(s: State, e: Event)
    requires Inv(s) && s.cfg.time.Ok() && NotOverdue(s, e) && !s.ticking
    ensures TickTime(s.cfg.time, s.ticks) < s.pending[e].time
  {
    hide Inv, TickTime;
    FirstTicks(s.cfg.time);
    if s.ticks > 0 {
      NothingDue(s, e);
    }
  }

  /** The first tick that reaches a relative time, in exact time. */
  lemma OnTime(c: TimeConfig, n: nat, d: nat, m: nat)
    requires c.Ok() && Reaches(c, m, BaseTime(c, n) + d)
    ensures n < m
    ensures m * c.nume >= (n + 1) * c.nume + d * c.deno
    ensures (m - 1) * c.nume < (n + 1) * c.nume + (d + 1) * c.deno
  {
    hide TickTime, BaseTime;
    BaseBounds(c, n);
    if m <= n {
      TickTimeMonotone(c, m, n);
    }
    NeverEarly(c, n, d, m);
    if (m - 1) * c.nume >= (n + 1) * c.nume + (d + 1) * c.deno {
      LessThanOneMillisecondLate(c, n, d, m - 1);
    }
  }

  /** What firing means: the wait of the task ends with E_TMOUT, or with E_OK if it is a delay;
      an alarm handler is no longer registered. */
  lemma FireEnds(s: State, e: Event)
    requires Inv(s) && Enabled(s, OpFire(e)) && !e.CycTimer?
    ensures var s' := Do(s, OpFire(e));
      && e in s.pending && e !in s'.pending
      && match e
         case TaskTimer(t) =>
           && t < |s.tcb| == |s'.tcb| && s.tcb[t].tstat.waiting && !s'.tcb[t].tstat.waiting
           && s'.tcb[t].winfo == Wercd(if s.tcb[t].tstat.cause == DLY then E_OK else E_TMOUT)
         case AlmTimer(a) => a < |s.alm| == |s'.alm| && s.alm[a] && !s'.alm[a]
         case CycTimer(_) => true
  {
    hide CoreOk, DispatchOk, Release, IntEnd, Sched, TickTime, IsTop;
    InvShape(s);
    FireIsDo(s, e);
    TopIn(s, e);
    CallbackIs(s, e);
    if e.TaskTimer? {
      ReleaseEnds(s, e.tsk, E_OK);
      ReleaseEnds(s, e.tsk, E_TMOUT);
    }
  }

  lemma TopIn(s: State, e: Event)
    requires s.cfg.time.Ok() && IsTop(s, e)
    ensures e in s.pending
  {
  }

  lemma ReleaseEnds(s: State, t: TaskId, ercd: Ercd)
    requires t < |s.tcb|
    ensures var s' := IntEnd(s, Result(Release(s, t, ercd), Returns(E_OK))).s;
      |s'.tcb| == |s.tcb| && !s'.tcb[t].tstat.waiting && s'.tcb[t].winfo == Wercd(ercd) && TaskTimer(t) !in s'.pending
  {
    hide Enter, Leave, Sched;
  }
}
