/**
 What happens while a tick is processed: due time events fire one by one, and after each
 callback interrupt handlers may call the kernel.
 */
module Drain {
  import opened HeapLinks
  import opened SystemTime
  import opened KernelState
  import opened KernelSpec
  import opened KernelRuns
  import opened Ticks

  /** What an interrupt handler may call. */
  predicate IntOp(op: Op) {
    match op
    case OpIActTsk(_) => true
    case OpIWupTsk(_) => true
    case OpIRelWai(_) => true
    case OpIRotRdq(_) => true
    case OpStaAlm(_, _, fromInt) => fromInt
    case OpStpAlm(_, fromInt) => fromInt
    case OpIEndWaits(_) => true
    case _ => false
  }

  /** A turn of the loop, or a call let in after it. */
  predicate TickOp(op: Op) {
    op.OpFire? || IntOp(op)
  }

  ghost predicate TickOps(ops: seq<Op>) {
    forall i :: 0 <= i < |ops| ==> TickOp(ops[i])
  }

  /** From `s` to `s'` no time event is new but alarms in the future. */
  ghost predicate Calm(s: State, s': State)
    requires s.cfg.time.Ok()
  {
    && s'.cfg == s.cfg && s'.ticks == s.ticks && s'.ticking == s.ticking && s'.intctx == s.intctx
    && forall e :: e in s'.pending ==>
      || (e in s.pending && s'.pending[e] == s.pending[e])
      || (e.AlmTimer? && TickTime(s.cfg.time, s.ticks) < s'.pending[e].time)
  }

  lemma NothingNew(s: State)
    requires s.cfg.time.Ok()
    ensures Calm(s, s)
  {
  }

  lemma StillCalm(s: State, s1: State, s2: State)
    requires s.cfg.time.Ok() && Calm(s, s1) && Calm(s1, s2)
    ensures Calm(s, s2)
  {
  }

  lemma EndCalm(s: State)
    requires s.cfg.time.Ok()
    ensures forall r: Result {:trigger IntEnd(s, r)} :: Calm(s, r.s) ==> Calm(s, IntEnd(s, r).s)
  {
    hide Sched, TickTime;
  }

  lemma ReleaseCalm(s: State, t: TaskId, ercd: Ercd)
    requires s.cfg.time.Ok() && t < |s.tcb|
    ensures Calm(s, Release(s, t, ercd)) && |Release(s, t, ercd).tcb| == |s.tcb|
  {
    hide Enter, Leave, TickTime;
  }

  lemma ActivateCalm(s: State, t: TaskId)
    requires s.cfg.time.Ok() && t < |s.tcb|
    ensures Calm(s, Activate(s, t).s)
  {
    hide Rehome, Retag, Calm;
    NothingNew(s);
    RehomeCalm(s, t, s.tcb[t].(tstat := TS_RUNNABLE));
    RehomeCalm(s, t, s.tcb[t].(actque := true));
  }

  lemma RehomeCalm(s: State, t: TaskId, c: Tcb)
    requires s.cfg.time.Ok() && t < |s.tcb|
    ensures Calm(s, Rehome(s, t, c)) && Calm(s, Retag(s, t, c))
  {
    hide Enter, Leave, TickTime;
  }

  lemma WakeupCalm(s: State, t: TaskId)
    requires s.cfg.time.Ok() && t < |s.tcb|
    ensures Calm(s, Wakeup(s, t).s) && Calm(s, BreakWait(s, t).s)
  {
    hide Release, Retag, TickTime, Calm;
    NothingNew(s);
    ReleaseCalm(s, t, E_OK);
    ReleaseCalm(s, t, E_RLWAI);
    RehomeCalm(s, t, s.tcb[t].(wupque := true));
  }

  lemma AlarmCalm(s: State, a: nat, almtim: nat)
    requires s.cfg.time.Ok() && a < |s.alm|
    ensures Calm(s, StartAlarm(s, a, almtim)) && Calm(s, StopAlarm(s, a))
  {
    hide TickTime, BaseTime;
    BaseBounds(s.cfg.time, s.ticks);
  }

  lemma RotateCalm(s: State, pri: nat)
    requires s.cfg.time.Ok()
    ensures Calm(s, RotateReady(s, pri))
  {
    hide TickTime;
  }

  lemma {:induction false} IEndWaitsCalm(s: State, ts: seq<TaskId>)
    requires s.cfg.time.Ok() && AllTasks(ts, |s.tcb|)
    ensures Calm(s, IEndWaits(s, ts))
    decreases |ts|
  {
    hide Release, Calm, Sched;
    NothingNew(s);
    if ts != [] {
      var s1 := IntEnd(s, Result(Release(s, ts[0], E_OK), Returns(E_OK))).s;
      ReleaseCalm(s, ts[0], E_OK);
      EndCalm(s);
      CalmTime(s, s1);
      IEndWaitsCalm(s1, ts[1..]);
      StillCalm(s, s1, IEndWaits(s1, ts[1..]));
    }
  }

  lemma CalmTime(s: State, s': State)
    requires s.cfg.time.Ok() && Calm(s, s')
    ensures s'.cfg == s.cfg && s'.ticks == s.ticks && s'.ticking == s.ticking && s'.intctx == s.intctx
  {
  }

  /** What interrupt handlers call registers nothing that is due. */
  lemma IntOpCalm(s: State, op: Op)
    requires Inv(s) && Enabled(s, op) && IntOp(op)
    ensures Calm(s, Do(s, op))
  {
    hide Calm, Inv, ShapeOk, IntEnd, Activate, Wakeup, BreakWait, RotateReady, StartAlarm, StopAlarm, IEndWaits, TickTime;
    Waits(s, op);
    NothingNew(s);
    EndCalm(s);
    match op
    case OpIActTsk(tskid) =>
      if Target(s, tskid, false).Some? {
        ActivateCalm(s, Target(s, tskid, false).value);
      }
    case OpIWupTsk(tskid) =>
      if Target(s, tskid, false).Some? {
        WakeupCalm(s, Target(s, tskid, false).value);
      }
    case OpIRelWai(tskid) =>
      if Target(s, tskid, false).Some? {
        WakeupCalm(s, Target(s, tskid, false).value);
      }
    case OpIRotRdq(tskpri) =>
      if tskpri >= 1 {
        RotateCalm(s, tskpri - 1);
      }
    case OpStaAlm(almid, almtim, _) =>
      if 1 <= almid <= |s.alm| {
        AlarmCalm(s, almid - 1, almtim);
      }
    case OpStpAlm(almid, _) =>
      if 1 <= almid <= |s.alm| {
        AlarmCalm(s, almid - 1, 0);
      }
    case OpIEndWaits(ts) => IEndWaitsCalm(s, ts);
  }

  /** One turn of the loop takes `e` out; a cyclic handler comes back later. */
  ghost predicate Turn(s: State, s': State, e: Event)
    requires s.cfg.time.Ok() && e in s.pending
  {
    && s'.cfg == s.cfg && s'.ticks == s.ticks && s'.ticking == s.ticking && s'.intctx == s.intctx
    && (forall x :: x != e ==> (x in s'.pending <==> x in s.pending) && (x in s.pending ==> s'.pending[x] == s.pending[x]))
    && (e in s'.pending ==> e.CycTimer? && s.pending[e].time < s'.pending[e].time)
  }

  lemma ReleaseTurn(s: State, t: TaskId, ercd: Ercd)
    requires s.cfg.time.Ok() && t < |s.tcb| && TaskTimer(t) in s.pending
    ensures Turn(s, Release(s, t, ercd), TaskTimer(t))
    ensures Turn(s, IntEnd(s, Result(Release(s, t, ercd), Returns(E_OK))).s, TaskTimer(t))
  {
    hide Enter, Leave, Sched;
  }

  lemma FireTurn(s: State, e: Event)
    requires Inv(s) && s.ticking && s.cfg.time.Ok() && IsTop(s, e)
    ensures Turn(s, Fire(s, e), e)
  {
    hide CoreOk, DispatchOk, Release, IntEnd, Turn;
    CallbackIs(s, e);
    match e
    case TaskTimer(t) =>
      ReleaseTurn(s, t, E_OK);
      ReleaseTurn(s, t, E_TMOUT);
    case _ => HandlerTurn(s, e);
  }

  lemma HandlerTurn(s: State, e: Event)
    requires s.cfg.time.Ok() && e in s.pending && !e.TaskTimer?
    requires s.pending[e].callback == CallbackOf(s.tcb, e) && Armed(s.tcb, s.cyc, s.alm, e)
    requires e.CycTimer? ==> e.cyc < |s.cfg.cyctim| && s.cfg.cyctim[e.cyc] > 0
    ensures Turn(s, Fire(s, e), e)
  {
    hide Release, IntEnd;
  }

  // ----- the whole loop -----

  /** The times of all events that fire, in the order in which they do. */
  ghost function FireTimes(s: State, ops: seq<Op>, s': State): seq<nat>
    requires Run(s, ops, s')
    decreases |ops|
  {
    if ops == [] then []
    else (if ops[0].OpFire? then [s.pending[ops[0].e].time] else []) + FireTimes(Do(s, ops[0]), ops[1..], s')
  }

  /** Nothing earlier than `low` is registered. */
  ghost predicate NoneBefore(s: State, low: nat) {
    forall e :: e in s.pending ==> low <= s.pending[e].time
  }

  /** Times in order, from `low` to `high`. */
  ghost predicate InOrder(f: seq<nat>, low: nat, high: nat) {
    && (forall i :: 0 <= i < |f| ==> low <= f[i] <= high)
    && (forall i, j :: 0 <= i < j < |f| ==> f[i] <= f[j])
  }

  lemma NoTimes(low: nat, high: nat)
    ensures InOrder([], low, high)
  {
  }

  /** What comes before a sequence in order, and is not greater, is the first of one. */
  lemma FirstIsLeast(t: nat, f: seq<nat>, low: nat, high: nat)
    requires low <= t <= high && InOrder(f, t, high)
    ensures InOrder([t] + f, low, high)
  {
    var g := [t] + f;
    forall i, j | 0 <= i < j < |g|
      ensures g[i] <= g[j]
    {
      assert g[j] == f[j - 1] && (i > 0 ==> g[i] == f[i - 1]);
    }
  }

  lemma FireTimesStep(s: State, ops: seq<Op>, s': State)
    requires Run(s, ops, s')
    ensures ops == [] ==> FireTimes(s, ops, s') == []
    ensures ops != [] ==>
      var rest := FireTimes(Do(s, ops[0]), ops[1..], s');
      if ops[0].OpFire? then ops[0].e in s.pending && FireTimes(s, ops, s') == [s.pending[ops[0].e].time] + rest
      else FireTimes(s, ops, s') == rest
  {
    hide ShapeOk, Do, TickTime;
    if ops != [] {
      assert [] + FireTimes(Do(s, ops[0]), ops[1..], s') == FireTimes(Do(s, ops[0]), ops[1..], s');
    }
  }

  /** Events fire in the order of their times, and only when they are due. */
  lemma FiresInOrder(s: State, ops: seq<Op>, s': State, low: nat)
    requires Inv(s) && s.ticking && s.cfg.time.Ok() && Run(s, ops, s') && TickOps(ops)
    requires NoneBefore(s, low) && low <= TickTime(s.cfg.time, s.ticks)
    ensures var f := FireTimes(s, ops, s');
      && (forall i :: 0 <= i < |f| ==> low <= f[i] <= TickTime(s.cfg.time, s.ticks))
      && (forall i, j :: 0 <= i < j < |f| ==> f[i] <= f[j])
  {
    hide Inv, Run, TickOps, NoneBefore, TickTime, FireTimes;
    TimesInOrder(s, ops, s', low);
  }

  lemma {:induction false} TimesInOrder(s: State, ops: seq<Op>, s': State, low: nat)
    requires Inv(s) && s.ticking && s.cfg.time.Ok() && Run(s, ops, s') && TickOps(ops)
    requires NoneBefore(s, low) && low <= TickTime(s.cfg.time, s.ticks)
    ensures InOrder(FireTimes(s, ops, s'), low, TickTime(s.cfg.time, s.ticks))
    decreases |ops|
  {
    hide Inv, ShapeOk, Enabled, Do, TickTime, Calm, NoneBefore, FireTimes, Turn, IsTop, InOrder, TickOps, TickOp;
    FireTimesStep(s, ops, s');
    if ops == [] {
      NoTimes(low, TickTime(s.cfg.time, s.ticks));
    } else {
      var op := ops[0];
      var s1 := Do(s, op);
      OpsGoOn(ops);
      if op.OpFire? {
        FireLow(s, op.e, low);
        var t := s.pending[op.e].time;
        TimesInOrder(s1, ops[1..], s', t);
        FirstIsLeast(t, FireTimes(s1, ops[1..], s'), low, TickTime(s.cfg.time, s.ticks));
      } else {
        CallLow(s, op, low);
        TimesInOrder(s1, ops[1..], s', low);
      }
    }
  }

  lemma OpsGoOn(ops: seq<Op>)
    requires TickOps(ops) && ops != []
    ensures TickOp(ops[0]) && (!ops[0].OpFire? ==> IntOp(ops[0])) && TickOps(ops[1..])
  {
    assert forall i :: 0 <= i < |ops[1..]| ==> ops[1..][i] == ops[i + 1];
  }

  /** A turn of the loop: what is left is not earlier than what fires. */
  lemma FireLow(s: State, e: Event, low: nat)
    requires Inv(s) && s.ticking && s.cfg.time.Ok() && ShapeOk(s) && Enabled(s, OpFire(e)) && NoneBefore(s, low)
    ensures e in s.pending && low <= s.pending[e].time <= TickTime(s.cfg.time, s.ticks)
    ensures var s1 := Do(s, OpFire(e));
      && Inv(s1) && s1.ticking && s1.cfg == s.cfg && s1.ticks == s.ticks && NoneBefore(s1, s.pending[e].time)
  {
    hide Inv, ShapeOk, Do, TickTime, NoneBefore;
    StepKeeps(s, OpFire(e));
    FireIsDo(s, e);
    FireTurn(s, e);
    TurnLow(s, Do(s, OpFire(e)), e);
    LowIs(s, low, e);
  }

  /** A call let in: nothing earlier comes up. */
  lemma CallLow(s: State, op: Op, low: nat)
    requires Inv(s) && s.ticking && s.cfg.time.Ok() && ShapeOk(s) && Enabled(s, op) && IntOp(op)
    requires NoneBefore(s, low) && low <= TickTime(s.cfg.time, s.ticks)
    ensures var s1 := Do(s, op);
      && Inv(s1) && s1.ticking && s1.cfg == s.cfg && s1.ticks == s.ticks && NoneBefore(s1, low)
  {
    hide Inv, ShapeOk, Enabled, Do, TickTime, NoneBefore, Calm;
    StepKeeps(s, op);
    IntOpCalm(s, op);
    CalmTime(s, Do(s, op));
    CalmLow(s, Do(s, op), low);
  }

  lemma LowIs(s: State, low: nat, e: Event)
    requires NoneBefore(s, low) && e in s.pending
    ensures low <= s.pending[e].time
  {
  }

  lemma TurnLow(s: State, s': State, e: Event)
    requires s.cfg.time.Ok() && IsTop(s, e) && Turn(s, s', e)
    ensures NoneBefore(s', s.pending[e].time)
  {
  }

  lemma CalmLow(s: State, s': State, low: nat)
    requires s.cfg.time.Ok() && Calm(s, s') && NoneBefore(s, low) && low <= TickTime(s.cfg.time, s.ticks)
    ensures NoneBefore(s', low)
  {
  }

  /** `e`, as registered in `s`, fires in the run, or a call let in cancels or restarts it. */
  ghost predicate FiredOrCancelled(s: State, ops: seq<Op>, s': State, e: Event)
    requires Run(s, ops, s') && e in s.pending
    decreases |ops|
  {
    && ops != []
    && var s1 := Do(s, ops[0]);
      || ops[0] == OpFire(e)
      || (IntOp(ops[0]) && !(e in s1.pending && s1.pending[e] == s.pending[e]))
      || (e in s1.pending && s1.pending[e] == s.pending[e] && FiredOrCancelled(s1, ops[1..], s', e))
  }

  /** When the loop ends, every event that was due has fired or was cancelled. */
  lemma {:induction false} EveryDueEventFires(s: State, ops: seq<Op>, s': State, e: Event)
    requires Inv(s) && s.ticking && s.cfg.time.Ok() && Run(s, ops, s') && TickOps(ops)
    requires e in s.pending && s.pending[e].time <= TickTime(s.cfg.time, s.ticks)
    requires forall x :: x in s'.pending ==> TickTime(s.cfg.time, s.ticks) < s'.pending[x].time
    ensures FiredOrCancelled(s, ops, s', e)
    decreases |ops|
  {
    hide Inv, ShapeOk, Enabled, Do, TickTime, Calm;
    if ops != [] {
      var op := ops[0];
      var s1 := Do(s, op);
      StepKeeps(s, op);
      assert forall i :: 0 <= i < |ops[1..]| ==> ops[1..][i] == ops[i + 1];
      if op.OpFire? {
        FireIsDo(s, op.e);
        FireTurn(s, op.e);
        if op.e != e {
          EveryDueEventFires(s1, ops[1..], s', e);
        }
      } else {
        IntOpCalm(s, op);
        CalmTime(s, s1);
        if e in s1.pending && s1.pending[e] == s.pending[e] {
          EveryDueEventFires(s1, ops[1..], s', e);
        }
      }
    }
  }

  /** What is not due when the loop starts, or has fired in it, does not fire, unless it is cyclic. */
  lemma {:induction false} NotDueDoesNotFire(s: State, ops: seq<Op>, s': State, e: Event)
    requires Inv(s) && s.ticking && s.cfg.time.Ok() && Run(s, ops, s') && TickOps(ops)
    requires !e.CycTimer? && (e in s.pending ==> TickTime(s.cfg.time, s.ticks) < s.pending[e].time)
    ensures Fires(s, ops, s', e) == []
    decreases |ops|
  {
    hide Inv, ShapeOk, Enabled, Do, TickTime;
    if ops != [] {
      var op := ops[0];
      var s1 := Do(s, op);
      StepKeeps(s, op);
      assert forall i :: 0 <= i < |ops[1..]| ==> ops[1..][i] == ops[i + 1];
      if op.OpFire? {
        FireIsDo(s, op.e);
        FireTurn(s, op.e);
      } else {
        IntOpCalm(s, op);
      }
      NotDueDoesNotFire(s1, ops[1..], s', e);
    }
  }

  /** A task's timeout and an alarm fire at most once in a tick. */
  lemma {:induction false} FiresOnce(s: State, ops: seq<Op>, s': State, e: Event)
    requires Inv(s) && s.ticking && s.cfg.time.Ok() && Run(s, ops, s') && TickOps(ops) && !e.CycTimer?
    ensures |Fires(s, ops, s', e)| <= 1
    decreases |ops|
  {
    hide Inv, ShapeOk, Enabled, Do, TickTime, Calm;
    if ops != [] {
      var op := ops[0];
      var s1 := Do(s, op);
      StepKeeps(s, op);
      assert forall i :: 0 <= i < |ops[1..]| ==> ops[1..][i] == ops[i + 1];
      if op.OpFire? {
        FireIsDo(s, op.e);
        FireTurn(s, op.e);
        if op.e == e {
          NotDueDoesNotFire(s1, ops[1..], s', e);
        } else {
          FiresOnce(s1, ops[1..], s', e);
        }
      } else {
        IntOpCalm(s, op);
        CalmTime(s, s1);
        FiresOnce(s1, ops[1..], s', e);
      }
    }
  }

  /** The loop does not touch the clock. */
  lemma {:induction false} StillTicking(s: State, ops: seq<Op>, s': State)
    requires Inv(s) && s.ticking && s.cfg.time.Ok() && Run(s, ops, s') && TickOps(ops)
    ensures Inv(s') && s'.ticking && s'.intctx == s.intctx && s'.cfg == s.cfg && s'.ticks == s.ticks
    decreases |ops|
  {
    hide Inv, ShapeOk, Enabled, Do, TickTime, Calm;
    if ops != [] {
      var s1 := Do(s, ops[0]);
      StepKeeps(s, ops[0]);
      assert forall i :: 0 <= i < |ops[1..]| ==> ops[1..][i] == ops[i + 1];
      if ops[0].OpFire? {
        FireIsDo(s, ops[0].e);
        FireTurn(s, ops[0].e);
      } else {
        IntOpCalm(s, ops[0]);
        CalmTime(s, s1);
      }
      StillTicking(s1, ops[1..], s');
    }
  }
}
