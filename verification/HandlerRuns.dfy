/**
 When alarm and cyclic handlers are registered: from their start to their stop, or to the call
 of an alarm handler, and never else. Over runs: a stopped handler is not called.
 */
module HandlerRuns {
  import opened HeapLinks
  import opened SystemTime
  import opened KernelState
  import opened KernelSpec
  import opened KernelRuns
  import opened Ticks
  import opened TaskFates

  /** A call that starts the handler of `e` is accepted. */
  predicate StartsHandler(s: State, op: Op, e: Event)
    requires ShapeOk(s) && Enabled(s, op)
  {
    && OutcomeOf(s, op) == Returns(E_OK)
    && match e
       case CycTimer(c) => op.OpStaCyc? && op.cycid == c + 1
       case AlmTimer(a) => op.OpStaAlm? && op.almid == a + 1
       case TaskTimer(_) => false
  }

  predicate StopsHandler(s: State, op: Op, e: Event)
    requires ShapeOk(s) && Enabled(s, op)
  {
    && OutcomeOf(s, op) == Returns(E_OK)
    && match e
       case CycTimer(c) => op.OpStpCyc? && op.cycid == c + 1
       case AlmTimer(a) => op.OpStpAlm? && op.almid == a + 1
       case TaskTimer(_) => false
  }

  /** cycsta or almsta of the handler. */
  predicate IsOn(s: State, e: Event) {
    match e
    case CycTimer(c) => c < |s.cyc| && s.cyc[c]
    case AlmTimer(a) => a < |s.alm| && s.alm[a]
    case TaskTimer(_) => false
  }

  lemma OnIff(s: State, e: Event)
    requires Inv(s) && !e.TaskTimer?
    ensures e in s.pending <==> IsOn(s, e)
  {
    hide QueuesOk, Sorted, ClockOk, DispatchOk;
    assert e in s.pending <==> Armed(s.tcb, s.cyc, s.alm, e);
  }

  lemma CyclicStep(s: State, op: Op, c: nat)
    requires Inv(s) && ShapeOk(s) && Enabled(s, op) && Verdict(s, op) == E_OK && (op.OpStaCyc? || op.OpStpCyc?) && op.cycid == c + 1
    ensures CycTimer(c) in Do(s, op).pending <==> op.OpStaCyc?
  {
    hide Inv, QueueNames, BaseTime;
  }

  lemma AlarmStep(s: State, op: Op, a: nat)
    requires Inv(s) && ShapeOk(s) && Enabled(s, op) && Verdict(s, op) == E_OK && (op.OpStaAlm? || op.OpStpAlm?) && op.almid == a + 1
    ensures AlmTimer(a) in Do(s, op).pending <==> op.OpStaAlm?
  {
    hide Inv, QueueNames, BaseTime;
  }

  lemma FiredIs(s: State, e: Event)
    requires Inv(s) && ShapeOk(s) && Enabled(s, OpFire(e)) && !e.TaskTimer?
    ensures e in s.pending
    ensures e in Do(s, OpFire(e)).pending <==> e.CycTimer?
  {
    hide CoreOk, DispatchOk, QueueNames;
    FireIsDo(s, e);
    CallbackIs(s, e);
    Waits(s, OpFire(e));
  }

  /** A handler is on, and its time event registered, if and only if it has just been started, or
      was on and neither is stopped nor is an alarm handler that is called now. */
  lemma RegisteredIff(s: State, op: Op, e: Event)
    requires Inv(s) && Enabled(s, op) && !e.TaskTimer?
    ensures ShapeOk(s) && Inv(Do(s, op))
    ensures var s' := Do(s, op);
      && (e in s'.pending <==> IsOn(s', e))
      && (IsOn(s', e) <==>
        StartsHandler(s, op, e) || (IsOn(s, e) && !StopsHandler(s, op, e) && !(op == OpFire(e) && e.AlmTimer?)))
  {
    hide Inv, ShapeOk, Enabled, Do, OutcomeOf, IsOn, StartsHandler, StopsHandler;
    InvShape(s);
    StepKeeps(s, op);
    OnIff(s, e);
    OnIff(Do(s, op), e);
    if op == OpFire(e) {
      FiredIs(s, e);
      FireIsDo(s, e);
      NeitherCall(s, op, e);
    } else if Concerns(s, op, e) {
      HandlerOp(s, op, e);
      HandlerCallStep(s, op, e);
    } else if op.OpTickStart? {
      TickStarts(s);
      NeitherCall(s, op, e);
    } else {
      StepKept(s, op, e);
      NeitherCall(s, op, e);
    }
  }

  lemma HandlerCallStep(s: State, op: Op, e: Event)
    requires Inv(s) && ShapeOk(s) && Enabled(s, op) && Accepted(s, op) == Returns(E_OK)
    requires e.CycTimer? ==> (op.OpStaCyc? || op.OpStpCyc?) && op.cycid == e.cyc + 1
    requires e.AlmTimer? ==> (op.OpStaAlm? || op.OpStpAlm?) && op.almid == e.alm + 1
    requires !e.TaskTimer?
    ensures e in Do(s, op).pending <==> StartsHandler(s, op, e) || (e in s.pending && !StopsHandler(s, op, e))
  {
    hide Inv, ShapeOk, Enabled, Do, OutcomeOf, Verdict;
    RefusedExactly(s, op);
    if Verdict(s, op) == E_OK {
      if e.CycTimer? {
        CyclicStep(s, op, e.cyc);
      } else {
        AlarmStep(s, op, e.alm);
      }
    }
  }

  lemma NeitherCall(s: State, op: Op, e: Event)
    requires ShapeOk(s) && Enabled(s, op) && (op == OpFire(e) || !Concerns(s, op, e))
    ensures !StartsHandler(s, op, e) && !StopsHandler(s, op, e)
  {
    hide ShapeOk, Enabled, OutcomeOf;
  }

  /** Only the calls on a handler concern its time event. */
  lemma HandlerOp(s: State, op: Op, e: Event)
    requires Concerns(s, op, e) && op != OpFire(e) && !e.TaskTimer?
    ensures e.CycTimer? ==> (op.OpStaCyc? || op.OpStpCyc?) && op.cycid == e.cyc + 1
    ensures e.AlmTimer? ==> (op.OpStaAlm? || op.OpStpAlm?) && op.almid == e.alm + 1
    ensures Accepted(s, op) == Returns(E_OK)
  {
  }

  // ----- runs -----

  /** No step of the run starts the handler of `e`. */
  ghost predicate NotStarted(s: State, ops: seq<Op>, s': State, e: Event)
    requires Run(s, ops, s')
    decreases |ops|
  {
    ops != [] ==> !StartsHandler(s, ops[0], e) && NotStarted(Do(s, ops[0]), ops[1..], s', e)
  }

  /** A handler that is not on is not called, and stays off, until it is started. */
  lemma {:induction false} OffStaysOff(s: State, ops: seq<Op>, s': State, e: Event)
    requires Inv(s) && Run(s, ops, s') && !e.TaskTimer? && !IsOn(s, e) && NotStarted(s, ops, s', e)
    ensures Inv(s') && !IsOn(s', e) && e !in s'.pending && Fires(s, ops, s', e) == []
    decreases |ops|
  {
    hide Inv, ShapeOk, Enabled, Do, IsOn, StartsHandler;
    OnIff(s, e);
    if ops != [] {
      RegisteredIff(s, ops[0], e);
      if ops[0] == OpFire(e) {
        FireIsDo(s, e);
      }
      OffStaysOff(Do(s, ops[0]), ops[1..], s', e);
    }
  }

  /** From stp_cyc or stp_alm on, whatever else happens, the handler is not called until it is
      started again. */
  lemma StoppedIsSilent(s: State, op: Op, e: Event, ops: seq<Op>, s': State)
    requires Inv(s) && Enabled(s, op) && !e.TaskTimer? && ShapeOk(s) && StopsHandler(s, op, e)
    requires Run(Do(s, op), ops, s') && NotStarted(Do(s, op), ops, s', e)
    ensures !IsOn(Do(s, op), e) && !IsOn(s', e) && e !in s'.pending && Fires(Do(s, op), ops, s', e) == []
  {
    hide Inv, ShapeOk, Enabled, Do, IsOn, Run, NotStarted;
    RegisteredIff(s, op, e);
    OneOrOther(s, op, e);
    OffStaysOff(Do(s, op), ops, s', e);
  }

  lemma OneOrOther(s: State, op: Op, e: Event)
    requires ShapeOk(s) && Enabled(s, op)
    ensures !(StartsHandler(s, op, e) && StopsHandler(s, op, e))
  {
    hide OutcomeOf, ShapeOk, Enabled;
  }

  /** An alarm handler is called at most once for each time that it is started; and it is off after that. */
  lemma {:induction false} AlarmOnce(s: State, ops: seq<Op>, s': State, a: nat)
    requires Inv(s) && Run(s, ops, s') && NotStarted(s, ops, s', AlmTimer(a))
    ensures |Fires(s, ops, s', AlmTimer(a))| <= 1
    ensures Fires(s, ops, s', AlmTimer(a)) != [] ==> IsOn(s, AlmTimer(a)) && !IsOn(s', AlmTimer(a))
    decreases |ops|
  {
    hide Inv, ShapeOk, Enabled, Do, IsOn, StartsHandler, StopsHandler;
    var e := AlmTimer(a);
    if ops != [] {
      RegisteredIff(s, ops[0], e);
      if ops[0] == OpFire(e) {
        FireIsDo(s, e);
        OnIff(s, e);
        OffStaysOff(Do(s, ops[0]), ops[1..], s', e);
      } else {
        AlarmOnce(Do(s, ops[0]), ops[1..], s', a);
        if !IsOn(s, e) {
          OffStaysOff(s, ops, s', e);
        }
      }
    }
  }
}
