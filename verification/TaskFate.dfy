/**
 The service calls, read the other way round: not what a call does, but which calls are refused
 and with which error code, and what each step makes of each field of each task's control block.
 */
module TaskFates {
  import opened Common
  import opened HeapLinks
  import opened SystemTime
  import opened KernelState
  import opened KernelSpec
  import opened KernelRuns
  import opened WaitSteps

  // ----- which calls are refused -----

  /** Calls that come from interrupt handlers. */
  predicate FromInt(op: Op) {
    match op
    case OpStaAlm(_, _, fromInt) => fromInt
    case OpStpAlm(_, fromInt) => fromInt
    case _ => op.OpIActTsk? || op.OpIWupTsk? || op.OpIRelWai? || op.OpIRotRdq?
  }

  /** Steps that are no service calls, or the part of one that nothing can refuse any more. */
  predicate NoCall(op: Op) {
    op.OpWaitOn? || op.OpEndWaits? || op.OpIEndWaits? || op.OpEnterInt? || op.OpExitInt? || op.OpTickStart? || op.OpFire? || op.OpTickEnd?
  }

  /** E_CTX: a task's call from a handler or the other way round; a call that may wait while
      dispatching is disabled. */
  predicate WrongContext(s: State, op: Op) {
    if NoCall(op) then false
    else if FromInt(op) then !s.intctx
    else
      || s.intctx || s.runtsk.None? || s.runtsk.value >= |s.tcb|
      || (!s.dspflg && (op.OpTslpTsk? || op.OpDlyTsk? || (op.OpSusTsk? && NamesTask(s, op, s.runtsk.value))))
  }

  /** Calls on a task, where 0 means the calling task. */
  predicate OnTaskOrSelf(op: Op) {
    op.OpActTsk? || op.OpCanAct? || op.OpChgPri? || op.OpWupTsk? || op.OpCanWup? || op.OpSusTsk?
  }

  /** Calls on a task, where 0 means nobody. */
  predicate OnOtherTask(op: Op) {
    op.OpIActTsk? || op.OpTerTsk? || op.OpIWupTsk? || op.OpRelWai? || op.OpIRelWai? || op.OpRsmTsk?
  }

  /** The call is on the task `t`. */
  predicate NamesTask(s: State, op: Op, t: TaskId) {
    || ((OnTaskOrSelf(op) || OnOtherTask(op)) && op.tskid == t + 1)
    || (OnTaskOrSelf(op) && op.tskid == 0 && s.runtsk == Some(t))
  }

  /** E_ID. */
  predicate WrongId(s: State, op: Op) {
    || (OnTaskOrSelf(op) && !(0 <= op.tskid <= |s.tcb|))
    || (OnOtherTask(op) && !(1 <= op.tskid <= |s.tcb|))
    || ((op.OpStaAlm? || op.OpStpAlm?) && !(1 <= op.almid <= |s.alm|))
    || ((op.OpStaCyc? || op.OpStpCyc?) && !(1 <= op.cycid <= |s.cyc|))
  }

  /** E_PAR. */
  predicate WrongParameter(s: State, op: Op) {
    match op
    case OpChgPri(_, tskpri) => tskpri < 0 || tskpri > TNUM_TPRI
    case OpRotRdq(tskpri) => tskpri < 0 || tskpri > TNUM_TPRI
    case OpIRotRdq(tskpri) => tskpri < 1 || tskpri > TNUM_TPRI
    case OpTslpTsk(tmout) => tmout < -1
    case OpDlyTsk(dlytim) => dlytim > s.cfg.time.tmax
    case OpStaAlm(_, almtim, _) => almtim > s.cfg.time.tmax
    case _ => false
  }

  /** The task that a call is on. */
  function Named(s: State, op: Op): TaskId {
    if (OnTaskOrSelf(op) || OnOtherTask(op)) && op.tskid > 0 then op.tskid - 1
    else if s.runtsk.Some? then s.runtsk.value
    else 0
  }

  /** What the state of the task `t`, whose control block is `c`, has against the call. */
  function Objection(s: State, op: Op, t: TaskId, c: Tcb): Ercd {
    match op
    case OpActTsk(_) => if !c.tstat.Dormant() && c.actque then E_QOVR else E_OK
    case OpIActTsk(_) => if !c.tstat.Dormant() && c.actque then E_QOVR else E_OK
    case OpTerTsk(_) => if s.runtsk == Some(t) then E_ILUSE else if c.tstat.Dormant() then E_OBJ else E_OK
    case OpChgPri(_, _) => if c.tstat.Dormant() then E_OBJ else E_OK
    case OpCanWup(_) => if c.tstat.Dormant() then E_OBJ else E_OK
    case OpWupTsk(_) => WakeupObjection(c)
    case OpIWupTsk(_) => WakeupObjection(c)
    case OpRelWai(_) => if c.tstat.waiting then E_OK else E_OBJ
    case OpIRelWai(_) => if c.tstat.waiting then E_OK else E_OBJ
    case OpSusTsk(_) => if c.tstat.Dormant() then E_OBJ else if c.tstat.suspended then E_QOVR else E_OK
    case OpRsmTsk(_) => if c.tstat.suspended then E_OK else E_OBJ
    case OpTslpTsk(tmout) => if tmout == 0 && !c.wupque then E_TMOUT else E_OK
    case _ => E_OK
  }

  /** One wakeup request can be queued, unless the task sleeps and takes it at once. */
  function WakeupObjection(c: Tcb): Ercd {
    if c.tstat.Dormant() then E_OBJ
    else if c.wupque && !(c.tstat.waiting && c.tstat.cause == SLP) then E_QOVR
    else E_OK
  }

  /** The error code of a call, or E_OK if it is not refused. */
  function Verdict(s: State, op: Op): Ercd {
    if WrongContext(s, op) then E_CTX
    else if WrongId(s, op) then E_ID
    else if WrongParameter(s, op) then E_PAR
    else if Named(s, op) < |s.tcb| then Objection(s, op, Named(s, op), s.tcb[Named(s, op)])
    else E_OK
  }

  /** How the step ends for its caller. */
  function OutcomeOf(s: State, op: Op): Outcome
    requires ShapeOk(s) && Enabled(s, op)
  {
    match op
    case OpActTsk(tskid) => ActTsk(s, tskid).out
    case OpIActTsk(tskid) => IActTsk(s, tskid).out
    case OpCanAct(tskid) => CanAct(s, tskid).out
    case OpExtTsk => ExtTsk(s).out
    case OpTerTsk(tskid) => TerTsk(s, tskid).out
    case OpChgPri(tskid, tskpri) => ChgPri(s, tskid, tskpri).out
    case OpTslpTsk(tmout) => TslpTsk(s, tmout).out
    case OpDlyTsk(dlytim) => DlyTsk(s, dlytim).out
    case OpWupTsk(tskid) => WupTsk(s, tskid).out
    case OpIWupTsk(tskid) => IWupTsk(s, tskid).out
    case OpCanWup(tskid) => CanWup(s, tskid).out
    case OpRelWai(tskid) => RelWai(s, tskid).out
    case OpIRelWai(tskid) => IRelWai(s, tskid).out
    case OpSusTsk(tskid) => SusTsk(s, tskid).out
    case OpRsmTsk(tskid) => RsmTsk(s, tskid).out
    case OpRotRdq(tskpri) => RotRdq(s, tskpri).out
    case OpIRotRdq(tskpri) => IRotRdq(s, tskpri).out
    case OpDisDsp => DisDsp(s).out
    case OpEnaDsp => EnaDsp(s).out
    case OpChgIpm(ena) => ChgIpm(s, ena).out
    case OpTexReturn(saved) => TexReturn(s, saved).out
    case OpStaAlm(almid, almtim, fromInt) => StaAlm(s, almid, almtim, fromInt).out
    case OpStpAlm(almid, fromInt) => StpAlm(s, almid, fromInt).out
    case OpStaCyc(cycid) => StaCyc(s, cycid).out
    case OpStpCyc(cycid) => StpCyc(s, cycid).out
    case OpWaitOn(q, tmout) => WaitOn(s, q, tmout).out
    case _ => Returns(E_OK)
  }

  /** The outcome of an accepted step. */
  function Accepted(s: State, op: Op): Outcome {
    match op
    case OpExtTsk => Blocks
    case OpDlyTsk(_) => Blocks
    case OpWaitOn(_, _) => Blocks
    case OpTslpTsk(_) => if Named(s, op) < |s.tcb| && s.tcb[Named(s, op)].wupque then Returns(E_OK) else Blocks
    case OpCanAct(_) => Count(if Named(s, op) < |s.tcb| && s.tcb[Named(s, op)].actque then 1 else 0)
    case OpCanWup(_) => Count(if Named(s, op) < |s.tcb| && s.tcb[Named(s, op)].wupque then 1 else 0)
    case _ => Returns(E_OK)
  }

  // ----- what becomes of a task -----

  /** The task `t` ends. */
  predicate Ends(s: State, op: Op, t: TaskId) {
    Verdict(s, op) == E_OK && ((op.OpExtTsk? && s.runtsk == Some(t)) || (op.OpTerTsk? && NamesTask(s, op, t)))
  }

  /** The error code with which the wait of `t` ends, if it does. */
  function WaitEnd(s: State, op: Op, t: TaskId): Option<Ercd>
    requires t < |s.tcb|
  {
    var c := s.tcb[t];
    if !c.tstat.waiting || Verdict(s, op) != E_OK then None
    else match op
      case OpWupTsk(_) => if c.tstat.cause == SLP && NamesTask(s, op, t) then Some(E_OK) else None
      case OpIWupTsk(_) => if c.tstat.cause == SLP && NamesTask(s, op, t) then Some(E_OK) else None
      case OpRelWai(_) => if NamesTask(s, op, t) then Some(E_RLWAI) else None
      case OpIRelWai(_) => if NamesTask(s, op, t) then Some(E_RLWAI) else None
      case OpFire(e) => if e == TaskTimer(t) then Some(if c.tstat.cause == DLY then E_OK else E_TMOUT) else None
      case OpEndWaits(ts, ercd) => if t in ts then Some(ercd) else None
      case OpIEndWaits(ts) => if t in ts then Some(E_OK) else None
      case _ => None
  }

  /** The cause for which the running task starts to wait, on which object, and how long. */
  function WaitStart(s: State, op: Op, t: TaskId): Option<(nat, nat, int)>
    requires t < |s.tcb|
  {
    if s.runtsk != Some(t) || Verdict(s, op) != E_OK then None
    else match op
      case OpTslpTsk(tmout) => if s.tcb[t].wupque then None else Some((SLP, s.tcb[t].wobj, tmout))
      case OpDlyTsk(dlytim) => Some((DLY, s.tcb[t].wobj, dlytim))
      case OpWaitOn(q, tmout) => if q.Wait? then Some((q.cause, q.id, tmout)) else None
      case _ => None
  }

  /** The call is accepted, and it is on `t`. */
  predicate Hits(s: State, op: Op, t: TaskId) {
    Verdict(s, op) == E_OK && NamesTask(s, op, t)
  }

  function NextTstat(s: State, op: Op, t: TaskId): Tstat
    requires t < |s.tcb|
  {
    var b := s.tcb[t].tstat;
    if WaitEnd(s, op, t).Some? then Tstat(!b.suspended, false, b.suspended, 0)
    else if WaitStart(s, op, t).Some? then Tstat(false, true, false, WaitStart(s, op, t).value.0)
    else if !Hits(s, op, t) then b
    else match op
      case OpActTsk(_) => if b.Dormant() then b.(runnable := true) else b
      case OpIActTsk(_) => if b.Dormant() then b.(runnable := true) else b
      case OpSusTsk(_) => b.(runnable := false, suspended := true)
      case OpRsmTsk(_) => b.(runnable := !b.waiting, suspended := false)
      case _ => b
  }

  /** Requests for activation and for wakeup. */
  function NextActque(s: State, op: Op, t: TaskId): bool
    requires t < |s.tcb|
  {
    if Hits(s, op, t) && (op.OpActTsk? || op.OpIActTsk?) then !s.tcb[t].tstat.Dormant()
    else if Hits(s, op, t) && op.OpCanAct? then false
    else s.tcb[t].actque
  }

  function NextWupque(s: State, op: Op, t: TaskId): bool
    requires t < |s.tcb|
  {
    if Hits(s, op, t) && (op.OpWupTsk? || op.OpIWupTsk?) then WaitEnd(s, op, t).None?
    else if Hits(s, op, t) && op.OpCanWup? then false
    else if op.OpTslpTsk? && s.runtsk == Some(t) && Verdict(s, op) == E_OK then false
    else s.tcb[t].wupque
  }

  function NextPriority(s: State, op: Op, t: TaskId): nat
    requires t < |s.tcb| == |s.cfg.ipriority|
  {
    match op
    case OpChgPri(_, tskpri) =>
      if !Hits(s, op, t) then s.tcb[t].priority
      else if 1 <= tskpri then tskpri - 1
      else s.cfg.ipriority[t]
    case _ => s.tcb[t].priority
  }

  function NextWinfo(s: State, op: Op, t: TaskId): Winfo
    requires t < |s.tcb|
  {
    if WaitEnd(s, op, t).Some? then Wercd(WaitEnd(s, op, t).value)
    else if WaitStart(s, op, t).Some? then
      Tmevtb(if WaitStart(s, op, t).value.2 > 0 || op.OpDlyTsk? then Some(TaskTimer(t)) else None)
    else s.tcb[t].winfo
  }

  /** What the step makes of the task `t`. */
  function Fate(s: State, op: Op, t: TaskId): Tcb
    requires t < |s.tcb| == |s.cfg.ipriority|
  {
    var c := s.tcb[t];
    if Ends(s, op, t) then Tcb(if c.actque then TS_RUNNABLE else TS_DORMANT, s.cfg.ipriority[t], false, false, c.winfo, c.wobj)
    else Tcb(NextTstat(s, op, t), NextPriority(s, op, t), NextActque(s, op, t), NextWupque(s, op, t), NextWinfo(s, op, t),
             if WaitStart(s, op, t).Some? then WaitStart(s, op, t).value.1 else c.wobj)
  }

  // ----- which calls are refused, proved -----

  /** Outside interrupt handlers there is nothing to dispatch between calls. */
  lemma NothingToDispatch(s: State)
    requires Inv(s)
    ensures !s.intctx ==> Dispatch(s) == s
  {
    hide CoreOk, Sched;
  }

  /** The result of the call is what Verdict and Accepted say. */
  predicate Judged(s: State, op: Op, r: Result) {
    if Verdict(s, op) == E_OK then r.out == Accepted(s, op) else r == Result(s, Returns(Verdict(s, op)))
  }

  /** Only waiting tasks have a cause to wait for; runnable ones neither wait nor are suspended. */
  lemma BitsFit(s: State)
    requires Inv(s)
    ensures forall t: nat :: t < |s.tcb| ==> var b := s.tcb[t].tstat;
      && (b.waiting && b.cause == SLP <==> b.WaitSlp()) && (b.runnable ==> !b.waiting && !b.suspended)
      && (!b.waiting ==> b.cause == 0) && (b.Dormant() ==> !s.tcb[t].actque)
  {
    hide QueuesOk, TimersOk, Sorted, ClockOk, DispatchOk;
    forall t: nat | t < |s.tcb|
      ensures var b := s.tcb[t].tstat;
        && (b.waiting && b.cause == SLP <==> b.WaitSlp()) && (b.runnable ==> !b.waiting && !b.suspended)
        && (!b.waiting ==> b.cause == 0) && (b.Dormant() ==> !s.tcb[t].actque)
    {
      assert TaskOk(s.cfg, t, s.tcb[t]);
    }
  }

  lemma ActJudged(s: State, tskid: int)
    requires Inv(s)
    ensures s.cfg.time.Ok() && ShapeOk(s) && Judged(s, OpActTsk(tskid), ActTsk(s, tskid))
  {
    hide CoreOk, Sched, Rehome;
    InvShape(s);
    NothingToDispatch(s);
  }

  lemma IActJudged(s: State, tskid: int)
    requires Inv(s)
    ensures s.cfg.time.Ok() && ShapeOk(s) && Judged(s, OpIActTsk(tskid), IActTsk(s, tskid))
  {
    hide CoreOk, Sched, Rehome;
    InvShape(s);
    NothingToDispatch(s);
  }

  lemma CanActJudged(s: State, tskid: int)
    requires Inv(s)
    ensures s.cfg.time.Ok() && ShapeOk(s) && Judged(s, OpCanAct(tskid), CanAct(s, tskid))
  {
    hide CoreOk, Sched;
    InvShape(s);
  }

  lemma TerJudged(s: State, tskid: int)
    requires Inv(s)
    ensures s.cfg.time.Ok() && ShapeOk(s) && Judged(s, OpTerTsk(tskid), TerTsk(s, tskid))
  {
    hide CoreOk, Sched, Terminate;
    InvShape(s);
    NothingToDispatch(s);
  }

  lemma ChgPriJudged(s: State, tskid: int, tskpri: int)
    requires Inv(s)
    ensures s.cfg.time.Ok() && ShapeOk(s) && Judged(s, OpChgPri(tskid, tskpri), ChgPri(s, tskid, tskpri))
  {
    hide CoreOk, Sched, ChangePriority;
    InvShape(s);
    NothingToDispatch(s);
  }

  lemma TslpJudged(s: State, tmout: int)
    requires Inv(s)
    ensures s.cfg.time.Ok() && ShapeOk(s) && Judged(s, OpTslpTsk(tmout), TslpTsk(s, tmout))
  {
    hide CoreOk, Sched, MakeWait;
    InvShape(s);
    NothingToDispatch(s);
  }

  lemma DlyJudged(s: State, dlytim: nat)
    requires Inv(s)
    ensures s.cfg.time.Ok() && ShapeOk(s) && Judged(s, OpDlyTsk(dlytim), DlyTsk(s, dlytim))
  {
    hide CoreOk, Sched, MakeWait;
    InvShape(s);
  }

  lemma WupJudged(s: State, tskid: int)
    requires Inv(s)
    ensures s.cfg.time.Ok() && ShapeOk(s) && Judged(s, OpWupTsk(tskid), WupTsk(s, tskid))
  {
    hide CoreOk, Sched, Release;
    InvShape(s);
    NothingToDispatch(s);
    BitsFit(s);
  }

  lemma IWupJudged(s: State, tskid: int)
    requires Inv(s)
    ensures s.cfg.time.Ok() && ShapeOk(s) && Judged(s, OpIWupTsk(tskid), IWupTsk(s, tskid))
  {
    hide CoreOk, Sched, Release;
    InvShape(s);
    NothingToDispatch(s);
    BitsFit(s);
  }

  lemma CanWupJudged(s: State, tskid: int)
    requires Inv(s)
    ensures s.cfg.time.Ok() && ShapeOk(s) && Judged(s, OpCanWup(tskid), CanWup(s, tskid))
  {
    hide CoreOk, Sched;
    InvShape(s);
  }

  lemma RelWaiJudged(s: State, tskid: int)
    requires Inv(s)
    ensures s.cfg.time.Ok() && ShapeOk(s) && Judged(s, OpRelWai(tskid), RelWai(s, tskid))
  {
    hide CoreOk, Sched, Release;
    InvShape(s);
    NothingToDispatch(s);
  }

  lemma IRelWaiJudged(s: State, tskid: int)
    requires Inv(s)
    ensures s.cfg.time.Ok() && ShapeOk(s) && Judged(s, OpIRelWai(tskid), IRelWai(s, tskid))
  {
    hide CoreOk, Sched, Release;
    InvShape(s);
    NothingToDispatch(s);
  }

  lemma SusJudged(s: State, tskid: int)
    requires Inv(s)
    ensures s.cfg.time.Ok() && ShapeOk(s) && Judged(s, OpSusTsk(tskid), SusTsk(s, tskid))
  {
    hide CoreOk, Sched, Rehome;
    InvShape(s);
    BitsFit(s);
    NothingToDispatch(s);
  }

  lemma RsmJudged(s: State, tskid: int)
    requires Inv(s)
    ensures s.cfg.time.Ok() && ShapeOk(s) && Judged(s, OpRsmTsk(tskid), RsmTsk(s, tskid))
  {
    hide CoreOk, Sched, Rehome;
    InvShape(s);
    NothingToDispatch(s);
  }

  lemma RotRdqJudged(s: State, tskpri: int)
    requires Inv(s)
    ensures s.cfg.time.Ok() && ShapeOk(s) && Judged(s, OpRotRdq(tskpri), RotRdq(s, tskpri))
  {
    hide CoreOk, Sched, RotateReady;
    InvShape(s);
    NothingToDispatch(s);
  }

  lemma IRotRdqJudged(s: State, tskpri: int)
    requires Inv(s)
    ensures s.cfg.time.Ok() && ShapeOk(s) && Judged(s, OpIRotRdq(tskpri), IRotRdq(s, tskpri))
  {
    hide CoreOk, Sched, RotateReady;
    InvShape(s);
    NothingToDispatch(s);
  }

  lemma StaAlmJudged(s: State, almid: int, almtim: nat, fromInt: bool)
    requires Inv(s)
    ensures s.cfg.time.Ok() && ShapeOk(s) && Judged(s, OpStaAlm(almid, almtim, fromInt), StaAlm(s, almid, almtim, fromInt))
  {
    hide CoreOk, Sched, StartAlarm;
    InvShape(s);
  }

  lemma StpAlmJudged(s: State, almid: int, fromInt: bool)
    requires Inv(s)
    ensures s.cfg.time.Ok() && ShapeOk(s) && Judged(s, OpStpAlm(almid, fromInt), StpAlm(s, almid, fromInt))
  {
    hide CoreOk, Sched, StopAlarm;
    InvShape(s);
  }

  lemma StaCycJudged(s: State, cycid: int)
    requires Inv(s)
    ensures s.cfg.time.Ok() && ShapeOk(s) && Judged(s, OpStaCyc(cycid), StaCyc(s, cycid))
  {
    hide CoreOk, Sched, BaseTime;
    InvShape(s);
  }

  lemma StpCycJudged(s: State, cycid: int)
    requires Inv(s)
    ensures s.cfg.time.Ok() && ShapeOk(s) && Judged(s, OpStpCyc(cycid), StpCyc(s, cycid))
  {
    hide CoreOk, Sched;
    InvShape(s);
  }

  lemma FlagsJudged(s: State)
    ensures Judged(s, OpDisDsp, DisDsp(s)) && Judged(s, OpEnaDsp, EnaDsp(s))
  {
    hide Dispatch;
  }

  lemma MaskJudged(s: State, ena: bool)
    ensures Judged(s, OpChgIpm(ena), ChgIpm(s, ena))
  {
    hide Dispatch;
  }

  lemma TexJudged(s: State, saved: bool)
    ensures Judged(s, OpTexReturn(saved), TexReturn(s, saved))
  {
    hide Dispatch;
  }

  lemma ExtJudged(s: State)
    requires Inv(s)
    ensures ShapeOk(s) && Judged(s, OpExtTsk, ExtTsk(s))
  {
    hide CoreOk, Sched, Terminate;
    InvShape(s);
  }

  /** Which calls are refused, and with which error code: exactly those that Verdict says, by
      the order context, identifier, parameter, state. And a call that is refused changes nothing. */
  lemma RefusedExactly(s: State, op: Op)
    requires Inv(s) && Enabled(s, op)
    ensures ShapeOk(s)
    ensures Verdict(s, op) != E_OK ==> OutcomeOf(s, op) == Returns(Verdict(s, op)) && Do(s, op) == s
    ensures Verdict(s, op) == E_OK ==> OutcomeOf(s, op) == Accepted(s, op)
  {
    hide Inv, Enabled, ShapeOk, OutcomeOf, Do, Verdict, Accepted;
    InvShape(s);
    if NoCall(op) {
      NoCallJudged(s, op);
    } else if TaskCall(op) {
      TaskCallJudged(s, op);
    } else {
      OtherCallJudged(s, op);
    }
  }

  lemma NoCallJudged(s: State, op: Op)
    requires Inv(s) && ShapeOk(s) && Enabled(s, op) && NoCall(op)
    ensures Verdict(s, op) == E_OK && OutcomeOf(s, op) == Accepted(s, op)
  {
    hide Inv, ShapeOk, Do, MakeWait, Dispatch;
  }

  lemma TaskCallJudged(s: State, op: Op)
    requires Inv(s) && ShapeOk(s) && Enabled(s, op) && TaskCall(op)
    ensures Judged(s, op, Result(Do(s, op), OutcomeOf(s, op)))
  {
    hide Inv, ShapeOk, Judged;
    hide ActTsk, IActTsk, CanAct, ExtTsk, TerTsk, ChgPri;
    match op
    case OpActTsk(tskid) => ActJudged(s, tskid);
    case OpIActTsk(tskid) => IActJudged(s, tskid);
    case OpCanAct(tskid) => CanActJudged(s, tskid);
    case OpExtTsk => ExtJudged(s);
    case OpTerTsk(tskid) => TerJudged(s, tskid);
    case OpChgPri(tskid, tskpri) => ChgPriJudged(s, tskid, tskpri);
    case _ => SyncCallJudged(s, op);
  }

  lemma SyncCallJudged(s: State, op: Op)
    requires Inv(s) && ShapeOk(s) && Enabled(s, op)
    requires op.OpTslpTsk? || op.OpDlyTsk? || op.OpWupTsk? || op.OpIWupTsk? || op.OpCanWup? || op.OpRelWai? || op.OpIRelWai?
      || op.OpSusTsk? || op.OpRsmTsk?
    ensures Judged(s, op, Result(Do(s, op), OutcomeOf(s, op)))
  {
    hide Inv, ShapeOk, Judged;
    hide TslpTsk, DlyTsk, WupTsk, IWupTsk, CanWup, RelWai, IRelWai, SusTsk, RsmTsk;
    match op
    case OpTslpTsk(tmout) => TslpJudged(s, tmout);
    case OpDlyTsk(dlytim) => DlyJudged(s, dlytim);
    case OpWupTsk(tskid) => WupJudged(s, tskid);
    case OpIWupTsk(tskid) => IWupJudged(s, tskid);
    case OpCanWup(tskid) => CanWupJudged(s, tskid);
    case OpRelWai(tskid) => RelWaiJudged(s, tskid);
    case OpIRelWai(tskid) => IRelWaiJudged(s, tskid);
    case OpSusTsk(tskid) => SusJudged(s, tskid);
    case OpRsmTsk(tskid) => RsmJudged(s, tskid);
  }

  lemma OtherCallJudged(s: State, op: Op)
    requires Inv(s) && ShapeOk(s) && Enabled(s, op) && !TaskCall(op) && !NoCall(op)
    ensures Judged(s, op, Result(Do(s, op), OutcomeOf(s, op)))
  {
    hide Inv, ShapeOk, Judged;
    hide DisDsp, EnaDsp, ChgIpm, TexReturn, StaAlm, StpAlm, StaCyc, StpCyc, RotRdq, IRotRdq;
    match op
    case OpRotRdq(tskpri) => RotRdqJudged(s, tskpri);
    case OpIRotRdq(tskpri) => IRotRdqJudged(s, tskpri);
    case OpDisDsp => FlagsJudged(s);
    case OpEnaDsp => FlagsJudged(s);
    case OpChgIpm(ena) => MaskJudged(s, ena);
    case OpTexReturn(saved) => TexJudged(s, saved);
    case OpStaAlm(almid, almtim, fromInt) => StaAlmJudged(s, almid, almtim, fromInt);
    case OpStpAlm(almid, fromInt) => StpAlmJudged(s, almid, fromInt);
    case OpStaCyc(cycid) => StaCycJudged(s, cycid);
    case OpStpCyc(cycid) => StpCycJudged(s, cycid);
  }

  // ----- what becomes of each task, proved -----

  /** Each task is in `s'` what Fate says. */
  ghost predicate Fated(s: State, op: Op, s': State)
    requires |s.tcb| == |s.cfg.ipriority|
  {
    |s'.tcb| == |s.tcb| && forall t: nat :: t < |s.tcb| ==> s'.tcb[t] == Fate(s, op, t)
  }

  lemma RefusedFate(s: State, op: Op)
    requires |s.tcb| == |s.cfg.ipriority| && Verdict(s, op) != E_OK
    ensures Fated(s, op, s)
  {
    hide Verdict;
  }

  predicate OnTask(op: Op) {
    OnTaskOrSelf(op) || OnOtherTask(op)
  }

  /** A step that neither ends a task or its wait, nor makes it wait, nor is on it, does nothing to it. */
  lemma Spared(s: State, op: Op, t: TaskId)
    requires t < |s.tcb| == |s.cfg.ipriority| && !Ends(s, op, t) && WaitEnd(s, op, t).None? && WaitStart(s, op, t).None? && !Hits(s, op, t)
    requires !op.OpTslpTsk? || s.runtsk != Some(t) || Verdict(s, op) != E_OK
    ensures Fate(s, op, t) == s.tcb[t]
  {
    hide Ends, WaitEnd, WaitStart, Hits, Verdict;
  }

  lemma NotNamed(s: State, op: Op, t: TaskId)
    requires t < |s.tcb| && OnTask(op) && !NamesTask(s, op, t)
    ensures !Ends(s, op, t) && WaitEnd(s, op, t).None? && WaitStart(s, op, t).None? && !Hits(s, op, t)
  {
    hide Verdict, NamesTask;
  }

  /** A call on one task is the fate of that task only. */
  lemma OneFate(s: State, op: Op, s': State)
    requires |s.tcb| == |s.cfg.ipriority| && OnTask(op) && Verdict(s, op) == E_OK
    requires Named(s, op) < |s.tcb| && s'.tcb == s.tcb[Named(s, op) := Fate(s, op, Named(s, op))]
    ensures Fated(s, op, s')
  {
    hide Verdict, Fate, Ends, WaitEnd, WaitStart, Hits;
    forall t: nat | t < |s.tcb| && t != Named(s, op)
      ensures Fate(s, op, t) == s.tcb[t]
    {
      NotNamed(s, op, t);
      Spared(s, op, t);
    }
  }

  /** An accepted call on a task: there is one, and it is named. */
  lemma NamedTask(s: State, op: Op)
    requires OnTask(op) && Verdict(s, op) == E_OK
    ensures var t := Named(s, op);
      && t < |s.tcb| && NamesTask(s, op, t) && Objection(s, op, t, s.tcb[t]) == E_OK
      && (FromInt(op) ==> s.intctx) && (!FromInt(op) ==> InTask(s))
      && (OnTaskOrSelf(op) ==> (InTask(s) ==> Target(s, op.tskid, true) == Some(t)))
      && (OnOtherTask(op) ==> Target(s, op.tskid, false) == Some(t))
  {
    hide Verdict, Objection, Named, NamesTask, Target, FromInt, OnTaskOrSelf, OnOtherTask;
    ChecksPassed(s, op);
    SelfIsNoInt(op);
    if OnTaskOrSelf(op) {
      SelfNamed(s, op);
    } else {
      OtherNamed(s, op);
    }
  }

  lemma SelfIsNoInt(op: Op)
    ensures OnTaskOrSelf(op) ==> !FromInt(op) && !OnOtherTask(op)
  {
  }

  lemma SelfNamed(s: State, op: Op)
    requires OnTaskOrSelf(op) && InTask(s) && 0 <= op.tskid <= |s.tcb|
    ensures Named(s, op) < |s.tcb| && NamesTask(s, op, Named(s, op)) && Target(s, op.tskid, true) == Some(Named(s, op))
  {
    hide OnTaskOrSelf, OnOtherTask;
  }

  lemma OtherNamed(s: State, op: Op)
    requires OnOtherTask(op) && 1 <= op.tskid <= |s.tcb|
    ensures Named(s, op) < |s.tcb| && NamesTask(s, op, Named(s, op)) && Target(s, op.tskid, false) == Some(Named(s, op))
  {
    hide OnTaskOrSelf, OnOtherTask;
  }

  lemma ChecksPassed(s: State, op: Op)
    requires OnTask(op) && Verdict(s, op) == E_OK
    ensures !FromInt(op) ==> InTask(s)
    ensures FromInt(op) ==> s.intctx
    ensures OnTaskOrSelf(op) ==> 0 <= op.tskid <= |s.tcb|
    ensures OnOtherTask(op) ==> 1 <= op.tskid <= |s.tcb|
    ensures Named(s, op) < |s.tcb| ==> Objection(s, op, Named(s, op), s.tcb[Named(s, op)]) == E_OK
  {
    hide Objection, WrongParameter;
  }

  lemma RehomeTcb(s: State, t: TaskId, c: Tcb)
    requires t < |s.tcb|
    ensures Rehome(s, t, c).tcb == s.tcb[t := c] && Retag(s, t, c).tcb == s.tcb[t := c]
  {
    hide Enter, Leave;
  }

  /** An accepted call on the task `t`. */
  predicate CallOn(s: State, op: Op, t: TaskId) {
    t < |s.tcb| == |s.cfg.ipriority| && OnTask(op) && Verdict(s, op) == E_OK && Named(s, op) == t && NamesTask(s, op, t)
    && Objection(s, op, t, s.tcb[t]) == E_OK
  }

  lemma ActivateFate(s: State, op: Op, t: TaskId)
    requires Inv(s) && CallOn(s, op, t) && (op.OpActTsk? || op.OpIActTsk?)
    ensures Activate(s, t).s.tcb == s.tcb[t := Fate(s, op, t)]
  {
    hide Inv, Rehome, Retag, Verdict;
    BitsFit(s);
    RehomeTcb(s, t, s.tcb[t].(tstat := TS_RUNNABLE));
    RehomeTcb(s, t, s.tcb[t].(actque := true));
  }

  lemma ActFate(s: State, op: Op)
    requires Inv(s) && ShapeOk(s) && Verdict(s, op) == E_OK && (op.OpActTsk? || op.OpIActTsk?)
    ensures Fated(s, op, if op.OpActTsk? then ActTsk(s, op.tskid).s else IActTsk(s, op.tskid).s)
  {
    hide Inv, QueueNames, Verdict, Objection, Named, Target, Fate, Fated, Activate;
    NamedTask(s, op);
    ActivateFate(s, op, Named(s, op));
    OneFate(s, op, if op.OpActTsk? then ActTsk(s, op.tskid).s else IActTsk(s, op.tskid).s);
  }

  lemma CanActFate(s: State, op: Op)
    requires Inv(s) && ShapeOk(s) && Verdict(s, op) == E_OK && op.OpCanAct?
    ensures Fated(s, op, CanAct(s, op.tskid).s)
  {
    hide Inv, QueueNames, Verdict, Objection, Named, Target, Fated;
    NamedTask(s, op);
    OneFate(s, op, CanAct(s, op.tskid).s);
  }

  lemma CanWupFate(s: State, op: Op)
    requires Inv(s) && ShapeOk(s) && Verdict(s, op) == E_OK && op.OpCanWup?
    ensures Fated(s, op, CanWup(s, op.tskid).s)
  {
    hide Inv, QueueNames, Verdict, Named, Target, Fated;
    NamedTask(s, op);
    OneFate(s, op, CanWup(s, op.tskid).s);
  }

  lemma TerminateTcb(s: State, t: TaskId)
    requires t < |s.tcb| == |s.cfg.ipriority|
    ensures var c := s.tcb[t];
      Terminate(s, t).tcb == s.tcb[t := Tcb(if c.actque then TS_RUNNABLE else TS_DORMANT, s.cfg.ipriority[t], false, false, c.winfo, c.wobj)]
  {
    hide Rehome;
    var c := s.tcb[t].(tstat := TS_DORMANT, priority := s.cfg.ipriority[t], wupque := false, actque := false);
    var s1 := Rehome(s, t, c).(pending := s.pending - {TaskTimer(t)});
    RehomeTcb(s, t, c);
    RehomeTcb(s1, t, c.(tstat := TS_RUNNABLE));
  }

  lemma TerFate(s: State, op: Op)
    requires Inv(s) && ShapeOk(s) && Verdict(s, op) == E_OK && op.OpTerTsk?
    ensures Fated(s, op, TerTsk(s, op.tskid).s)
  {
    hide Inv, QueueNames, Verdict, Named, Target, Fated, Terminate;
    NamedTask(s, op);
    TerminateTcb(s, Named(s, op));
    OneFate(s, op, TerTsk(s, op.tskid).s);
  }

  lemma ExtFate(s: State)
    requires Inv(s) && ShapeOk(s) && Verdict(s, OpExtTsk) == E_OK
    ensures Fated(s, OpExtTsk, ExtTsk(s).s)
  {
    hide Inv, QueueNames, Terminate, Fate, Sched;
    ParameterOk(s, OpExtTsk);
    var t := s.runtsk.value;
    TerminateTcb(s.(disdsp := false, ipmflg := true, dspflg := true), t);
    EndsFate(s, OpExtTsk, t);
    forall u: nat | u < |s.tcb| && u != t
      ensures Fate(s, OpExtTsk, u) == s.tcb[u]
    {
      hide Verdict;
      Spared(s, OpExtTsk, u);
    }
  }

  lemma EndsFate(s: State, op: Op, t: TaskId)
    requires t < |s.tcb| == |s.cfg.ipriority| && Ends(s, op, t)
    ensures var c := s.tcb[t];
      Fate(s, op, t) == Tcb(if c.actque then TS_RUNNABLE else TS_DORMANT, s.cfg.ipriority[t], false, false, c.winfo, c.wobj)
  {
    hide Ends;
  }

  lemma ChangePriorityTcb(s: State, t: TaskId, pri: nat)
    requires t < |s.tcb|
    ensures ChangePriority(s, t, pri).tcb == s.tcb[t := s.tcb[t].(priority := pri)]
  {
    hide Rehome, Retag;
    RehomeTcb(s, t, s.tcb[t].(priority := pri));
  }

  lemma PriorityFate(s: State, op: Op, t: TaskId)
    requires CallOn(s, op, t) && op.OpChgPri?
    ensures Fate(s, op, t) == s.tcb[t].(priority := if 1 <= op.tskpri then op.tskpri - 1 else s.cfg.ipriority[t])
  {
    hide Verdict;
  }

  lemma ChgPriFate(s: State, op: Op)
    requires Inv(s) && ShapeOk(s) && Verdict(s, op) == E_OK && op.OpChgPri?
    ensures Fated(s, op, ChgPri(s, op.tskid, op.tskpri).s)
  {
    hide Inv, QueueNames, Verdict, Named, Target, Fated, ChangePriority, Fate;
    NamedTask(s, op);
    ParameterOk(s, op);
    var t := Named(s, op);
    PriorityFate(s, op, t);
    ChangePriorityTcb(s, t, if op.tskpri == 0 then s.cfg.ipriority[t] else op.tskpri - 1);
    OneFate(s, op, ChgPri(s, op.tskid, op.tskpri).s);
  }

  lemma ParameterOk(s: State, op: Op)
    requires Verdict(s, op) == E_OK
    ensures !WrongParameter(s, op) && !WrongContext(s, op)
  {
  }

  lemma ReleaseTcb(s: State, t: TaskId, ercd: Ercd)
    requires t < |s.tcb|
    ensures var c := s.tcb[t];
      Release(s, t, ercd).tcb == s.tcb[t := Tcb(Tstat(!c.tstat.suspended, false, c.tstat.suspended, 0), c.priority, c.actque, c.wupque, Wercd(ercd), c.wobj)]
  {
    hide Enter, Leave;
  }

  lemma WakeupFate(s: State, op: Op, t: TaskId)
    requires Inv(s) && CallOn(s, op, t) && (op.OpWupTsk? || op.OpIWupTsk?)
    ensures Wakeup(s, t).s.tcb == s.tcb[t := Fate(s, op, t)]
  {
    hide Inv, Rehome, Retag, Release, Terminate, Verdict;
    BitsFit(s);
    SleeperAsks(s, t);
    ReleaseTcb(s, t, E_OK);
    RehomeTcb(s, t, s.tcb[t].(wupque := true));
  }

  /** A sleeping task has no wakeup request queued; a waiting one has no error code. */
  lemma SleeperAsks(s: State, t: TaskId)
    requires Inv(s) && t < |s.tcb|
    ensures s.tcb[t].tstat.waiting && s.tcb[t].tstat.cause == SLP ==> !s.tcb[t].wupque
    ensures s.tcb[t].tstat.waiting ==> s.tcb[t].winfo.Tmevtb?
  {
    hide QueuesOk, TimersOk, Sorted, ClockOk, DispatchOk;
    assert TaskOk(s.cfg, t, s.tcb[t]);
  }

  lemma BreakFate(s: State, op: Op, t: TaskId)
    requires Inv(s) && CallOn(s, op, t) && (op.OpRelWai? || op.OpIRelWai?)
    ensures BreakWait(s, t).s.tcb == s.tcb[t := Fate(s, op, t)]
  {
    hide Inv, Rehome, Retag, Release, Terminate, Verdict;
    ReleaseTcb(s, t, E_RLWAI);
  }

  lemma WupFate(s: State, op: Op)
    requires Inv(s) && ShapeOk(s) && Verdict(s, op) == E_OK && (op.OpWupTsk? || op.OpIWupTsk?)
    ensures Fated(s, op, if op.OpWupTsk? then WupTsk(s, op.tskid).s else IWupTsk(s, op.tskid).s)
  {
    hide Inv, QueueNames, Verdict, Objection, Named, Target, Fate, Fated, Wakeup;
    NamedTask(s, op);
    WakeupFate(s, op, Named(s, op));
    OneFate(s, op, if op.OpWupTsk? then WupTsk(s, op.tskid).s else IWupTsk(s, op.tskid).s);
  }

  lemma RelFate(s: State, op: Op)
    requires Inv(s) && ShapeOk(s) && Verdict(s, op) == E_OK && (op.OpRelWai? || op.OpIRelWai?)
    ensures Fated(s, op, if op.OpRelWai? then RelWai(s, op.tskid).s else IRelWai(s, op.tskid).s)
  {
    hide Inv, QueueNames, Verdict, Objection, Named, Target, Fate, Fated, BreakWait;
    NamedTask(s, op);
    BreakFate(s, op, Named(s, op));
    OneFate(s, op, if op.OpRelWai? then RelWai(s, op.tskid).s else IRelWai(s, op.tskid).s);
  }

  lemma SuspendedFate(s: State, op: Op, t: TaskId)
    requires CallOn(s, op, t) && (op.OpSusTsk? || op.OpRsmTsk?)
    ensures var c := s.tcb[t];
      Fate(s, op, t) == c.(tstat := if op.OpSusTsk? then c.tstat.(runnable := false, suspended := true)
                                    else c.tstat.(runnable := !c.tstat.waiting, suspended := false))
  {
    hide Verdict;
  }

  lemma SusFate(s: State, op: Op)
    requires Inv(s) && ShapeOk(s) && Verdict(s, op) == E_OK && op.OpSusTsk?
    ensures Fated(s, op, SusTsk(s, op.tskid).s)
  {
    hide Inv, QueueNames, Verdict, Named, Target, Fated, Rehome, Fate;
    NamedTask(s, op);
    BitsFit(s);
    ParameterOk(s, op);
    var t := Named(s, op);
    SuspendedFate(s, op, t);
    RehomeTcb(s, t, s.tcb[t].(tstat := TS_SUSPENDED));
    OneFate(s, op, SusTsk(s, op.tskid).s);
  }

  lemma RsmFate(s: State, op: Op)
    requires Inv(s) && ShapeOk(s) && Verdict(s, op) == E_OK && op.OpRsmTsk?
    ensures Fated(s, op, RsmTsk(s, op.tskid).s)
  {
    hide Inv, QueueNames, Verdict, Named, Target, Fated, Rehome, Fate;
    NamedTask(s, op);
    BitsFit(s);
    var t := Named(s, op);
    SuspendedFate(s, op, t);
    RehomeTcb(s, t, s.tcb[t].(tstat := TS_RUNNABLE));
    OneFate(s, op, RsmTsk(s, op.tskid).s);
  }

  // ----- waiting -----

  lemma MakeWaitTcb(s: State, cause: nat, wobj: nat, tmout: Option<nat>)
    requires InTask(s) && s.cfg.time.Ok()
    ensures var t := s.runtsk.value;
      var c := s.tcb[t];
      MakeWait(s, cause, wobj, tmout).tcb == s.tcb[t :=
        Tcb(Tstat(false, true, false, cause), c.priority, c.actque, c.wupque, Tmevtb(if tmout.Some? then Some(TaskTimer(t)) else None), wobj)]
  {
    hide Enter, Leave;
  }

  lemma RunningFate(s: State, op: Op, s': State)
    requires |s.tcb| == |s.cfg.ipriority| && (op.OpTslpTsk? || op.OpDlyTsk? || op.OpWaitOn?)
    requires InTask(s) && s'.tcb == s.tcb[s.runtsk.value := Fate(s, op, s.runtsk.value)]
    ensures Fated(s, op, s')
  {
    hide Verdict, Fate;
    forall t: nat | t < |s.tcb| && t != s.runtsk.value
      ensures Fate(s, op, t) == s.tcb[t]
    {
      Spared(s, op, t);
    }
  }

  lemma TslpFate(s: State, tmout: int)
    requires Inv(s) && ShapeOk(s) && Verdict(s, OpTslpTsk(tmout)) == E_OK
    ensures Fated(s, OpTslpTsk(tmout), TslpTsk(s, tmout).s)
  {
    hide Inv, QueueNames, MakeWait, Fated;
    var t := s.runtsk.value;
    MakeWaitTcb(s, SLP, s.tcb[t].wobj, if tmout > 0 then Some(tmout) else None);
    NotWaiting(s);
    RunningFate(s, OpTslpTsk(tmout), TslpTsk(s, tmout).s);
  }

  lemma NotWaiting(s: State)
    requires Inv(s)
    ensures s.runtsk.Some? ==>
      && s.runtsk.value < |s.tcb|
      && var b := s.tcb[s.runtsk.value].tstat; b.runnable && !b.waiting && !b.suspended
  {
    hide CoreOk, Sched;
    BitsFit(s);
  }

  lemma DlyFate(s: State, dlytim: nat)
    requires Inv(s) && ShapeOk(s) && Verdict(s, OpDlyTsk(dlytim)) == E_OK
    ensures Fated(s, OpDlyTsk(dlytim), DlyTsk(s, dlytim).s)
  {
    hide Inv, QueueNames, MakeWait, Fated;
    var t := s.runtsk.value;
    MakeWaitTcb(s, DLY, s.tcb[t].wobj, Some(dlytim));
    NotWaiting(s);
    RunningFate(s, OpDlyTsk(dlytim), DlyTsk(s, dlytim).s);
  }

  lemma WaitOnFate(s: State, q: QName, tmout: int)
    requires Inv(s) && ShapeOk(s) && MayWait(s) && q.Wait?
    ensures Fated(s, OpWaitOn(q, tmout), WaitOn(s, q, tmout).s)
  {
    hide Inv, QueueNames, MakeWait, Fated;
    MakeWaitTcb(s, q.cause, q.id, if tmout > 0 then Some(tmout) else None);
    NotWaiting(s);
    RunningFate(s, OpWaitOn(q, tmout), WaitOn(s, q, tmout).s);
  }

  // ----- ends of waits -----

  /** The waits of the tasks `ts` have ended with `ercd`; the other tasks are as before. */
  ghost predicate Ended(s: State, ts: seq<TaskId>, ercd: Ercd, s': State) {
    && |s'.tcb| == |s.tcb|
    && forall t: nat :: t < |s.tcb| ==> var c := s.tcb[t];
      s'.tcb[t] == if t in ts then Tcb(Tstat(!c.tstat.suspended, false, c.tstat.suspended, 0), c.priority, c.actque, c.wupque, Wercd(ercd), c.wobj) else c
  }

  lemma {:induction false} ReleaseAllEnded(s: State, ts: seq<TaskId>, ercd: Ercd)
    requires AllTasks(ts, |s.tcb|) && NoDup(ts)
    ensures Ended(s, ts, ercd, ReleaseAll(s, ts, ercd))
    decreases |ts|
  {
    hide Release;
    if ts != [] {
      ReleaseTcb(s, ts[0], ercd);
      var s1 := Release(s, ts[0], ercd);
      assert NoDup(ts[1..]) && ts[0] !in ts[1..];
      ReleaseAllEnded(s1, ts[1..], ercd);
      assert forall t :: t in ts <==> t == ts[0] || t in ts[1..];
    }
  }

  lemma {:induction false} IEndWaitsEnded(s: State, ts: seq<TaskId>)
    requires AllTasks(ts, |s.tcb|) && NoDup(ts)
    ensures Ended(s, ts, E_OK, IEndWaits(s, ts))
    decreases |ts|
  {
    hide Release, Sched;
    if ts != [] {
      ReleaseTcb(s, ts[0], E_OK);
      var s1 := IntEnd(s, Result(Release(s, ts[0], E_OK), Returns(E_OK))).s;
      assert NoDup(ts[1..]) && ts[0] !in ts[1..];
      IEndWaitsEnded(s1, ts[1..]);
      assert forall t :: t in ts <==> t == ts[0] || t in ts[1..];
    }
  }

  lemma EndWaitsFate(s: State, ts: seq<TaskId>, ercd: Ercd)
    requires Inv(s) && ShapeOk(s) && AllWaiting(s, ts)
    ensures AllTasks(ts, |s.tcb|)
    ensures Fated(s, OpEndWaits(ts, ercd), EndWaits(s, ts, ercd)) && Fated(s, OpIEndWaits(ts), IEndWaits(s, ts))
  {
    hide Inv, QueueNames, ReleaseAll, IEndWaits, Sched;
    ReleaseAllEnded(s, ts, ercd);
    IEndWaitsEnded(s, ts);
    EndedFate(s, ts, ercd, ReleaseAll(s, ts, ercd), OpEndWaits(ts, ercd));
    EndedFate(s, ts, E_OK, IEndWaits(s, ts), OpIEndWaits(ts));
  }

  lemma EndedFate(s: State, ts: seq<TaskId>, ercd: Ercd, s': State, op: Op)
    requires |s.tcb| == |s.cfg.ipriority| && AllWaiting(s, ts) && Ended(s, ts, ercd, s')
    requires op == OpEndWaits(ts, ercd) || (op == OpIEndWaits(ts) && ercd == E_OK)
    ensures Fated(s, op, s')
  {
    forall t: nat | t < |s.tcb|
      ensures s'.tcb[t] == Fate(s, op, t)
    {
      if t in ts {
        var i :| 0 <= i < |ts| && ts[i] == t;
      } else {
        Spared(s, op, t);
      }
    }
  }

  lemma FireFate(s: State, e: Event)
    requires Inv(s) && ShapeOk(s) && s.ticking && IsTop(s, e)
    ensures Fated(s, OpFire(e), Fire(s, e))
  {
    hide CoreOk, DispatchOk, Release, Sched, IsTop;
    TimerFires(s, e);
    if e.TaskTimer? {
      ReleaseTcb(s, e.tsk, E_OK);
      ReleaseTcb(s, e.tsk, E_TMOUT);
    }
    hide Fate;
    forall t: nat | t < |s.tcb| && e != TaskTimer(t)
      ensures Fate(s, OpFire(e), t) == s.tcb[t]
    {
      Spared(s, OpFire(e), t);
    }
    if e.TaskTimer? {
      TimerFate(s, e.tsk);
    }
  }

  lemma TimerFate(s: State, t: TaskId)
    requires t < |s.tcb| == |s.cfg.ipriority| && s.tcb[t].tstat.waiting
    ensures var c := s.tcb[t];
      Fate(s, OpFire(TaskTimer(t)), t) == Tcb(Tstat(!c.tstat.suspended, false, c.tstat.suspended, 0), c.priority, c.actque, c.wupque,
        Wercd(if c.tstat.cause == DLY then E_OK else E_TMOUT), c.wobj)
  {
  }

  lemma TimerFires(s: State, e: Event)
    requires CoreOk(s) && s.cfg.time.Ok() && IsTop(s, e)
    ensures e in s.pending && Armed(s.tcb, s.cyc, s.alm, e) && s.pending[e].callback == CallbackOf(s.tcb, e)
  {
    hide QueuesOk, Sorted, ClockOk;
  }

  // ----- everything else -----

  lemma OthersFate(s: State, op: Op)
    requires ShapeOk(s) && Enabled(s, op)
    requires op.OpDisDsp? || op.OpEnaDsp? || op.OpChgIpm? || op.OpTexReturn? || op.OpStaAlm? || op.OpStpAlm? || op.OpStaCyc?
      || op.OpStpCyc? || op.OpEnterInt? || op.OpExitInt? || op.OpTickStart? || op.OpTickEnd? || op.OpRotRdq? || op.OpIRotRdq?
    ensures Fated(s, op, Do(s, op))
  {
    hide Do, Enabled, Fate, Verdict, Ends, WaitEnd, WaitStart, Hits;
    SameTcb(s, op);
    forall t: nat | t < |s.tcb|
      ensures Fate(s, op, t) == s.tcb[t]
    {
      OnNobody(s, op, t);
      Spared(s, op, t);
    }
  }

  lemma OnNobody(s: State, op: Op, t: TaskId)
    requires t < |s.tcb|
    requires op.OpDisDsp? || op.OpEnaDsp? || op.OpChgIpm? || op.OpTexReturn? || op.OpStaAlm? || op.OpStpAlm? || op.OpStaCyc?
      || op.OpStpCyc? || op.OpEnterInt? || op.OpExitInt? || op.OpTickStart? || op.OpTickEnd? || op.OpRotRdq? || op.OpIRotRdq?
    ensures !Ends(s, op, t) && WaitEnd(s, op, t).None? && WaitStart(s, op, t).None? && !Hits(s, op, t)
  {
    OnNoTask(s, op, t);
    hide Verdict, NamesTask;
  }

  lemma OnNoTask(s: State, op: Op, t: TaskId)
    requires !OnTask(op)
    ensures !NamesTask(s, op, t)
  {
  }

  lemma SameTcb(s: State, op: Op)
    requires ShapeOk(s) && Enabled(s, op)
    requires op.OpDisDsp? || op.OpEnaDsp? || op.OpChgIpm? || op.OpTexReturn? || op.OpStaAlm? || op.OpStpAlm? || op.OpStaCyc?
      || op.OpStpCyc? || op.OpEnterInt? || op.OpExitInt? || op.OpTickStart? || op.OpTickEnd? || op.OpRotRdq? || op.OpIRotRdq?
    ensures Do(s, op).tcb == s.tcb
  {
    hide ShapeOk, Enabled;
    if op.OpRotRdq? || op.OpIRotRdq? {
    } else {
      hide Do;
      SameParts(s, op);
    }
  }

  // ----- the whole -----

  /** What every step makes of every task. */
  lemma StepFate(s: State, op: Op)
    requires Inv(s) && Enabled(s, op)
    ensures ShapeOk(s) && Fated(s, op, Do(s, op))
  {
    hide Inv, Enabled, Do, Fated, Verdict, NoCall, TaskCall;
    InvShape(s);
    RefusedExactly(s, op);
    if Verdict(s, op) != E_OK {
      RefusedFate(s, op);
    } else if TaskCall(op) {
      TaskCallFate(s, op);
    } else if op.OpWaitOn? || op.OpEndWaits? || op.OpIEndWaits? || op.OpFire? {
      WaitsFate(s, op);
    } else {
      OtherOps(op);
      OthersFate(s, op);
    }
  }

  lemma OtherOps(op: Op)
    requires !TaskCall(op) && !op.OpWaitOn? && !op.OpEndWaits? && !op.OpIEndWaits? && !op.OpFire?
    ensures op.OpDisDsp? || op.OpEnaDsp? || op.OpChgIpm? || op.OpTexReturn? || op.OpStaAlm? || op.OpStpAlm? || op.OpStaCyc?
      || op.OpStpCyc? || op.OpEnterInt? || op.OpExitInt? || op.OpTickStart? || op.OpTickEnd? || op.OpRotRdq? || op.OpIRotRdq?
  {
  }

  lemma TaskCallFate(s: State, op: Op)
    requires Inv(s) && ShapeOk(s) && Enabled(s, op) && TaskCall(op) && Verdict(s, op) == E_OK
    ensures Fated(s, op, Do(s, op))
  {
    hide Inv, ShapeOk, Verdict, Fated;
    hide ActTsk, IActTsk, CanAct, ExtTsk, TerTsk, ChgPri;
    match op
    case OpActTsk(_) => ActFate(s, op);
    case OpIActTsk(_) => ActFate(s, op);
    case OpCanAct(_) => CanActFate(s, op);
    case OpExtTsk => ExtFate(s);
    case OpTerTsk(_) => TerFate(s, op);
    case OpChgPri(_, _) => ChgPriFate(s, op);
    case _ => SyncCallFate(s, op);
  }

  lemma SyncCallFate(s: State, op: Op)
    requires Inv(s) && ShapeOk(s) && Enabled(s, op) && Verdict(s, op) == E_OK
    requires op.OpTslpTsk? || op.OpDlyTsk? || op.OpWupTsk? || op.OpIWupTsk? || op.OpCanWup? || op.OpRelWai? || op.OpIRelWai?
      || op.OpSusTsk? || op.OpRsmTsk?
    ensures Fated(s, op, Do(s, op))
  {
    hide Inv, ShapeOk, Verdict, Fated;
    hide TslpTsk, DlyTsk, WupTsk, IWupTsk, CanWup, RelWai, IRelWai, SusTsk, RsmTsk;
    match op
    case OpTslpTsk(tmout) => TslpFate(s, tmout);
    case OpDlyTsk(dlytim) => DlyFate(s, dlytim);
    case OpWupTsk(_) => WupFate(s, op);
    case OpIWupTsk(_) => WupFate(s, op);
    case OpCanWup(_) => CanWupFate(s, op);
    case OpRelWai(_) => RelFate(s, op);
    case OpIRelWai(_) => RelFate(s, op);
    case OpSusTsk(_) => SusFate(s, op);
    case OpRsmTsk(_) => RsmFate(s, op);
  }

  lemma WaitsFate(s: State, op: Op)
    requires Inv(s) && ShapeOk(s) && Enabled(s, op) && (op.OpWaitOn? || op.OpEndWaits? || op.OpIEndWaits? || op.OpFire?)
    ensures Fated(s, op, Do(s, op))
  {
    hide Inv, QueueNames, Verdict, Fated, WaitOn, EndWaits, IEndWaits, Fire, AllWaiting, IsTop;
    match op
    case OpWaitOn(q, tmout) => WaitOnFate(s, q, tmout);
    case OpEndWaits(ts, ercd) => EndWaitsFate(s, ts, ercd);
    case OpIEndWaits(ts) => EndWaitsFate(s, ts, E_OK);
    case OpFire(e) => FireFate(s, e);
  }
}
