/**
 What each service call and each timer callback does to the kernel state, as one atomic
 step. A call that has to wait ends its step when the processor is given away.
 */
module KernelSpec {
  import opened Common
  import opened HeapLinks
  import opened SystemTime
  import opened KernelState

  /** How a step ends for its caller: with an error code, with a count, or not yet. */
  datatype Outcome = Returns(ercd: Ercd) | Count(n: nat) | Blocks

  datatype Result = Result(s: State, out: Outcome)

  const TMO_FEVR := -1
  const TMO_POL := 0

  /** A task may call; sense_context() is false. */
  predicate InTask(s: State) {
    !s.intctx && s.runtsk.Some? && s.runtsk.value < |s.tcb|
  }

  /** A task may call and wait: CHECK_DISPATCH. */
  predicate MayWait(s: State) {
    InTask(s) && s.dspflg
  }

  /** The task that `tskid` means, TSK_SELF being 0. */
  function Target(s: State, tskid: int, selfOk: bool): (t: Option<TaskId>)
    requires InTask(s) || !selfOk
    ensures t.Some? ==> t.value < |s.tcb|
  {
    if 1 <= tskid <= |s.tcb| then Some(tskid - 1)
    else if tskid == 0 && selfOk then s.runtsk
    else None
  }

  function Priority(tcb: seq<Tcb>, t: TaskId): nat {
    if t < |tcb| then tcb[t].priority else 0
  }

  /** Insertion in task priority order, behind equals. */
  function InsertTpri(q: seq<TaskId>, t: TaskId, tcb: seq<Tcb>): seq<TaskId> {
    if q == [] then [t]
    else if Priority(tcb, t) < Priority(tcb, q[0]) then [t] + q
    else [q[0]] + InsertTpri(q[1..], t, tcb)
  }

  /** `t`, whose control block is `c`, leaves the queue it is linked in. */
  function Leave(queue: map<QName, seq<TaskId>>, c: Tcb, t: TaskId): map<QName, seq<TaskId>> {
    match Home(c)
    case Some(n) => if n in queue then queue[n := Remove(queue[n], t)] else queue
    case None => queue
  }

  /** `t` is linked in the queue that its control block in `tcb` says. */
  function Enter(queue: map<QName, seq<TaskId>>, tpri: set<QName>, tcb: seq<Tcb>, t: TaskId): map<QName, seq<TaskId>>
    requires t < |tcb|
  {
    match Home(tcb[t])
    case Some(n) =>
      if n !in queue then queue
      else if n in tpri then queue[n := InsertTpri(queue[n], t, tcb)]
      else queue[n := queue[n] + [t]]
    case None => queue
  }

  /** `t` gets the control block `c` and moves to the queue that goes with it. */
  function Rehome(s: State, t: TaskId, c: Tcb): State
    requires t < |s.tcb|
  {
    var tcb := s.tcb[t := c];
    s.(tcb := tcb, queue := Enter(Leave(s.queue, s.tcb[t], t), s.cfg.tpri, tcb, t))
  }

  /** `t` gets the control block `c` and stays where it is linked. */
  function Retag(s: State, t: TaskId, c: Tcb): State
    requires t < |s.tcb|
  {
    s.(tcb := s.tcb[t := c])
  }

  /** The wait of `t` ends: it returns with `ercd`. */
  function Release(s: State, t: TaskId, ercd: Ercd): State
    requires t < |s.tcb|
  {
    var tstat := if s.tcb[t].tstat.suspended then TS_SUSPENDED else TS_RUNNABLE;
    Rehome(s, t, s.tcb[t].(tstat := tstat, winfo := Wercd(ercd))).(pending := s.pending - {TaskTimer(t)})
  }

  predicate AllTasks(ts: seq<TaskId>, n: nat) {
    forall i :: 0 <= i < |ts| ==> ts[i] < n
  }

  function ReleaseAll(s: State, ts: seq<TaskId>, ercd: Ercd): State
    requires AllTasks(ts, |s.tcb|)
    decreases |ts|
  {
    if ts == [] then s else ReleaseAll(Release(s, ts[0], ercd), ts[1..], ercd)
  }

  /** The running task waits for `cause`, in the queue of the object `wobj` if the cause is one. */
  function MakeWait(s: State, cause: nat, wobj: nat, tmout: Option<nat>): State
    requires InTask(s) && s.cfg.time.Ok()
  {
    var t := s.runtsk.value;
    var timer := TaskTimer(t);
    var c := s.tcb[t].(
      tstat := TsWaiting(cause), wobj := wobj,
      winfo := Tmevtb(if tmout.Some? then Some(timer) else None));
    Rehome(s, t, c).(pending :=
      if tmout.None? then s.pending
      else s.pending[timer := Pending(BaseTime(s.cfg.time, s.ticks) + tmout.value,
                                      if cause == DLY then WaitTmoutOk(t) else WaitTmout(t))])
  }

  /** The dispatcher: the best task runs, if dispatching is possible. */
  function Dispatch(s: State): State {
    if s.dspflg then s.(runtsk := Sched(s.queue)) else s
  }

  function TaskEnd(r: Result): Result {
    r.(s := Dispatch(r.s))
  }

  /** Of a step inside an interrupt handler, starting in `s`: a dispatch is requested if
      the best task has changed and dispatching is possible. */
  function IntEnd(s: State, r: Result): Result {
    r.(s := r.s.(reqflg := s.reqflg || (s.dspflg && Sched(r.s.queue) != Sched(s.queue))))
  }

  // ----- task management -----

  function MakeActive(s: State, t: TaskId): State
    requires t < |s.tcb|
  {
    Rehome(s, t, s.tcb[t].(tstat := TS_RUNNABLE))
  }

  function Activate(s: State, t: TaskId): Result
    requires t < |s.tcb|
  {
    if s.tcb[t].tstat.Dormant() then Result(MakeActive(s, t), Returns(E_OK))
    else if !s.tcb[t].actque then Result(Retag(s, t, s.tcb[t].(actque := true)), Returns(E_OK))
    else Result(s, Returns(E_QOVR))
  }

  function ActTsk(s: State, tskid: int): Result {
    if !InTask(s) then Result(s, Returns(E_CTX))
    else match Target(s, tskid, true)
      case None => Result(s, Returns(E_ID))
      case Some(t) => TaskEnd(Activate(s, t))
  }

  function IActTsk(s: State, tskid: int): Result {
    if !s.intctx then Result(s, Returns(E_CTX))
    else match Target(s, tskid, false)
      case None => Result(s, Returns(E_ID))
      case Some(t) => IntEnd(s, Activate(s, t))
  }

  function CanAct(s: State, tskid: int): Result {
    if !InTask(s) then Result(s, Returns(E_CTX))
    else match Target(s, tskid, true)
      case None => Result(s, Returns(E_ID))
      case Some(t) => Result(Retag(s, t, s.tcb[t].(actque := false)), Count(if s.tcb[t].actque then 1 else 0))
  }

  /** `t` ends: it leaves its queue, its timer is cancelled, and it starts again if that was requested. */
  function Terminate(s: State, t: TaskId): State
    requires t < |s.tcb| == |s.cfg.ipriority|
  {
    var c := s.tcb[t].(tstat := TS_DORMANT, priority := s.cfg.ipriority[t], wupque := false, actque := false);
    var s' := Rehome(s, t, c).(pending := s.pending - {TaskTimer(t)});
    if s.tcb[t].actque then MakeActive(s', t) else s'
  }

  function ExtTsk(s: State): Result
    requires ShapeOk(s)
  {
    if !InTask(s) then Result(s, Returns(E_CTX))
    else TaskEnd(Result(Terminate(s.(disdsp := false, ipmflg := true, dspflg := true), s.runtsk.value), Blocks))
  }

  function TerTsk(s: State, tskid: int): Result
    requires ShapeOk(s)
  {
    if !InTask(s) then Result(s, Returns(E_CTX))
    else match Target(s, tskid, false)
      case None => Result(s, Returns(E_ID))
      case Some(t) =>
        if Some(t) == s.runtsk then Result(s, Returns(E_ILUSE))
        else if s.tcb[t].tstat.Dormant() then Result(s, Returns(E_OBJ))
        else TaskEnd(Result(Terminate(s, t), Returns(E_OK)))
  }

  /** The priority of `t` becomes `pri`; it moves to the end of its new ready queue, or to
      its place in a priority-ordered wait queue. */
  function ChangePriority(s: State, t: TaskId, pri: nat): State
    requires t < |s.tcb|
  {
    var c := s.tcb[t].(priority := pri);
    if c.tstat.runnable || (Home(c).Some? && Home(c).value in s.cfg.tpri) then Rehome(s, t, c) else Retag(s, t, c)
  }

  function ChgPri(s: State, tskid: int, tskpri: int): Result
    requires ShapeOk(s)
  {
    if !InTask(s) then Result(s, Returns(E_CTX))
    else match Target(s, tskid, true)
      case None => Result(s, Returns(E_ID))
      case Some(t) =>
        if !(0 <= tskpri <= TNUM_TPRI) then Result(s, Returns(E_PAR))
        else if s.tcb[t].tstat.Dormant() then Result(s, Returns(E_OBJ))
        else TaskEnd(Result(ChangePriority(s, t, if tskpri == 0 then s.cfg.ipriority[t] else tskpri - 1), Returns(E_OK)))
  }

  // ----- task-dependent synchronization -----

  /** slp_tsk and tslp_tsk. */
  function TslpTsk(s: State, tmout: int): Result
    requires s.cfg.time.Ok()
  {
    if !MayWait(s) then Result(s, Returns(E_CTX))
    else if tmout < TMO_FEVR then Result(s, Returns(E_PAR))
    else
      var t := s.runtsk.value;
      if s.tcb[t].wupque then Result(Retag(s, t, s.tcb[t].(wupque := false)), Returns(E_OK))
      else if tmout == TMO_POL then Result(s, Returns(E_TMOUT))
      else TaskEnd(Result(MakeWait(s, SLP, s.tcb[t].wobj, if tmout > 0 then Some(tmout) else None), Blocks))
  }

  function DlyTsk(s: State, dlytim: nat): Result
    requires s.cfg.time.Ok()
  {
    if !MayWait(s) then Result(s, Returns(E_CTX))
    else if dlytim > s.cfg.time.tmax then Result(s, Returns(E_PAR))
    else TaskEnd(Result(MakeWait(s, DLY, s.tcb[s.runtsk.value].wobj, Some(dlytim)), Blocks))
  }

  function Wakeup(s: State, t: TaskId): Result
    requires t < |s.tcb|
  {
    if s.tcb[t].tstat.Dormant() then Result(s, Returns(E_OBJ))
    else if s.tcb[t].tstat.WaitSlp() then Result(Release(s, t, E_OK), Returns(E_OK))
    else if !s.tcb[t].wupque then Result(Retag(s, t, s.tcb[t].(wupque := true)), Returns(E_OK))
    else Result(s, Returns(E_QOVR))
  }

  function WupTsk(s: State, tskid: int): Result {
    if !InTask(s) then Result(s, Returns(E_CTX))
    else match Target(s, tskid, true)
      case None => Result(s, Returns(E_ID))
      case Some(t) => TaskEnd(Wakeup(s, t))
  }

  function IWupTsk(s: State, tskid: int): Result {
    if !s.intctx then Result(s, Returns(E_CTX))
    else match Target(s, tskid, false)
      case None => Result(s, Returns(E_ID))
      case Some(t) => IntEnd(s, Wakeup(s, t))
  }

  function CanWup(s: State, tskid: int): Result {
    if !InTask(s) then Result(s, Returns(E_CTX))
    else match Target(s, tskid, true)
      case None => Result(s, Returns(E_ID))
      case Some(t) =>
        if s.tcb[t].tstat.Dormant() then Result(s, Returns(E_OBJ))
        else Result(Retag(s, t, s.tcb[t].(wupque := false)), Count(if s.tcb[t].wupque then 1 else 0))
  }

  function BreakWait(s: State, t: TaskId): Result
    requires t < |s.tcb|
  {
    if !s.tcb[t].tstat.waiting then Result(s, Returns(E_OBJ))
    else Result(Release(s, t, E_RLWAI), Returns(E_OK))
  }

  function RelWai(s: State, tskid: int): Result {
    if !InTask(s) then Result(s, Returns(E_CTX))
    else match Target(s, tskid, false)
      case None => Result(s, Returns(E_ID))
      case Some(t) => TaskEnd(BreakWait(s, t))
  }

  function IRelWai(s: State, tskid: int): Result {
    if !s.intctx then Result(s, Returns(E_CTX))
    else match Target(s, tskid, false)
      case None => Result(s, Returns(E_ID))
      case Some(t) => IntEnd(s, BreakWait(s, t))
  }

  function SusTsk(s: State, tskid: int): Result {
    if !InTask(s) then Result(s, Returns(E_CTX))
    else match Target(s, tskid, true)
      case None => Result(s, Returns(E_ID))
      case Some(t) =>
        var c := s.tcb[t];
        if Some(t) == s.runtsk && !s.dspflg then Result(s, Returns(E_CTX))
        else if c.tstat.Dormant() then Result(s, Returns(E_OBJ))
        else if c.tstat.runnable then TaskEnd(Result(Rehome(s, t, c.(tstat := TS_SUSPENDED)), Returns(E_OK)))
        else if c.tstat.suspended then Result(s, Returns(E_QOVR))
        else Result(Retag(s, t, c.(tstat := c.tstat.(suspended := true))), Returns(E_OK))
  }

  function RsmTsk(s: State, tskid: int): Result {
    if !InTask(s) then Result(s, Returns(E_CTX))
    else match Target(s, tskid, false)
      case None => Result(s, Returns(E_ID))
      case Some(t) =>
        var c := s.tcb[t];
        if !c.tstat.suspended then Result(s, Returns(E_OBJ))
        else if !c.tstat.waiting then TaskEnd(Result(Rehome(s, t, c.(tstat := TS_RUNNABLE)), Returns(E_OK)))
        else Result(Retag(s, t, c.(tstat := c.tstat.(suspended := false))), Returns(E_OK))
  }

  // ----- system management -----

  function Rotate(q: seq<TaskId>): seq<TaskId> {
    if q == [] then q else q[1..] + [q[0]]
  }

  function RotateReady(s: State, pri: nat): State {
    if Ready(pri) in s.queue then s.(queue := s.queue[Ready(pri) := Rotate(s.queue[Ready(pri)])]) else s
  }

  function RotRdq(s: State, tskpri: int): Result {
    if !InTask(s) then Result(s, Returns(E_CTX))
    else if !(0 <= tskpri <= TNUM_TPRI) then Result(s, Returns(E_PAR))
    else TaskEnd(Result(RotateReady(s, if tskpri == 0 then s.tcb[s.runtsk.value].priority else tskpri - 1), Returns(E_OK)))
  }

  function IRotRdq(s: State, tskpri: int): Result {
    if !s.intctx then Result(s, Returns(E_CTX))
    else if !(1 <= tskpri <= TNUM_TPRI) then Result(s, Returns(E_PAR))
    else IntEnd(s, Result(RotateReady(s, tskpri - 1), Returns(E_OK)))
  }

  function DisDsp(s: State): Result {
    if !InTask(s) then Result(s, Returns(E_CTX))
    else Result(s.(disdsp := true, dspflg := false), Returns(E_OK))
  }

  function EnaDsp(s: State): Result {
    if !InTask(s) then Result(s, Returns(E_CTX))
    else TaskEnd(Result(s.(disdsp := false, dspflg := s.ipmflg), Returns(E_OK)))
  }

  /** chg_ipm; `ena` says that the new mask is TIPM_ENAALL. */
  function ChgIpm(s: State, ena: bool): Result {
    if !InTask(s) then Result(s, Returns(E_CTX))
    else TaskEnd(Result(s.(ipmflg := ena, dspflg := ena && !s.disdsp), Returns(E_OK)))
  }

  /** A task exception routine returns to call_texrtn, which had saved disdsp. */
  function TexReturn(s: State, savedDisdsp: bool): Result {
    if !InTask(s) then Result(s, Returns(E_CTX))
    else TaskEnd(Result(s.(ipmflg := true, disdsp := savedDisdsp, dspflg := !savedDisdsp), Returns(E_OK)))
  }

  // ----- alarm and cyclic handlers -----

  function StartAlarm(s: State, a: nat, almtim: nat): State
    requires s.cfg.time.Ok() && a < |s.alm|
  {
    s.(alm := s.alm[a := true],
       pending := s.pending[AlmTimer(a) := Pending(BaseTime(s.cfg.time, s.ticks) + almtim, CallAlmhdr(a))])
  }

  function StopAlarm(s: State, a: nat): State
    requires a < |s.alm|
  {
    s.(alm := s.alm[a := false], pending := s.pending - {AlmTimer(a)})
  }

  /** sta_alm, and ista_alm if `fromInt`. */
  function StaAlm(s: State, almid: int, almtim: nat, fromInt: bool): Result
    requires s.cfg.time.Ok()
  {
    if if fromInt then !s.intctx else !InTask(s) then Result(s, Returns(E_CTX))
    else if !(1 <= almid <= |s.alm|) then Result(s, Returns(E_ID))
    else if almtim > s.cfg.time.tmax then Result(s, Returns(E_PAR))
    else Result(StartAlarm(s, almid - 1, almtim), Returns(E_OK))
  }

  /** stp_alm, and istp_alm if `fromInt`. */
  function StpAlm(s: State, almid: int, fromInt: bool): Result {
    if if fromInt then !s.intctx else !InTask(s) then Result(s, Returns(E_CTX))
    else if !(1 <= almid <= |s.alm|) then Result(s, Returns(E_ID))
    else Result(StopAlarm(s, almid - 1), Returns(E_OK))
  }

  function StaCyc(s: State, cycid: int): Result
    requires ShapeOk(s)
  {
    if !InTask(s) then Result(s, Returns(E_CTX))
    else if !(1 <= cycid <= |s.cyc|) then Result(s, Returns(E_ID))
    else
      var c := cycid - 1;
      Result(s.(cyc := s.cyc[c := true],
                pending := s.pending[CycTimer(c) := Pending(BaseTime(s.cfg.time, s.ticks) + s.cfg.cycphs[c], CallCychdr(c))]),
             Returns(E_OK))
  }

  function StpCyc(s: State, cycid: int): Result {
    if !InTask(s) then Result(s, Returns(E_CTX))
    else if !(1 <= cycid <= |s.cyc|) then Result(s, Returns(E_ID))
    else Result(s.(cyc := s.cyc[cycid - 1 := false], pending := s.pending - {CycTimer(cycid - 1)}), Returns(E_OK))
  }

  // ----- what service calls on objects do to tasks -----

  /** The running task waits in `q`. */
  function WaitOn(s: State, q: QName, tmout: int): Result
    requires s.cfg.time.Ok() && InTask(s) && q.Wait?
  {
    TaskEnd(Result(MakeWait(s, q.cause, q.id, if tmout > 0 then Some(tmout) else None), Blocks))
  }

  /** Waits end with `ercd`, from a task. */
  function EndWaits(s: State, ts: seq<TaskId>, ercd: Ercd): State
    requires AllTasks(ts, |s.tcb|)
  {
    Dispatch(ReleaseAll(s, ts, ercd))
  }

  /** Waits end with E_OK, from an interrupt handler. */
  function IEndWaits(s: State, ts: seq<TaskId>): State
    requires AllTasks(ts, |s.tcb|)
    decreases |ts|
  {
    if ts == [] then s
    else IEndWaits(IntEnd(s, Result(Release(s, ts[0], E_OK), Returns(E_OK))).s, ts[1..])
  }

  // ----- interrupts and ticks -----

  function EnterInt(s: State): State {
    s.(intctx := true)
  }

  /** The exit of the outermost interrupt handler. */
  function ExitInt(s: State): State {
    var s' := s.(intctx := false, reqflg := false);
    if s.reqflg then Dispatch(s') else s'
  }

  /** The head of signal_time. */
  function TickStart(s: State): State {
    s.(ticks := s.ticks + 1, ticking := true)
  }

  /** `e` is registered, due, and none is earlier. */
  ghost predicate IsTop(s: State, e: Event)
    requires s.cfg.time.Ok()
  {
    && e in s.pending && s.pending[e].time <= TickTime(s.cfg.time, s.ticks)
    && forall x :: x in s.pending ==> s.pending[e].time <= s.pending[x].time
  }

  /** One turn of signal_time's loop: `e` is taken out and its callback runs, up to the
      point where interrupts are let in. */
  function Fire(s: State, e: Event): State
    requires e in s.pending
  {
    var time := s.pending[e].time;
    match s.pending[e].callback
    case WaitTmout(t) => if t < |s.tcb| then IntEnd(s, Result(Release(s, t, E_TMOUT), Returns(E_OK))).s else s
    case WaitTmoutOk(t) => if t < |s.tcb| then IntEnd(s, Result(Release(s, t, E_OK), Returns(E_OK))).s else s
    case CallCychdr(c) =>
      if c < |s.cfg.cyctim| then s.(pending := s.pending[e := Pending(time + s.cfg.cyctim[c], CallCychdr(c))]) else s
    case CallAlmhdr(a) => if a < |s.alm| then StopAlarm(s, a) else s
  }

  /** The tail of signal_time. */
  function TickEnd(s: State): State
    requires s.cfg.time.Ok()
  {
    s.(ticking := false, min := TickTime(s.cfg.time, s.ticks))
  }
}
