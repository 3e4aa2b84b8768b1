/**
 signal_time: the loop that drains the time event heap, with interrupt handlers calling the
 kernel whenever a callback lets them in.
 */
module SignalTime {
  import opened Common
  import opened WordTime
  import opened HeapLinks
  import opened SystemTime
  import opened TimeEvent
  import opened KernelState
  import opened KernelRuns
  import opened KernelFacts
  import opened ReadyQueue
  import opened Kernels
  import opened Capacity
  import opened Waiting
  import opened TaskManage
  import opened TaskSync
  import opened ObjectSteps
  import opened ObjectCalls
  import opened SysManage
  import opened Handlers
  import opened Ticks
  import opened Drain
  import S = KernelSpec

  /** What an interrupt handler calls; IServe is what the service calls on objects do that end
      the waits of tasks in a wait queue: of the first one, or of any, as iset_flg does. */
  datatype IntCall =
    | IAct(tskid: int) | IWup(tskid: int) | IRelease(tskid: int) | IRotate(tskpri: int)
    | IStart(almid: int, almtim: nat) | IStop(almid: int) | IServe(q: QName, who: set<TaskId>)

  /** Two runs in a row. */
  lemma {:induction false} RunAppend(s: State, ops1: seq<Op>, s1: State, ops2: seq<Op>, s2: State)
    requires Run(s, ops1, s1) && Run(s1, ops2, s2)
    ensures Run(s, ops1 + ops2, s2)
    decreases |ops1|
  {
    hide ShapeOk, Enabled, Do;
    if ops1 == [] {
      assert ops1 + ops2 == ops2;
    } else {
      RunAppend(Do(s, ops1[0]), ops1[1..], s1, ops2, s2);
      assert (ops1 + ops2)[1..] == ops1[1..] + ops2;
    }
  }

  lemma RunOne(s: State, op: Op)
    requires ShapeOk(s) && Enabled(s, op)
    ensures Run(s, [op], Do(s, op))
  {
    hide ShapeOk, Enabled, Do;
    assert [op][1..] == [];
  }

  /** The tasks of a queue that are in `who`, in queue order. */
  function Chosen(queue: seq<TaskId>, who: set<TaskId>): seq<TaskId> {
    if queue == [] then [] else (if queue[0] in who then [queue[0]] else []) + Chosen(queue[1..], who)
  }

  lemma {:induction false} ChosenFrom(queue: seq<TaskId>, who: set<TaskId>)
    requires NoDup(queue)
    ensures NoDup(Chosen(queue, who)) && forall t :: t in Chosen(queue, who) <==> t in queue && t in who
  {
    if queue != [] {
      assert forall i, j :: 0 <= i < j < |queue[1..]| ==> queue[1..][i] != queue[1..][j];
      assert forall t :: t in queue <==> t == queue[0] || t in queue[1..];
      ChosenFrom(queue[1..], who);
    }
  }

  /** The waits of tasks anywhere in a wait queue end one by one. */
  method ServeEach(k: Kernel, q: QName, ts: seq<TaskId>)
    requires k.Rep() && CoreOk(k.View()) && q in k.cfg.queues && q in k.queue && NoDup(ts)
    requires forall t :: t in ts ==> t in k.queue[q]
    modifies k`tcb, k`queue, k`readyPrimap, k`schedtsk, k`reqflg
    modifies k.tm.heap, k.tm`blocks, k.tm`times, k.tm`lastIndex, k.tm`pending
    ensures k.Rep() && S.AllTasks(ts, |old(k.tcb)|) && k.View() == S.IEndWaits(old(k.View()), ts)
  {
    hide CoreOk, Kernel.Rep, S.IEndWaits, EndOne, Remove;
    AllIn(k.View(), q, ts);
    ghost var goal := S.IEndWaits(k.View(), ts);
    var rest := ts;
    while rest != []
      invariant k.Rep() && CoreOk(k.View()) && q in k.queue && NoDup(rest)
      invariant forall t :: t in rest ==> t in k.queue[q]
      invariant S.AllTasks(rest, |k.tcb|) && S.IEndWaits(k.View(), rest) == goal
      decreases |rest|
    {
      var t := rest[0];
      ServeTurn(k.View(), q, rest);
      var _ := CompleteEach(k, q, t, true);
      rest := rest[1..];
    }
    EndEachStep(k.View(), [], true);
  }

  lemma AllIn(s: State, q: QName, ts: seq<TaskId>)
    requires CoreOk(s) && q in s.cfg.queues && q in s.queue && forall t :: t in ts ==> t in s.queue[q]
    ensures S.AllTasks(ts, |s.tcb|)
  {
    hide CoreOk;
    QueueTasks(s, q);
    forall i | 0 <= i < |ts|
      ensures ts[i] < |s.tcb|
    {
      assert ts[i] in ts;
    }
  }

  lemma ServeTurn(s: State, q: QName, ts: seq<TaskId>)
    requires CoreOk(s) && q in s.cfg.queues && q in s.queue && NoDup(ts) && ts != [] && S.AllTasks(ts, |s.tcb|)
    requires forall t :: t in ts ==> t in s.queue[q]
    ensures ts[0] in s.queue[q]
    ensures var s1 := EndOne(s, ts[0], true);
      && CoreOk(s1) && s1.cfg == s.cfg && q in s1.queue && |s1.tcb| == |s.tcb| && NoDup(ts[1..])
      && (forall t :: t in ts[1..] ==> t in s1.queue[q])
      && S.AllTasks(ts[1..], |s1.tcb|) && S.IEndWaits(s, ts) == S.IEndWaits(s1, ts[1..])
  {
    hide CoreOk, S.IEndWaits, EndOne, Remove;
    assert ts[0] in ts;
    QueueTasks(s, q);
    EndOneFacts(s, q, ts[0], true);
    EndEachStep(s, ts, true);
    RemoveMembers(s.queue[q], ts[0]);
    assert forall i :: 0 <= i < |ts[1..]| ==> ts[1..][i] == ts[i + 1];
    assert forall t :: t in ts[1..] ==> t in ts && t != ts[0];
  }

  /** Some of the tasks that wait in a queue are served. */
  method Serve(k: Kernel, q: QName, who: set<TaskId>) returns (ghost op: Op)
    requires k.Rep() && Inv(k.View()) && k.intctx
    modifies k`tcb, k`queue, k`readyPrimap, k`schedtsk, k`runtsk, k`reqflg
    modifies k.tm.heap, k.tm`blocks, k.tm`times, k.tm`lastIndex, k.tm`pending
    ensures k.Rep() && Inv(k.View())
    ensures IntOp(op) && ShapeOk(old(k.View())) && Enabled(old(k.View()), op) && k.View() == Do(old(k.View()), op)
  {
    hide Inv, ShapeOk, Enabled, Do, Kernel.Rep, S.IEndWaits, Chosen;
    InvCore(k.View());
    if q in k.cfg.queues && q in k.queue {
      var ts := Chosen(k.queue[q], who);
      ServeOp(k.View(), q, who);
      ServeEach(k, q, ts);
      op := OpIEndWaits(ts);
    } else {
      op := OpIEndWaits([]);
      NobodyServed(k.View());
    }
  }

  lemma InvCore(s: State)
    requires Inv(s)
    ensures CoreOk(s)
  {
    hide CoreOk, DispatchOk;
  }

  lemma NobodyServed(s: State)
    requires Inv(s) && s.intctx
    ensures ShapeOk(s) && Enabled(s, OpIEndWaits([])) && Do(s, OpIEndWaits([])) == s
  {
    hide CoreOk, DispatchOk, ShapeOk, S.IEndWaits;
    InvShape(s);
    EndEachStep(s, [], true);
  }

  lemma ServeOp(s: State, q: QName, who: set<TaskId>)
    requires Inv(s) && s.intctx && q in s.cfg.queues && q in s.queue
    ensures var ts := Chosen(s.queue[q], who);
      && NoDup(ts) && (forall t :: t in ts ==> t in s.queue[q]) && S.AllTasks(ts, |s.tcb|)
      && ShapeOk(s) && Enabled(s, OpIEndWaits(ts)) && Do(s, OpIEndWaits(ts)) == S.IEndWaits(s, ts) && Inv(S.IEndWaits(s, ts))
  {
    hide CoreOk, DispatchOk, S.IEndWaits, Chosen;
    var ts := Chosen(s.queue[q], who);
    ObjectQueue(s, q);
    ChosenFrom(s.queue[q], who);
    forall i | 0 <= i < |ts|
      ensures ts[i] < |s.tcb| && s.tcb[ts[i]].tstat.waiting
    {
      assert ts[i] in ts;
    }
    IEndWaitsKeeps(s, ts);
  }

  /** One call of an interrupt handler. */
  method DoIntCall(k: Kernel, call: IntCall) returns (ghost op: Op)
    requires k.Rep() && Inv(k.View()) && k.intctx
    modifies k`tcb, k`queue, k`readyPrimap, k`schedtsk, k`runtsk, k`reqflg, k`almsta
    modifies k.tm.heap, k.tm`blocks, k.tm`times, k.tm`lastIndex, k.tm`pending
    ensures k.Rep() && Inv(k.View())
    ensures IntOp(op) && ShapeOk(old(k.View())) && Enabled(old(k.View()), op) && k.View() == Do(old(k.View()), op)
  {
    hide Inv, ShapeOk, Kernel.Rep, S.IActTsk, S.IWupTsk, S.IRelWai, S.IRotRdq, S.StaAlm, S.StpAlm;
    hide S.ActTsk, S.CanAct, S.ExtTsk, S.TerTsk, S.ChgPri, S.TslpTsk, S.DlyTsk, S.WupTsk, S.CanWup, S.RelWai, S.SusTsk, S.RsmTsk;
    hide S.RotRdq, S.DisDsp, S.EnaDsp, S.ChgIpm, S.TexReturn, S.StaCyc, S.StpCyc, S.WaitOn, S.EndWaits, S.IEndWaits, S.Fire;
    InvShape(k.View());
    var ercd: Ercd;
    match call
    case IAct(tskid) =>
      op := OpIActTsk(tskid);
      ercd := IActTsk(k, tskid);
    case IWup(tskid) =>
      op := OpIWupTsk(tskid);
      ercd := IWupTsk(k, tskid);
    case IRelease(tskid) =>
      op := OpIRelWai(tskid);
      ercd := IRelWai(k, tskid);
    case IRotate(tskpri) =>
      op := OpIRotRdq(tskpri);
      ercd := IRotRdq(k, tskpri);
    case IStart(almid, almtim) =>
      op := OpStaAlm(almid, almtim, true);
      ercd := StaAlm(k, almid, almtim, true);
    case IStop(almid) =>
      op := OpStpAlm(almid, true);
      ercd := StpAlm(k, almid, true);
    case IServe(q, who) =>
      op := Serve(k, q, who);
  }

  /** Interrupts are let in: handlers make any calls. */
  method Window(k: Kernel, calls: seq<IntCall>) returns (ghost ops: seq<Op>)
    requires k.Rep() && Inv(k.View()) && k.intctx
    modifies k`tcb, k`queue, k`readyPrimap, k`schedtsk, k`runtsk, k`reqflg, k`almsta
    modifies k.tm.heap, k.tm`blocks, k.tm`times, k.tm`lastIndex, k.tm`pending
    ensures k.Rep() && Inv(k.View())
    ensures Run(old(k.View()), ops, k.View()) && forall i :: 0 <= i < |ops| ==> IntOp(ops[i])
  {
    hide Inv, ShapeOk, Enabled, Do, Kernel.Rep;
    ops := [];
    for i := 0 to |calls|
      invariant k.Rep() && Inv(k.View())
      invariant Run(old(k.View()), ops, k.View()) && forall i :: 0 <= i < |ops| ==> IntOp(ops[i])
    {
      ghost var s := k.View();
      ghost var op := DoIntCall(k, calls[i]);
      RunOne(s, op);
      RunAppend(old(k.View()), ops, s, [op], k.View());
      ops := ops + [op];
    }
  }

  /** The event at the root is taken out. */
  method TakeTop(k: Kernel) returns (ghost e: Event, callback: Callback)
    requires k.Timing() && k.tm.lastIndex > 0
    requires |k.tm.pending| <= |k.cfg.ipriority| + |k.cfg.cyctim| + k.cfg.nalm
    requires k.tm.heap[0].event in k.tm.pending && k.tm.pending[k.tm.heap[0].event].time <= TickTime(k.cfg.time, k.tm.ticks)
    modifies k.tm.heap, k.tm`blocks, k.tm`times, k.tm`lastIndex, k.tm`pending
    ensures k.Timing() && S.IsTop(old(k.View()), e)
    ensures callback == old(k.tm.pending)[e].callback && k.tm.pending == old(k.tm.pending) - {e}
    ensures |k.tm.pending| < |k.cfg.ipriority| + |k.cfg.cyctim| + k.cfg.nalm
  {
    hide TickTime;
    k.tm.TopIsEarliest();
    e := k.tm.heap[0].event;
    k.tm.EventNode(e);
    callback := k.tm.blocks[k.tm.heap[0].event].callback;
    TakeIt(k, e);
  }

  /** tmevtb_delete_top. */
  method TakeIt(k: Kernel, ghost e: Event)
    requires k.Timing() && k.tm.lastIndex > 0 && k.tm.heap[0].event == e && e in k.tm.pending
    requires |k.tm.pending| <= |k.cfg.ipriority| + |k.cfg.cyctim| + k.cfg.nalm
    modifies k.tm.heap, k.tm`blocks, k.tm`times, k.tm`lastIndex, k.tm`pending
    ensures k.Timing() && k.tm.pending == old(k.tm.pending) - {e}
    ensures |k.tm.pending| < |k.cfg.ipriority| + |k.cfg.cyctim| + k.cfg.nalm
  {
    hide TimeEvents.Valid;
    k.tm.DeleteTop();
    ghost var was := old(k.tm.pending);
    assert k.tm.pending.Keys == was.Keys - {e};
    assert |was.Keys| == |was| && |k.tm.pending.Keys| == |k.tm.pending|;
  }

  /** A task whose time is up waits, and its callback is the one its wait was set up with. */
  lemma TimeoutFacts(s: State, t: TaskId)
    requires Inv(s) && s.cfg.time.Ok() && S.IsTop(s, TaskTimer(t))
    ensures t < |s.tcb| && s.tcb[t].tstat.waiting && !s.tcb[t].tstat.runnable
    ensures HasReady(s.queue) && PriOk(s.queue, s.tcb) && NotReady(s.queue, t) && s.tcb[t].priority < TNUM_TPRI
    ensures s.tcb[t].tstat.WaitWobj() ==> Wait(s.tcb[t].tstat.cause, s.tcb[t].wobj) in s.queue
    ensures s.pending[TaskTimer(t)].callback == if s.tcb[t].tstat.cause == DLY then WaitTmoutOk(t) else WaitTmout(t)
    ensures var ercd := if s.tcb[t].tstat.cause == DLY then E_OK else E_TMOUT;
      var c := Ended(s.tcb[t], ercd);
      var queue := EnterReady(S.Leave(s.queue, s.tcb[t], t), c, t);
      S.Fire(s, TaskTimer(t)) == s.(
        tcb := s.tcb[t := c], queue := queue, pending := s.pending - {TaskTimer(t)},
        reqflg := s.reqflg || (s.dspflg && Sched(queue) != Sched(s.queue)))
  {
    hide CoreOk, DispatchOk, S.Leave, S.Release, EnterReady, Sched;
    CallbackIs(s, TaskTimer(t));
    TaskFacts(s, t);
    ReadyFacts(s);
    WaitingFacts(s, t);
    ReleaseIs(s, t, E_OK);
    ReleaseIs(s, t, E_TMOUT);
  }

  /** The callback of a task's timer. */
  method FireTask(k: Kernel, t: TaskId, ok: bool, ghost s: State)
    requires k.Rep() && Inv(s) && s.cfg.time.Ok() && S.IsTop(s, TaskTimer(t))
    requires k.View() == s.(pending := s.pending - {TaskTimer(t)})
    requires s.pending[TaskTimer(t)].callback == if ok then WaitTmoutOk(t) else WaitTmout(t)
    modifies k`tcb, k`queue, k`readyPrimap, k`schedtsk, k`reqflg
    ensures k.Rep() && k.View() == S.Fire(s, TaskTimer(t))
  {
    hide Inv, Kernel.Timing, Mirrors, PriOk, Sched, S.Leave, EnterReady, S.IsTop, S.Fire;
    TimeoutFacts(s, t);
    if ok {
      TimeOutOk(k, t);
    } else {
      TimeOut(k, t);
    }
  }

  /** A cyclic handler that is due, in the terms of its next registration. */
  lemma CyclicFacts(k: Kernel, s: State, c: nat)
    requires k.Timing() && Inv(s) && s.ticking && s.cfg == k.cfg && s.ticks == k.tm.ticks && s.min == k.tm.min
    requires s.cfg.time.Ok() && S.IsTop(s, CycTimer(c))
    ensures c < |s.cyc| == |s.cfg.cyctim| && s.cfg.cyctim[c] > 0
    ensures var t := s.pending[CycTimer(c)].time;
      k.tm.min <= t && t + s.cfg.cyctim[c] < k.tm.min + s.cfg.time.w
    ensures var p := s.pending[CycTimer(c)];
      && p.callback == CallCychdr(c)
      && S.Fire(s, CycTimer(c)) == s.(pending := s.pending[CycTimer(c) := Pending(p.time + s.cfg.cyctim[c], CallCychdr(c))])
  {
    hide QueuesOk, Sorted, TimersOk, DispatchOk, Kernel.CycRep, TickTime, BaseTime;
    CallbackIs(s, CycTimer(c));
    HandlerFacts(s);
    k.tm.BaseFits();
  }

  /** The callback of a cyclic handler's timer, up to the call of the handler. */
  method FireCyc(k: Kernel, c: nat, ghost s: State)
    requires k.Rep() && Inv(s) && s.ticking && s.cfg.time.Ok() && S.IsTop(s, CycTimer(c))
    requires k.View() == s.(pending := s.pending - {CycTimer(c)})
    requires |k.tm.pending| < |k.cfg.ipriority| + |k.cfg.cyctim| + k.cfg.nalm
    requires |k.evttim| == |k.cycsta|
    requires c < |k.evttim| ==> k.evttim[c] == Word(s.pending[CycTimer(c)].time, k.cfg.time.w)
    modifies k`evttim, k.tm.heap, k.tm`blocks, k.tm`times, k.tm`lastIndex, k.tm`pending
    ensures k.Rep() && k.View() == S.Fire(s, CycTimer(c))
  {
    hide Inv, Kernel.SchedRep, Kernel.Timing, S.IsTop, S.Fire, Word, TickTime;
    TopPending(s, CycTimer(c));
    CyclicFacts(k, s, c);
    NextPeriod(k, c, s.pending[CycTimer(c)].time);
    assert k.tm.pending == s.pending[CycTimer(c) := Pending(s.pending[CycTimer(c)].time + s.cfg.cyctim[c], CallCychdr(c))];
  }

  /** The callback of an alarm handler's timer, up to the call of the handler. */
  method FireAlm(k: Kernel, a: nat, ghost s: State)
    requires k.Rep() && Inv(s) && s.cfg.time.Ok() && S.IsTop(s, AlmTimer(a))
    requires k.View() == s.(pending := s.pending - {AlmTimer(a)})
    modifies k`almsta
    ensures k.Rep() && k.View() == S.Fire(s, AlmTimer(a))
  {
    hide CoreOk, DispatchOk, Kernel.SchedRep, Kernel.Timing;
    CallbackIs(s, AlmTimer(a));
    k.almsta := k.almsta[a := false];
  }

  /** (*(p_tmevtb->callback))(p_tmevtb->arg), up to where interrupts are let in. */
  method FireCallback(k: Kernel, callback: Callback, ghost e: Event, ghost s: State)
    requires k.Rep() && Inv(s) && s.ticking && s.cfg.time.Ok() && S.IsTop(s, e) && e in s.pending
    requires k.View() == s.(pending := s.pending - {e}) && callback == s.pending[e].callback
    requires |k.tm.pending| < |k.cfg.ipriority| + |k.cfg.cyctim| + k.cfg.nalm
    requires |k.evttim| == |k.cycsta|
    requires forall c: nat :: c < |k.evttim| && CycTimer(c) in s.pending ==> k.evttim[c] == Word(s.pending[CycTimer(c)].time, k.cfg.time.w)
    modifies k`tcb, k`queue, k`readyPrimap, k`schedtsk, k`runtsk, k`reqflg, k`almsta, k`evttim
    modifies k.tm.heap, k.tm`blocks, k.tm`times, k.tm`lastIndex, k.tm`pending
    ensures k.Rep() && k.View() == S.Fire(s, e)
  {
    hide Kernel.Rep, CoreOk, DispatchOk, S.IsTop, S.Fire;
    CallbackIs(s, e);
    match callback
    case WaitTmout(t) => FireTask(k, t, false, s);
    case WaitTmoutOk(t) => FireTask(k, t, true, s);
    case CallCychdr(c) => FireCyc(k, c, s);
    case CallAlmhdr(a) => FireAlm(k, a, s);
  }

  /** The event at the root is due. */
  ghost predicate TopDue(k: Kernel)
    reads k.tm, k.tm.heap
  {
    && k.cfg.time.Ok() && k.tm.lastIndex > 0 && k.tm.heap.Length > 0
    && var e := k.tm.heap[0].event;
      e in k.tm.pending && k.tm.pending[e].time <= TickTime(k.cfg.time, k.tm.ticks)
  }

  ghost predicate NoneDue(s: State)
    requires s.cfg.time.Ok()
  {
    forall e :: e in s.pending ==> TickTime(s.cfg.time, s.ticks) < s.pending[e].time
  }

  /** The loop condition. */
  method IsDue(k: Kernel) returns (due: bool)
    requires k.Timing() && k.cfg.time.Ok()
    ensures if due then TopDue(k) else NoneDue(k.View())
  {
    due := k.tm.TopIsDue();
  }

  /** One turn of the loop, up to where interrupts are let in. */
  method FireTop(k: Kernel) returns (ghost e: Event)
    requires k.Rep() && Inv(k.View()) && k.ticking && TopDue(k)
    modifies k`tcb, k`queue, k`readyPrimap, k`schedtsk, k`runtsk, k`reqflg, k`almsta, k`evttim
    modifies k.tm.heap, k.tm`blocks, k.tm`times, k.tm`lastIndex, k.tm`pending
    ensures k.Rep() && Inv(k.View())
    ensures S.IsTop(old(k.View()), e) && k.View() == S.Fire(old(k.View()), e)
  {
    hide CoreOk, DispatchOk, Kernel.SchedRep, TimeEvents.Valid, TickTime, S.IsTop, S.Fire;
    ghost var s := k.View();
    HandlerFacts(s);
    assert forall c: nat :: c < |k.evttim| && CycTimer(c) in s.pending ==> k.evttim[c] == Word(s.pending[CycTimer(c)].time, k.cfg.time.w);
    var callback: Callback;
    e, callback := TakeTop(k);
    FireKeeps(s, e);
    TopPending(s, e);
    FireCallback(k, callback, e, s);
  }

  lemma TopPending(s: State, e: Event)
    requires s.cfg.time.Ok() && S.IsTop(s, e)
    ensures e in s.pending
  {
  }

  /** A turn of the loop leaves fewer events at the earliest time, or none. */
  lemma Progress(s: State, s1: State, e: Event)
    requires s.cfg.time.Ok() && S.IsTop(s, e) && e in s.pending && Turn(s, s1, e)
    ensures NoneBefore(s1, s.pending[e].time)
    ensures DueAt(s1, s.pending[e].time) <= DueAt(s, s.pending[e].time) - {e}
    ensures e in DueAt(s, s.pending[e].time)
  {
  }

  ghost function DueAt(s: State, time: nat): set<Event> {
    set e | e in s.pending && s.pending[e].time == time
  }

  /** What interrupt handlers call leaves the rest of the loop no more to do. */
  lemma {:induction false} WindowCalm(s: State, ops: seq<Op>, s': State)
    requires Inv(s) && s.cfg.time.Ok() && Run(s, ops, s') && forall i :: 0 <= i < |ops| ==> IntOp(ops[i])
    ensures Inv(s') && Calm(s, s')
    decreases |ops|
  {
    hide Inv, ShapeOk, Enabled, Do, Calm, TickTime;
    NothingNew(s);
    if ops != [] {
      var s1 := Do(s, ops[0]);
      StepKeeps(s, ops[0]);
      IntOpCalm(s, ops[0]);
      CalmTime(s, s1);
      assert forall i :: 0 <= i < |ops[1..]| ==> ops[1..][i] == ops[i + 1];
      WindowCalm(s1, ops[1..], s');
      StillCalm(s, s1, s');
    }
  }

  lemma CalmDue(s: State, s': State, low: nat)
    requires s.cfg.time.Ok() && Calm(s, s') && low <= TickTime(s.cfg.time, s.ticks)
    ensures DueAt(s', low) <= DueAt(s, low)
  {
  }

  /** One turn of the loop, with the calls that are let in after it: what was earliest has
      become less, and nothing is due earlier. */
  method OneTurn(k: Kernel, calls: seq<IntCall>) returns (ghost e: Event, ghost ops: seq<Op>)
    requires k.Rep() && Inv(k.View()) && k.ticking && TopDue(k)
    modifies k`tcb, k`queue, k`readyPrimap, k`schedtsk, k`runtsk, k`reqflg, k`almsta, k`evttim
    modifies k.tm.heap, k.tm`blocks, k.tm`times, k.tm`lastIndex, k.tm`pending
    ensures k.Rep() && Inv(k.View())
    ensures Run(old(k.View()), ops, k.View()) && TickOps(ops)
    ensures e in old(k.tm.pending) && old(k.tm.pending)[e].time <= TickTime(k.cfg.time, k.tm.ticks)
    ensures NoneBefore(k.View(), old(k.tm.pending)[e].time)
    ensures |DueAt(k.View(), old(k.tm.pending)[e].time)| < |DueAt(old(k.View()), old(k.tm.pending)[e].time)|
  {
    hide Inv, ShapeOk, Enabled, Do, Kernel.Rep, S.IsTop, S.Fire, NoneBefore, DueAt, Calm, TickTime;
    ghost var s := k.View();
    IntContext(s);
    e := FireTop(k);
    ghost var s1 := k.View();
    FireRun(s, e);
    Progress(s, s1, e);
    ghost var low := s.pending[e].time;
    assert |DueAt(s1, low)| < |DueAt(s, low)| by {
      SubsetSmaller(DueAt(s1, low), DueAt(s, low), e);
    }
    ops := Window(k, calls);
    WindowCalm(s1, ops, k.View());
    CalmDue(s1, k.View(), low);
    CalmLow(s1, k.View(), low);
    SubsetSize(DueAt(k.View(), low), DueAt(s1, low));
    RunAppend(s, [OpFire(e)], s1, ops, k.View());
    ops := [OpFire(e)] + ops;
  }

  lemma SubsetSmaller(a: set<Event>, b: set<Event>, e: Event)
    requires a <= b - {e} && e in b
    ensures |a| < |b|
  {
    SubsetSize(a, b - {e});
  }

  lemma IntContext(s: State)
    requires Inv(s) && s.ticking
    ensures s.intctx && ShapeOk(s) && CoreOk(s)
  {
    hide QueuesOk, Sorted, TimersOk, DispatchOk;
  }

  lemma FireRun(s: State, e: Event)
    requires Inv(s) && s.ticking && s.cfg.time.Ok() && S.IsTop(s, e)
    ensures e in s.pending && s.pending[e].time <= TickTime(s.cfg.time, s.ticks)
    ensures Run(s, [OpFire(e)], S.Fire(s, e)) && Turn(s, S.Fire(s, e), e)
  {
    hide CoreOk, DispatchOk, S.Fire;
    IntContext(s);
    FireTurn(s, e);
    RunOne(s, OpFire(e));
  }

  /** The head of signal_time. */
  method StartTick(k: Kernel)
    requires k.Rep() && Inv(k.View()) && k.intctx && !k.ticking
    modifies k`ticking, k.tm`currentTime, k.tm`nextTime, k.tm`nextSubtime, k.tm`ticks
    ensures k.Rep() && Inv(k.View()) && k.ticking && k.View() == S.TickStart(old(k.View()))
  {
    hide CoreOk, DispatchOk, Kernel.SchedRep, TimeEvents.Valid, TickTime;
    ghost var s := k.View();
    TickStartKeeps(s);
    InStep(s);
    k.tm.AdvanceTime();
    k.ticking := true;
  }

  lemma InStep(s: State)
    requires Inv(s)
    ensures s.cfg.time.Ok() && (!s.ticking ==> s.min == TickTime(s.cfg.time, s.ticks))
  {
    hide QueuesOk, Sorted, TimersOk, DispatchOk;
  }

  /** The loop of signal_time. It ends, whatever is called in between: the earliest time
      does not go back, and at the same time there are ever fewer events. */
  method DrainHeap(k: Kernel, windows: seq<seq<IntCall>>) returns (ghost ops: seq<Op>)
    requires k.Rep() && Inv(k.View()) && k.ticking
    modifies k`tcb, k`queue, k`readyPrimap, k`schedtsk, k`runtsk, k`reqflg, k`almsta, k`evttim
    modifies k.tm.heap, k.tm`blocks, k.tm`times, k.tm`lastIndex, k.tm`pending
    ensures k.Rep() && Inv(k.View()) && k.cfg.time.Ok()
    ensures Run(old(k.View()), ops, k.View()) && TickOps(ops) && NoneDue(k.View())
  {
    hide Inv, ShapeOk, Enabled, Do, Kernel.SchedRep, Kernel.CycRep, TimeEvents.Valid, NoneBefore, DueAt, TopDue, NoneDue, TickTime;
    InStep(k.View());
    NoneBeforeZero(k.View());
    ghost var low := 0;
    ops := [];
    var turn := 0;
    var due := IsDue(k);
    while due
      invariant k.Rep() && Inv(k.View())
      invariant Run(old(k.View()), ops, k.View()) && TickOps(ops)
      invariant if due then TopDue(k) else NoneDue(k.View())
      invariant NoneBefore(k.View(), low) && low <= TickTime(k.cfg.time, k.tm.ticks)
      decreases TickTime(k.cfg.time, k.tm.ticks) - low, |DueAt(k.View(), low)|
    {
      ghost var s := k.View();
      ghost var e, more := OneTurn(k, if turn < |windows| then windows[turn] else []);
      LowIs(s, low, e);
      RunAppend(old(k.View()), ops, s, more, k.View());
      ops := ops + more;
      low := s.pending[e].time;
      turn := turn + 1;
      due := IsDue(k);
    }
  }

  /** signal_time, with the calls that interrupt handlers make after the first callback,
      the second one, and so on: due events fire until nothing is due. */
  method SignalTime(k: Kernel, windows: seq<seq<IntCall>>) returns (ghost ops: seq<Op>, ghost s1: State)
    requires k.Rep() && Inv(k.View()) && k.intctx && !k.ticking
    modifies k`tcb, k`queue, k`readyPrimap, k`schedtsk, k`runtsk, k`reqflg, k`almsta, k`evttim, k`ticking
    modifies k.tm.heap, k.tm`blocks, k.tm`times, k.tm`lastIndex, k.tm`pending
    modifies k.tm`currentTime, k.tm`nextTime, k.tm`nextSubtime, k.tm`ticks, k.tm`minTime, k.tm`min
    ensures k.Rep() && Inv(k.View()) && k.cfg.time.Ok()
    ensures Run(S.TickStart(old(k.View())), ops, s1) && TickOps(ops)
    ensures s1.cfg == k.cfg && NoneDue(s1)
    ensures k.View() == S.TickEnd(s1)
  {
    hide Inv, Kernel.Rep, Run, NoneDue, TickTime, S.TickStart;
    StartTick(k);
    ops := DrainHeap(k, windows);
    s1 := k.View();
    EndTick(k);
  }

  lemma NoneBeforeZero(s: State)
    ensures NoneBefore(s, 0)
  {
  }

  /** The tail of signal_time. */
  method EndTick(k: Kernel)
    requires k.Rep() && Inv(k.View()) && k.ticking && k.cfg.time.Ok()
    requires NoneDue(k.View())
    modifies k`ticking, k.tm`minTime, k.tm`min
    ensures k.Rep() && Inv(k.View()) && k.View() == S.TickEnd(old(k.View()))
  {
    hide CoreOk, DispatchOk, Kernel.SchedRep, TimeEvents.Valid, TickTime;
    TickEndKeeps(k.View());
    k.tm.Rebase();
    k.ticking := false;
  }

  /** A tick is part of a run: its head, the turns of the loop with what is called in between,
      and its tail. So everything that holds over runs holds over ticks. */
  lemma TickIsRun(s: State, ops: seq<Op>, s1: State)
    requires Inv(s) && s.intctx && !s.ticking && s.cfg.time.Ok()
    requires Run(S.TickStart(s), ops, s1) && TickOps(ops) && s1.cfg == s.cfg && NoneDue(s1)
    ensures Run(s, [OpTickStart] + ops + [OpTickEnd], S.TickEnd(s1))
  {
    hide CoreOk, DispatchOk, Run, NoneDue;
    InvShape(s);
    TickStartKeeps(s);
    StillTicking(S.TickStart(s), ops, s1);
    InvShape(s1);
    TickEndPossible(s1);
    RunOne(s, OpTickStart);
    RunOne(s1, OpTickEnd);
    RunAppend(s, [OpTickStart], S.TickStart(s), ops, s1);
    RunAppend(s, [OpTickStart] + ops, s1, [OpTickEnd], S.TickEnd(s1));
  }

  lemma TickEndPossible(s: State)
    requires s.cfg.time.Ok() && s.ticking && NoneDue(s)
    ensures Enabled(s, OpTickEnd)
  {
  }
}
