/**
 What a step of the kernel can do to tasks that wait on an object, when it is no service
 call on that object: end their waits with an error, but nothing else. From this, every
 object can count on its own wait queue.
 */
module WaitSteps {
  import opened Common
  import opened Subsequence
  import opened HeapLinks
  import opened SystemTime
  import opened KernelState
  import opened KernelSpec
  import opened KernelInv
  import opened KernelRuns

  predicate WaitsIn(c: Tcb, q: QName) {
    c.tstat.waiting && q == Wait(c.tstat.cause, c.wobj)
  }

  /** One task: it waits as before; or its wait, if it was in `q`, has been broken or has timed out, or the task
      has been terminated; or it did not wait, and what its last wait ended with stays. */
  ghost predicate WaitKept(c: Tcb, c': Tcb, q: QName) {
    if c'.tstat.waiting then
      && c.tstat.waiting && c'.tstat.cause == c.tstat.cause && c'.wobj == c.wobj && c'.winfo == c.winfo
    else if c.tstat.waiting then
      WaitsIn(c, q) ==> c'.winfo == c.winfo || c'.winfo == Wercd(E_TMOUT) || c'.winfo == Wercd(E_RLWAI)
    else
      c'.winfo == c.winfo
  }

  /** All tasks but `who`, which has started to wait somewhere else than in `q`; and the order in `q`. */
  ghost predicate Kept(s: State, s': State, q: QName, who: Option<TaskId>) {
    && s'.cfg == s.cfg && |s'.tcb| == |s.tcb|
    && (forall t: nat :: t < |s.tcb| && Some(t) != who ==> WaitKept(s.tcb[t], s'.tcb[t], q))
    && (who.Some? && who.value < |s.tcb| ==> Home(s'.tcb[who.value]) != Some(q) && s'.tcb[who.value].tstat.waiting)
    && q in s.queue && q in s'.queue
    && (q !in s.cfg.tpri ==> Subseq(s'.queue[q], s.queue[q]))
  }

  /** `op` is no service call on the object with the wait queue `q`. */
  ghost predicate Foreign(s: State, op: Op, q: QName) {
    match op
    case OpWaitOn(p, _) => p != q
    case OpEndWaits(ts, _) => NoneWaits(s, ts, q)
    case OpIEndWaits(ts) => NoneWaits(s, ts, q)
    case _ => true
  }

  ghost predicate NoneWaits(s: State, ts: seq<TaskId>, q: QName) {
    forall i :: 0 <= i < |ts| ==> ts[i] < |s.tcb| && !WaitsIn(s.tcb[ts[i]], q)
  }

  // ----- parts of steps -----

  /** Only control blocks and queues matter. */
  lemma SameKept(s: State, s1: State, s2: State, q: QName, who: Option<TaskId>)
    requires Kept(s, s1, q, who) && s2.cfg == s1.cfg && s2.tcb == s1.tcb && s2.queue == s1.queue
    ensures Kept(s, s2, q, who)
  {
  }

  lemma NothingKept(s: State, q: QName)
    requires q in s.queue
    ensures Kept(s, s, q, None)
  {
    SubseqSelf(s.queue[q]);
  }

  lemma KeptTrans(s: State, s1: State, s2: State, q: QName)
    requires Kept(s, s1, q, None) && Kept(s1, s2, q, None)
    ensures Kept(s, s2, q, None)
  {
    if q !in s.cfg.tpri {
      SubseqTrans(s2.queue[q], s1.queue[q], s.queue[q]);
    }
    forall t: nat | t < |s.tcb|
      ensures WaitKept(s.tcb[t], s2.tcb[t], q)
    {
      assert WaitKept(s.tcb[t], s1.tcb[t], q) && WaitKept(s1.tcb[t], s2.tcb[t], q);
    }
  }

  lemma EndKept(s: State, q: QName)
    ensures forall r: Result, who {:trigger TaskEnd(r), Kept(s, r.s, q, who)} :: Kept(s, r.s, q, who) ==> Kept(s, TaskEnd(r).s, q, who)
    ensures forall r: Result, who {:trigger IntEnd(s, r), Kept(s, r.s, q, who)} :: Kept(s, r.s, q, who) ==> Kept(s, IntEnd(s, r).s, q, who)
  {
    hide Sched, WaitKept, Subseq;
  }

  /** A task that does not come to `q` moves. */
  lemma RehomeKept(s: State, t: TaskId, c: Tcb, q: QName)
    requires t < |s.tcb| && q in s.queue && WaitKept(s.tcb[t], c, q)
    requires Home(c) == Some(q) ==> q in s.cfg.tpri
    ensures Kept(s, Rehome(s, t, c), q, None)
    ensures Rehome(s, t, c).tcb == s.tcb[t := c] && Rehome(s, t, c).cfg == s.cfg
  {
    hide InsertTpri, Remove, Subseq, WaitKept;
    SubseqSelf(s.queue[q]);
    SubseqRemove(s.queue[q], t);
    forall x: nat | x < |s.tcb|
      ensures WaitKept(s.tcb[x], s.tcb[t := c][x], q)
    {
      if x != t {
        UnchangedKept(s.tcb[x], q);
      }
    }
  }

  lemma UnchangedKept(c: Tcb, q: QName)
    ensures WaitKept(c, c, q)
  {
  }

  lemma RetagKept(s: State, t: TaskId, c: Tcb, q: QName)
    requires t < |s.tcb| && q in s.queue && WaitKept(s.tcb[t], c, q)
    ensures Kept(s, Retag(s, t, c), q, None)
  {
    SubseqSelf(s.queue[q]);
  }

  /** The end of a wait that is none for `q`, or that ends with an error. */
  lemma ReleaseKept(s: State, t: TaskId, ercd: Ercd, q: QName)
    requires t < |s.tcb| && q in s.queue && q.Wait? && q.cause >= RDTQ && s.tcb[t].tstat.waiting
    requires !WaitsIn(s.tcb[t], q) || ercd == E_TMOUT || ercd == E_RLWAI
    ensures Kept(s, Release(s, t, ercd), q, None)
  {
    hide Rehome, Kept;
    var tstat := if s.tcb[t].tstat.suspended then TS_SUSPENDED else TS_RUNNABLE;
    var c := s.tcb[t].(tstat := tstat, winfo := Wercd(ercd));
    RehomeKept(s, t, c, q);
    SameKept(s, Rehome(s, t, c), Release(s, t, ercd), q, None);
  }

  lemma TerminateKept(s: State, t: TaskId, q: QName)
    requires t < |s.tcb| == |s.cfg.ipriority| && q in s.queue && q.Wait? && q.cause >= RDTQ
    ensures Kept(s, Terminate(s, t), q, None)
  {
    hide Rehome, Kept;
    var c := s.tcb[t].(tstat := TS_DORMANT, priority := s.cfg.ipriority[t], wupque := false, actque := false);
    RehomeKept(s, t, c, q);
    var s1 := Rehome(s, t, c).(pending := s.pending - {TaskTimer(t)});
    SameKept(s, Rehome(s, t, c), s1, q, None);
    if s.tcb[t].actque {
      assert q in s1.queue by { KeptQueue(s, s1, q); }
      RehomeKept(s1, t, s1.tcb[t].(tstat := TS_RUNNABLE), q);
      KeptTrans(s, s1, MakeActive(s1, t), q);
    }
  }

  lemma KeptQueue(s: State, s': State, q: QName)
    requires Kept(s, s', q, None)
    ensures q in s'.queue && s'.cfg == s.cfg && |s'.tcb| == |s.tcb|
  {
  }

  lemma ActivateKept(s: State, t: TaskId, q: QName)
    requires t < |s.tcb| && q in s.queue && q.Wait? && q.cause >= RDTQ
    ensures Kept(s, Activate(s, t).s, q, None)
  {
    hide Rehome, Retag, Kept;
    NothingKept(s, q);
    if s.tcb[t].tstat.Dormant() {
      RehomeKept(s, t, s.tcb[t].(tstat := TS_RUNNABLE), q);
    }
    RetagKept(s, t, s.tcb[t].(actque := true), q);
  }

  lemma ChangePriorityKept(s: State, t: TaskId, pri: nat, q: QName)
    requires t < |s.tcb| && q in s.queue && q.Wait? && q.cause >= RDTQ
    ensures Kept(s, ChangePriority(s, t, pri), q, None)
  {
    hide Rehome, Retag, Kept;
    var c := s.tcb[t].(priority := pri);
    RetagKept(s, t, c, q);
    if c.tstat.runnable || (Home(c).Some? && Home(c).value in s.cfg.tpri) {
      RehomeKept(s, t, c, q);
    }
  }

  lemma WakeupKept(s: State, t: TaskId, q: QName)
    requires CoreOk(s) && t < |s.tcb| && q in s.queue && q.Wait? && q.cause >= RDTQ
    ensures Kept(s, Wakeup(s, t).s, q, None) && Kept(s, BreakWait(s, t).s, q, None)
  {
    hide Release, Retag, Kept, QueuesOk, TimersOk, Sorted, ClockOk;
    NothingKept(s, q);
    assert TaskOk(s.cfg, t, s.tcb[t]);
    if s.tcb[t].tstat.waiting {
      ReleaseKept(s, t, E_RLWAI, q);
      if s.tcb[t].tstat.WaitSlp() {
        ReleaseKept(s, t, E_OK, q);
      }
    }
    RetagKept(s, t, s.tcb[t].(wupque := true), q);
  }

  /** The running task waits elsewhere. */
  lemma MakeWaitKept(s: State, cause: nat, wobj: nat, tmout: Option<nat>, q: QName)
    requires InTask(s) && s.cfg.time.Ok() && q in s.queue && q.Wait? && q.cause >= RDTQ && q != Wait(cause, wobj)
    requires s.tcb[s.runtsk.value].tstat.runnable
    ensures Kept(s, MakeWait(s, cause, wobj, tmout), q, s.runtsk)
  {
    hide InsertTpri, Remove, Subseq, WaitKept, BaseTime;
    SubseqSelf(s.queue[q]);
    forall t: nat | t < |s.tcb|
      ensures WaitKept(s.tcb[t], s.tcb[t], q)
    {
      UnchangedKept(s.tcb[t], q);
    }
  }

  // ----- whole steps -----

  lemma {:induction false} ReleaseAllKept(s: State, ts: seq<TaskId>, ercd: Ercd, q: QName)
    requires CoreOk(s) && AllWaiting(s, ts) && NoneWaits(s, ts, q) && AllTasks(ts, |s.tcb|) && q in s.queue && q.Wait? && q.cause >= RDTQ
    ensures Kept(s, ReleaseAll(s, ts, ercd), q, None)
    decreases |ts|
  {
    hide Release, Kept, QueuesOk, TimersOk, Sorted, ClockOk;
    NothingKept(s, q);
    if ts != [] {
      var s1 := Release(s, ts[0], ercd);
      ReleaseKept(s, ts[0], ercd, q);
      RestWaits(s, s1, ts, ercd, q);
      ReleaseKeeps(s, ts[0], ercd);
      ReleaseAllKept(s1, ts[1..], ercd, q);
      KeptTrans(s, s1, ReleaseAll(s1, ts[1..], ercd), q);
    }
  }

  /** Tasks after the first still wait when that is released. */
  lemma RestWaits(s: State, s1: State, ts: seq<TaskId>, ercd: Ercd, q: QName)
    requires ts != [] && AllWaiting(s, ts) && NoneWaits(s, ts, q) && AllTasks(ts, |s.tcb|) && q in s.queue
    requires s1 == Release(s, ts[0], ercd)
    ensures |s1.tcb| == |s.tcb| && s1.queue.Keys == s.queue.Keys
    ensures AllWaiting(s1, ts[1..]) && NoneWaits(s1, ts[1..], q)
  {
    hide InsertTpri, Remove;
    assert forall i :: 0 <= i < |ts[1..]| ==> ts[1..][i] == ts[i + 1];
  }

  lemma {:induction false} IEndWaitsKept(s: State, ts: seq<TaskId>, q: QName)
    requires CoreOk(s) && AllWaiting(s, ts) && NoneWaits(s, ts, q) && AllTasks(ts, |s.tcb|) && q in s.queue && q.Wait? && q.cause >= RDTQ
    ensures Kept(s, IEndWaits(s, ts), q, None)
    decreases |ts|
  {
    hide Release, Kept, QueuesOk, TimersOk, Sorted, ClockOk, Sched;
    NothingKept(s, q);
    if ts != [] {
      var s0 := Release(s, ts[0], E_OK);
      var s1 := IntEnd(s, Result(s0, Returns(E_OK))).s;
      ReleaseKept(s, ts[0], E_OK, q);
      SameKept(s, s0, s1, q, None);
      RestWaits(s, s0, ts, E_OK, q);
      ReleaseKeeps(s, ts[0], E_OK);
      DispatchCore(s0);
      IEndWaitsKept(s1, ts[1..], q);
      KeptTrans(s, s1, IEndWaits(s1, ts[1..]), q);
    }
  }

  // The service calls, one by one or in groups.

  lemma ActCallsKept(s: State, tskid: int, q: QName)
    requires q in s.queue && q.Wait? && q.cause >= RDTQ
    ensures Kept(s, ActTsk(s, tskid).s, q, None) && Kept(s, IActTsk(s, tskid).s, q, None) && Kept(s, CanAct(s, tskid).s, q, None)
  {
    hide TaskEnd, IntEnd, Activate, Kept, Retag;
    NothingKept(s, q);
    EndKept(s, q);
    forall t: nat | t < |s.tcb|
      ensures Kept(s, Activate(s, t).s, q, None)
      ensures Kept(s, Retag(s, t, s.tcb[t].(actque := false)), q, None)
    {
      ActivateKept(s, t, q);
      RetagKept(s, t, s.tcb[t].(actque := false), q);
    }
  }

  lemma EndCallsKept(s: State, tskid: int, q: QName)
    requires ShapeOk(s) && q in s.queue && q.Wait? && q.cause >= RDTQ
    ensures Kept(s, ExtTsk(s).s, q, None) && Kept(s, TerTsk(s, tskid).s, q, None)
  {
    hide Terminate, TaskEnd, Kept, QueueNames;
    NothingKept(s, q);
    EndKept(s, q);
    if InTask(s) {
      var s1 := s.(disdsp := false, ipmflg := true, dspflg := true);
      SameKept(s, s, s1, q, None);
      TerminateKept(s1, s.runtsk.value, q);
      KeptTrans(s, s1, Terminate(s1, s.runtsk.value), q);
      if Target(s, tskid, false).Some? {
        TerminateKept(s, Target(s, tskid, false).value, q);
      }
    }
  }

  lemma ChgPriKept(s: State, tskid: int, tskpri: int, q: QName)
    requires ShapeOk(s) && q in s.queue && q.Wait? && q.cause >= RDTQ
    ensures Kept(s, ChgPri(s, tskid, tskpri).s, q, None)
  {
    hide TaskEnd, ChangePriority, Kept, QueueNames;
    NothingKept(s, q);
    EndKept(s, q);
    forall t: nat, pri: nat | t < |s.tcb|
      ensures Kept(s, ChangePriority(s, t, pri), q, None)
    {
      ChangePriorityKept(s, t, pri, q);
    }
  }

  /** Starting to sleep or to be delayed, or to wait elsewhere. */
  ghost predicate KeptBy(s: State, s': State, q: QName) {
    Kept(s, s', q, None) || (s.runtsk.Some? && Kept(s, s', q, s.runtsk))
  }

  lemma SleepCallsKept(s: State, tmout: int, dlytim: nat, q: QName)
    requires Inv(s) && q in s.queue && q.Wait? && q.cause >= RDTQ
    ensures s.cfg.time.Ok()
    ensures KeptBy(s, TslpTsk(s, tmout).s, q) && KeptBy(s, DlyTsk(s, dlytim).s, q)
  {
    hide CoreOk, MakeWait, TaskEnd, Kept, Retag, Sched;
    NothingKept(s, q);
    EndKept(s, q);
    InvShape(s);
    if InTask(s) {
      RetagKept(s, s.runtsk.value, s.tcb[s.runtsk.value].(wupque := false), q);
      MakeWaitKept(s, SLP, s.tcb[s.runtsk.value].wobj, if tmout > 0 then Some(tmout) else None, q);
      MakeWaitKept(s, DLY, s.tcb[s.runtsk.value].wobj, Some(dlytim), q);
    }
  }

  lemma WaitOnKept(s: State, p: QName, tmout: int, q: QName)
    requires Inv(s) && MayWait(s) && s.cfg.time.Ok() && q in s.queue && q.Wait? && q.cause >= RDTQ && p.Wait? && p != q
    ensures KeptBy(s, WaitOn(s, p, tmout).s, q)
  {
    hide CoreOk, MakeWait, TaskEnd, Kept, Sched;
    EndKept(s, q);
    MakeWaitKept(s, p.cause, p.id, if tmout > 0 then Some(tmout) else None, q);
  }

  lemma WakeCallsKept(s: State, tskid: int, q: QName)
    requires CoreOk(s) && q in s.queue && q.Wait? && q.cause >= RDTQ
    ensures Kept(s, WupTsk(s, tskid).s, q, None) && Kept(s, IWupTsk(s, tskid).s, q, None) && Kept(s, CanWup(s, tskid).s, q, None)
    ensures Kept(s, RelWai(s, tskid).s, q, None) && Kept(s, IRelWai(s, tskid).s, q, None)
  {
    hide Wakeup, BreakWait, Retag, TaskEnd, IntEnd, Kept, CoreOk;
    NothingKept(s, q);
    EndKept(s, q);
    forall t: nat | t < |s.tcb|
      ensures Kept(s, Wakeup(s, t).s, q, None)
      ensures Kept(s, BreakWait(s, t).s, q, None)
      ensures Kept(s, Retag(s, t, s.tcb[t].(wupque := false)), q, None)
    {
      WakeupKept(s, t, q);
      RetagKept(s, t, s.tcb[t].(wupque := false), q);
    }
  }

  lemma SuspendCallsKept(s: State, tskid: int, q: QName)
    requires CoreOk(s) && q in s.queue && q.Wait? && q.cause >= RDTQ
    ensures Kept(s, SusTsk(s, tskid).s, q, None) && Kept(s, RsmTsk(s, tskid).s, q, None)
  {
    hide Rehome, Retag, TaskEnd, Kept, QueuesOk, TimersOk, Sorted, ClockOk;
    NothingKept(s, q);
    EndKept(s, q);
    forall t: nat | t < |s.tcb|
      ensures s.tcb[t].tstat.runnable ==> Kept(s, Rehome(s, t, s.tcb[t].(tstat := TS_SUSPENDED)), q, None)
      ensures s.tcb[t].tstat.suspended && !s.tcb[t].tstat.waiting ==> Kept(s, Rehome(s, t, s.tcb[t].(tstat := TS_RUNNABLE)), q, None)
      ensures Kept(s, Retag(s, t, s.tcb[t].(tstat := s.tcb[t].tstat.(suspended := true))), q, None)
      ensures Kept(s, Retag(s, t, s.tcb[t].(tstat := s.tcb[t].tstat.(suspended := false))), q, None)
    {
      assert TaskOk(s.cfg, t, s.tcb[t]);
      if s.tcb[t].tstat.runnable {
        RehomeKept(s, t, s.tcb[t].(tstat := TS_SUSPENDED), q);
      }
      if s.tcb[t].tstat.suspended && !s.tcb[t].tstat.waiting {
        RehomeKept(s, t, s.tcb[t].(tstat := TS_RUNNABLE), q);
      }
      RetagKept(s, t, s.tcb[t].(tstat := s.tcb[t].tstat.(suspended := true)), q);
      RetagKept(s, t, s.tcb[t].(tstat := s.tcb[t].tstat.(suspended := false)), q);
    }
  }

  lemma RotateCallsKept(s: State, tskpri: int, q: QName)
    requires q in s.queue && q.Wait? && q.cause >= RDTQ
    ensures Kept(s, RotRdq(s, tskpri).s, q, None) && Kept(s, IRotRdq(s, tskpri).s, q, None)
  {
    hide TaskEnd, IntEnd, Kept, RotateReady;
    NothingKept(s, q);
    EndKept(s, q);
    forall pri: nat
      ensures Kept(s, RotateReady(s, pri), q, None)
    {
      RotateKept(s, pri, q);
    }
  }

  lemma RotateKept(s: State, pri: nat, q: QName)
    requires q in s.queue && q.Wait? && q.cause >= RDTQ
    ensures Kept(s, RotateReady(s, pri), q, None)
  {
    SubseqSelf(s.queue[q]);
  }

  /** Everything else leaves control blocks and queues alone. */
  lemma OthersKept(s: State, op: Op, q: QName)
    requires ShapeOk(s) && Enabled(s, op) && q in s.queue
    requires op.OpDisDsp? || op.OpEnaDsp? || op.OpChgIpm? || op.OpTexReturn? || op.OpStaAlm? || op.OpStpAlm? || op.OpStaCyc?
      || op.OpStpCyc? || op.OpEnterInt? || op.OpExitInt? || op.OpTickStart? || op.OpTickEnd?
    ensures Kept(s, Do(s, op), q, None)
  {
    hide Kept, ShapeOk, Enabled, Do;
    NothingKept(s, q);
    SameParts(s, op);
    SameKept(s, s, Do(s, op), q, None);
  }

  lemma SameParts(s: State, op: Op)
    requires ShapeOk(s) && Enabled(s, op)
    requires op.OpDisDsp? || op.OpEnaDsp? || op.OpChgIpm? || op.OpTexReturn? || op.OpStaAlm? || op.OpStpAlm? || op.OpStaCyc?
      || op.OpStpCyc? || op.OpEnterInt? || op.OpExitInt? || op.OpTickStart? || op.OpTickEnd?
    ensures SameTasks(s, Do(s, op))
  {
    hide SameTasks, ShapeOk, Enabled, Do;
    if op.OpStaAlm? || op.OpStpAlm? || op.OpStaCyc? || op.OpStpCyc? {
      SameByHandlers(s, op);
    } else {
      SameByFlags(s, op);
    }
  }

  lemma SameByHandlers(s: State, op: Op)
    requires ShapeOk(s) && Enabled(s, op) && (op.OpStaAlm? || op.OpStpAlm? || op.OpStaCyc? || op.OpStpCyc?)
    ensures SameTasks(s, Do(s, op))
  {
    hide SameTasks, ShapeOk, Enabled, StaAlm, StpAlm, StaCyc, StpCyc;
    match op
    case OpStaAlm(almid, almtim, fromInt) => HandlerParts(s, almid, almtim, fromInt);
    case OpStpAlm(almid, fromInt) => HandlerParts(s, almid, 0, fromInt);
    case OpStaCyc(cycid) => HandlerParts(s, cycid, 0, true);
    case OpStpCyc(cycid) => HandlerParts(s, cycid, 0, true);
  }

  lemma SameByFlags(s: State, op: Op)
    requires ShapeOk(s) && Enabled(s, op)
    requires op.OpDisDsp? || op.OpEnaDsp? || op.OpChgIpm? || op.OpTexReturn? || op.OpEnterInt? || op.OpExitInt? || op.OpTickStart? || op.OpTickEnd?
    ensures SameTasks(s, Do(s, op))
  {
    hide ActTsk, IActTsk, CanAct, ExtTsk, TerTsk, ChgPri, TslpTsk, DlyTsk, WupTsk, IWupTsk, CanWup, RelWai, IRelWai, SusTsk, RsmTsk;
    hide RotRdq, IRotRdq, WaitOn, EndWaits, IEndWaits, Fire, StaAlm, StpAlm, StaCyc, StpCyc;
    hide SameTasks, ShapeOk, Enabled, DisDsp, EnaDsp, ChgIpm, TexReturn, EnterInt, ExitInt, TickStart, TickEnd;
    match op
    case OpChgIpm(ena) => FlagParts(s, ena);
    case OpTexReturn(saved) => FlagParts(s, saved);
    case OpDisDsp => FlagParts(s, true);
    case OpEnaDsp => FlagParts(s, true);
    case _ => InterruptParts(s);
  }

  predicate SameTasks(s: State, s': State) {
    s'.cfg == s.cfg && s'.tcb == s.tcb && s'.queue == s.queue
  }

  lemma FlagParts(s: State, b: bool)
    ensures SameTasks(s, DisDsp(s).s) && SameTasks(s, EnaDsp(s).s) && SameTasks(s, ChgIpm(s, b).s) && SameTasks(s, TexReturn(s, b).s)
  {
    hide Sched;
  }

  lemma InterruptParts(s: State)
    requires ShapeOk(s)
    ensures SameTasks(s, EnterInt(s)) && SameTasks(s, ExitInt(s)) && SameTasks(s, TickStart(s)) && SameTasks(s, TickEnd(s))
  {
    hide Sched, TickTime, QueueNames;
  }

  lemma HandlerParts(s: State, id: int, almtim: nat, fromInt: bool)
    requires ShapeOk(s)
    ensures SameTasks(s, StaAlm(s, id, almtim, fromInt).s) && SameTasks(s, StpAlm(s, id, fromInt).s)
    ensures SameTasks(s, StaCyc(s, id).s) && SameTasks(s, StpCyc(s, id).s)
  {
    hide StartAlarm, StopAlarm, SameTasks, QueueNames;
    NoTask(s);
    CyclicParts(s, id);
    forall a: nat | a < |s.alm|
      ensures SameTasks(s, StartAlarm(s, a, almtim))
      ensures SameTasks(s, StopAlarm(s, a))
    {
      AlarmParts(s, a, almtim);
    }
  }

  lemma NoTask(s: State)
    ensures SameTasks(s, s)
  {
  }

  lemma AlarmParts(s: State, a: nat, almtim: nat)
    requires s.cfg.time.Ok() && a < |s.alm|
    ensures SameTasks(s, StartAlarm(s, a, almtim)) && SameTasks(s, StopAlarm(s, a))
  {
    hide BaseTime;
  }

  lemma CyclicParts(s: State, id: int)
    requires ShapeOk(s)
    ensures SameTasks(s, StaCyc(s, id).s) && SameTasks(s, StpCyc(s, id).s)
  {
    hide BaseTime, QueueNames;
  }

  lemma FireKept(s: State, e: Event, q: QName)
    requires Inv(s) && s.ticking && s.cfg.time.Ok() && IsTop(s, e) && q in s.queue && q.Wait? && q.cause >= RDTQ
    ensures Kept(s, Fire(s, e), q, None)
  {
    hide CoreOk, DispatchOk, Release, IntEnd, Kept, Sched, IsTop;
    NothingKept(s, q);
    EndKept(s, q);
    TimerIs(s, e);
    match e
    case TaskTimer(t) =>
      if s.tcb[t].tstat.cause == DLY {
        ReleaseKept(s, t, E_OK, q);
      } else {
        ReleaseKept(s, t, E_TMOUT, q);
      }
    case _ =>
      SameKept(s, s, Fire(s, e), q, None);
  }

  /** A time event that fires is armed, and has the callback of its kind. */
  lemma TimerIs(s: State, e: Event)
    requires CoreOk(s) && s.cfg.time.Ok() && IsTop(s, e)
    ensures e in s.pending && Armed(s.tcb, s.cyc, s.alm, e) && s.pending[e].callback == CallbackOf(s.tcb, e)
    ensures e.TaskTimer? ==> e.tsk < |s.tcb| && s.tcb[e.tsk].tstat.waiting && (s.tcb[e.tsk].tstat.cause == DLY ==> !s.tcb[e.tsk].tstat.WaitWobj())
  {
    hide QueuesOk, Sorted, ClockOk;
  }

  /** A step that is no service call on the object leaves its wait queue and its waiting
      tasks as they are, but for waits that end with an error. */
  lemma ForeignStep(s: State, op: Op, q: QName)
    requires Inv(s) && Enabled(s, op) && Foreign(s, op, q) && q in s.queue && q.Wait? && q.cause >= RDTQ
    ensures KeptBy(s, Do(s, op), q)
  {
    hide Inv, Enabled, Foreign, KeptBy, Do;
    if TaskCall(op) {
      TaskCallKept(s, op, q);
    } else {
      OtherStepKept(s, op, q);
    }
  }

  lemma TaskCallKept(s: State, op: Op, q: QName)
    requires Inv(s) && Enabled(s, op) && TaskCall(op) && q in s.queue && q.Wait? && q.cause >= RDTQ
    ensures KeptBy(s, Do(s, op), q)
  {
    hide Inv, Enabled, CoreOk, DispatchOk, ShapeOk, IsTop, AllWaiting, Kept;
    hide ActTsk, IActTsk, CanAct, ExtTsk, TerTsk, ChgPri;
    InvShape(s);
    WaitsOk(s, op);
    match op
    case OpActTsk(tskid) => ActCallsKept(s, tskid, q);
    case OpIActTsk(tskid) => ActCallsKept(s, tskid, q);
    case OpCanAct(tskid) => ActCallsKept(s, tskid, q);
    case OpExtTsk => EndCallsKept(s, 0, q);
    case OpTerTsk(tskid) => EndCallsKept(s, tskid, q);
    case OpChgPri(tskid, tskpri) => ChgPriKept(s, tskid, tskpri, q);
    case _ => SyncCallKept(s, op, q);
  }

  lemma SyncCallKept(s: State, op: Op, q: QName)
    requires Inv(s) && Enabled(s, op) && q in s.queue && q.Wait? && q.cause >= RDTQ
    requires op.OpTslpTsk? || op.OpDlyTsk? || op.OpWupTsk? || op.OpIWupTsk? || op.OpCanWup? || op.OpRelWai? || op.OpIRelWai?
      || op.OpSusTsk? || op.OpRsmTsk?
    ensures KeptBy(s, Do(s, op), q)
  {
    hide Inv, Enabled, CoreOk, DispatchOk, ShapeOk, IsTop, AllWaiting, Kept;
    hide TslpTsk, DlyTsk, WupTsk, IWupTsk, CanWup, RelWai, IRelWai, SusTsk, RsmTsk;
    InvShape(s);
    WaitsOk(s, op);
    match op
    case OpTslpTsk(tmout) => SleepCallsKept(s, tmout, 0, q);
    case OpDlyTsk(dlytim) => SleepCallsKept(s, 0, dlytim, q);
    case OpWupTsk(tskid) => WakeCallsKept(s, tskid, q);
    case OpIWupTsk(tskid) => WakeCallsKept(s, tskid, q);
    case OpCanWup(tskid) => WakeCallsKept(s, tskid, q);
    case OpRelWai(tskid) => WakeCallsKept(s, tskid, q);
    case OpIRelWai(tskid) => WakeCallsKept(s, tskid, q);
    case OpSusTsk(tskid) => SuspendCallsKept(s, tskid, q);
    case OpRsmTsk(tskid) => SuspendCallsKept(s, tskid, q);
  }

  lemma OtherStepKept(s: State, op: Op, q: QName)
    requires Inv(s) && Enabled(s, op) && !TaskCall(op) && Foreign(s, op, q) && q in s.queue && q.Wait? && q.cause >= RDTQ
    ensures KeptBy(s, Do(s, op), q)
  {
    hide CoreOk, DispatchOk, ShapeOk, IsTop, AllWaiting, NoneWaits, Kept;
    hide DisDsp, EnaDsp, ChgIpm, TexReturn, StaAlm, StpAlm, StaCyc, StpCyc, RotRdq, IRotRdq, WaitOn, EndWaits, IEndWaits, EnterInt, ExitInt;
    hide TickStart, Fire, TickEnd;
    InvShape(s);
    WaitsOk(s, op);
    match op
    case OpRotRdq(tskpri) => RotateCallsKept(s, tskpri, q);
    case OpIRotRdq(tskpri) => RotateCallsKept(s, tskpri, q);
    case OpWaitOn(p, tmout) => WaitOnKept(s, p, tmout, q);
    case OpEndWaits(ts, ercd) => EndWaitsKept(s, ts, ercd, q);
    case OpIEndWaits(ts) => IEndWaitsKept(s, ts, q);
    case OpFire(e) => FireKept(s, e, q);
    case _ => OthersKept(s, op, q);
  }

  lemma EndWaitsKept(s: State, ts: seq<TaskId>, ercd: Ercd, q: QName)
    requires CoreOk(s) && AllWaiting(s, ts) && NoneWaits(s, ts, q) && AllTasks(ts, |s.tcb|) && q in s.queue && q.Wait? && q.cause >= RDTQ
    ensures Kept(s, EndWaits(s, ts, ercd), q, None)
  {
    hide Kept, CoreOk, ReleaseAll, Sched;
    ReleaseAllKept(s, ts, ercd, q);
    SameKept(s, ReleaseAll(s, ts, ercd), EndWaits(s, ts, ercd), q, None);
  }

  lemma WaitsOk(s: State, op: Op)
    requires Inv(s) && Enabled(s, op)
    ensures CoreOk(s)
    ensures op.OpWaitOn? ==> MayWait(s) && op.q.Wait?
    ensures op.OpEndWaits? || op.OpIEndWaits? ==> AllTasks(op.ts, |s.tcb|) && AllWaiting(s, op.ts)
    ensures op.OpFire? ==> s.ticking && IsTop(s, op.e)
  {
    hide QueuesOk, TimersOk, Sorted, ClockOk, DispatchOk;
  }
}
