/**
 Runs of a data queue or a priority data queue.
 */
module DataQueueRuns {
  import opened Common
  import opened KernelState
  import opened KernelInv
  import opened KernelRuns
  import opened WaitSteps
  import opened ObjectSteps
  import opened DataQueues
  import S = KernelSpec

  datatype DtqOp = Other(op: Op) | Tsnd(item: Item, tmout: int) | Psnd(item: Item, fromInt: bool)
    | Fsnd(item: Item, fromInt: bool) | Trcv(tmout: int) | Prcv | Ini

  /** Priority data queues have no forced send. */
  ghost predicate DtqEnabled(x: DtqState, c: DtqConfig, op: DtqOp)
    requires DtqOk(x, c)
  {
    match op
    case Other(op) => Enabled(x.s, op) && Foreign(x.s, op, c.sq) && Foreign(x.s, op, c.rq)
    case Tsnd(_, tmout) => tmout <= x.s.cfg.time.tmax
    case Trcv(tmout) => tmout <= x.s.cfg.time.tmax
    case Fsnd(_, _) => !c.prio
    case _ => true
  }

  ghost function DtqDo(x: DtqState, c: DtqConfig, op: DtqOp): DtqResult
    requires DtqOk(x, c) && DtqEnabled(x, c, op)
  {
    match op
    case Other(op) => DtqShape(x, c); DtqResult(x.(s := Do(x.s, op)), S.Returns(E_OK), None)
    case Tsnd(item, tmout) => TsndStep(x, c, item, tmout)
    case Psnd(item, fromInt) => PsndStep(x, c, item, fromInt)
    case Fsnd(item, fromInt) => FsndStep(x, c, item, fromInt)
    case Trcv(tmout) => TrcvStep(x, c, tmout)
    case Prcv => PrcvStep(x, c)
    case Ini => ResetStep(x, c)
  }

  lemma DtqShape(x: DtqState, c: DtqConfig)
    requires DtqOk(x, c)
    ensures ShapeOk(x.s)
  {
    hide DispatchOk, QueuesOk, TimersOk, Sorted, ClockOk, InPriOrder;
  }

  lemma InvOf(x: DtqState, c: DtqConfig)
    requires DtqOk(x, c)
    ensures Inv(x.s) && c.sq in x.s.cfg.queues && c.rq in x.s.cfg.queues && c.sq in x.s.queue && c.rq in x.s.queue && c.sq != c.rq
  {
    hide Inv, InPriOrder;
  }

  // ----- each step keeps the state in order -----

  /** What the parts of the kernel's state mean for the buffer, all in one. */
  lemma QueueParts(s: State, c: DtqConfig)
    requires Inv(s) && c.sq in s.cfg.queues && c.rq in s.cfg.queues
    ensures s.cfg.time.Ok() && c.sq in s.queue && c.rq in s.queue && c.sq.Wait? && c.rq.Wait?
    ensures S.AllTasks(s.queue[c.sq], |s.tcb|) && S.AllTasks(s.queue[c.rq], |s.tcb|)
    ensures NoDup(s.queue[c.sq]) && NoDup(s.queue[c.rq])
    ensures forall t :: t in s.queue[c.sq] ==> t in s.queue[c.sq] && t < |s.tcb|
  {
    hide Inv;
    ObjectQueue(s, c.sq);
    ObjectQueue(s, c.rq);
  }

  /** The head of one of the two queues is served. */
  lemma ServeKeeps(s: State, c: DtqConfig, q: QName, fromInt: bool)
    requires Inv(s) && c.sq in s.cfg.queues && c.rq in s.cfg.queues && c.sq != c.rq && (q == c.sq || q == c.rq)
    requires q in s.queue && s.queue[q] != [] && InContext(s, fromInt)
    ensures S.AllTasks(s.queue[q], |s.tcb|)
    ensures var s' := HandOver(s, q, fromInt);
      var p := if q == c.sq then c.rq else c.sq;
      && Inv(s') && s'.cfg == s.cfg && q in s'.queue && s'.queue[q] == s.queue[q][1..]
      && p in s.queue && p in s'.queue && s'.queue[p] == s.queue[p]
      && |s'.tcb| == |s.tcb| && s.queue[q][0] < |s.tcb| && s'.tcb[s.queue[q][0]].winfo == Wercd(E_OK)
  {
    hide Inv, HandOver;
    QueueParts(s, c);
    HandOverFacts(s, q, fromInt);
  }

  lemma SendKeeps(x: DtqState, c: DtqConfig, item: Item, fromInt: bool)
    requires DtqOk(x, c) && InContext(x.s, fromInt)
    ensures SendStep(x, c, item, fromInt).Some? ==> DtqOk(SendStep(x, c, item, fromInt).value, c)
  {
    hide Inv, HandOver, InPriOrder, InsertPri;
    if x.s.queue[c.rq] != [] {
      ServeKeeps(x.s, c, c.rq, fromInt);
      QueueParts(HandOver(x.s, c.rq, fromInt), c);
    } else if |x.items| < c.cnt && c.prio {
      InsertPriOrder(x.items, item, 0);
    }
  }

  lemma ForceKeeps(x: DtqState, c: DtqConfig, item: Item, fromInt: bool)
    requires DtqOk(x, c) && InContext(x.s, fromInt) && c.cnt > 0 && !c.prio
    ensures DtqOk(ForceStep(x, c, item, fromInt), c)
  {
    hide Inv, HandOver, InPriOrder;
    if x.s.queue[c.rq] != [] {
      ServeKeeps(x.s, c, c.rq, fromInt);
      QueueParts(HandOver(x.s, c.rq, fromInt), c);
    }
  }

  lemma ReceiveKeeps(x: DtqState, c: DtqConfig)
    requires DtqOk(x, c) && S.InTask(x.s)
    ensures ReceiveStep(x, c).Some? ==> DtqOk(ReceiveStep(x, c).value.0, c)
  {
    hide Inv, HandOver, InPriOrder, InsertPri;
    if x.s.queue[c.sq] != [] {
      ServeKeeps(x.s, c, c.sq, false);
      QueueParts(HandOver(x.s, c.sq, false), c);
      assert forall t :: t in x.s.queue[c.sq][1..] ==> t in x.s.queue[c.sq];
    }
    if x.items != [] && c.prio {
      TailInOrder(x.items);
      if x.s.queue[c.sq] != [] {
        InsertPriOrder(x.items[1..], x.sdata[x.s.queue[c.sq][0]], 0);
      }
    }
  }

  lemma TailInOrder(items: seq<Item>)
    requires InPriOrder(items) && items != []
    ensures InPriOrder(items[1..])
  {
  }

  lemma DtqWaitKeeps(x: DtqState, c: DtqConfig, item: Item, tmout: int, send: bool)
    requires DtqOk(x, c) && S.MayWait(x.s) && S.TMO_FEVR <= tmout <= x.s.cfg.time.tmax && tmout != S.TMO_POL
    requires if send then x.s.queue[c.rq] == [] && |x.items| == c.cnt else x.items == [] && x.s.queue[c.sq] == []
    ensures send ==> DtqOk(x.(s := S.WaitOn(x.s, c.sq, tmout).s, sdata := x.sdata[x.s.runtsk.value := item]), c)
    ensures !send ==> DtqOk(x.(s := S.WaitOn(x.s, c.rq, tmout).s), c)
  {
    hide Inv, S.WaitOn, InPriOrder;
    var q := if send then c.sq else c.rq;
    JoinFacts(x.s, q, tmout);
    QueueParts(S.WaitOn(x.s, q, tmout).s, c);
  }

  lemma ResetKeeps(x: DtqState, c: DtqConfig)
    requires DtqOk(x, c)
    ensures DtqOk(ResetStep(x, c).x, c)
    ensures S.InTask(x.s) ==> ResetStep(x, c).x.s.queue[c.sq] == [] && ResetStep(x, c).x.s.queue[c.rq] == []
    ensures |ResetStep(x, c).x.s.tcb| == |x.s.tcb|
    ensures forall t :: t in x.s.queue[c.rq] ==> t < |x.s.tcb| && ResetStep(x, c).x.s.tcb[t].winfo != Wercd(E_OK)
  {
    hide CoreOk, DispatchOk, S.ReleaseAll, Sched, InPriOrder;
    ObjectQueue(x.s, c.rq);
    ObjectQueue(x.s, c.sq);
    if S.InTask(x.s) {
      ResetFacts(x, c);
      var s1 := S.ReleaseAll(x.s, x.s.queue[c.sq], E_DLT);
      FlushFacts(x.s, c.sq, E_DLT);
      FlushFacts(s1, c.rq, E_DLT);
      ResetInv(x, c);
      QueueParts(ResetStep(x, c).x.s, c);
      assert InPriOrder([]) by { EmptyInOrder(); }
    }
  }

  lemma EmptyInOrder()
    ensures InPriOrder([])
  {
  }

  lemma ResetInv(x: DtqState, c: DtqConfig)
    requires DtqOk(x, c) && S.InTask(x.s)
    ensures Inv(ResetStep(x, c).x.s)
  {
    hide QueuesOk, TimersOk, Sorted, ClockOk, S.ReleaseAll, Sched, InPriOrder;
    ObjectQueue(x.s, c.sq);
    ObjectQueue(x.s, c.rq);
    ResetFacts(x, c);
    var s1 := S.ReleaseAll(x.s, x.s.queue[c.sq], E_DLT);
    ReleaseAllKeeps(x.s, x.s.queue[c.sq], E_DLT);
    StillWaiting(x, c, s1);
    ReleaseAllKeeps(s1, x.s.queue[c.rq], E_DLT);
    RunningCan(x.s);
    TaskEndKeeps(S.Result(S.ReleaseAll(s1, x.s.queue[c.rq], E_DLT), S.Blocks));
  }

  lemma RunningCan(s: State)
    requires Inv(s)
    ensures s.runtsk.Some? ==> s.runtsk.value < |s.tcb| && s.tcb[s.runtsk.value].tstat.runnable
  {
    hide CoreOk, Sched;
  }

  /** Receivers still wait when the senders have gone. */
  lemma StillWaiting(x: DtqState, c: DtqConfig, s1: State)
    requires DtqOk(x, c) && S.AllTasks(x.s.queue[c.sq], |x.s.tcb|) && s1 == S.ReleaseAll(x.s, x.s.queue[c.sq], E_DLT)
    ensures AllWaiting(s1, x.s.queue[c.rq])
  {
    hide CoreOk, DispatchOk, S.ReleaseAll, Sched, InPriOrder;
    ObjectQueue(x.s, c.sq);
    ObjectQueue(x.s, c.rq);
    FlushFacts(x.s, c.sq, E_DLT);
    forall i | 0 <= i < |x.s.queue[c.rq]|
      ensures x.s.queue[c.rq][i] < |s1.tcb| && s1.tcb[x.s.queue[c.rq][i]].tstat.waiting
    {
      var t := x.s.queue[c.rq][i];
      assert t in x.s.queue[c.rq];
      assert t !in x.s.queue[c.sq];
    }
  }

  lemma OtherKeeps(x: DtqState, c: DtqConfig, op: Op)
    requires DtqOk(x, c) && Enabled(x.s, op) && Foreign(x.s, op, c.sq) && Foreign(x.s, op, c.rq)
    ensures ShapeOk(x.s) && DtqOk(x.(s := Do(x.s, op)), c)
    ensures OnlyErrors(x.s, Do(x.s, op), c.sq) && OnlyErrors(x.s, Do(x.s, op), c.rq)
  {
    hide Inv, ShapeOk, Enabled, Do, Foreign, InPriOrder;
    DtqShape(x, c);
    var s' := Do(x.s, op);
    ForeignLeaves(x.s, op, c.sq);
    ForeignLeaves(x.s, op, c.rq);
    QueueParts(s', c);
    assert s'.queue[c.sq] != [] ==> s'.queue[c.sq][0] in s'.queue[c.sq];
    assert s'.queue[c.rq] != [] ==> s'.queue[c.rq][0] in s'.queue[c.rq];
  }

  lemma DtqStepKeeps(x: DtqState, c: DtqConfig, op: DtqOp)
    requires DtqOk(x, c) && DtqEnabled(x, c, op)
    ensures DtqOk(DtqDo(x, c, op).x, c)
  {
    hide DtqOk, SendStep, ForceStep, ReceiveStep, ResetStep, ShapeOk, Enabled, Do, Foreign, S.WaitOn;
    match op
    case Other(op) => OtherKeeps(x, c, op);
    case Tsnd(item, tmout) => TsndKeeps(x, c, item, tmout);
    case Psnd(item, fromInt) =>
      if InContext(x.s, fromInt) {
        SendKeeps(x, c, item, fromInt);
      }
    case Fsnd(item, fromInt) =>
      if InContext(x.s, fromInt) && c.cnt > 0 {
        ForceKeeps(x, c, item, fromInt);
      }
    case Trcv(tmout) => TrcvKeeps(x, c, tmout);
    case Prcv =>
      if S.InTask(x.s) {
        ReceiveKeeps(x, c);
      }
    case Ini => ResetKeeps(x, c);
  }

  lemma TsndKeeps(x: DtqState, c: DtqConfig, item: Item, tmout: int)
    requires DtqOk(x, c) && tmout <= x.s.cfg.time.tmax
    ensures DtqOk(TsndStep(x, c, item, tmout).x, c)
  {
    hide Inv, HandOver, S.WaitOn, InPriOrder;
    if S.MayWait(x.s) {
      SendKeeps(x, c, item, false);
      if SendStep(x, c, item, false).None? && S.TMO_FEVR <= tmout && tmout != S.TMO_POL {
        DtqWaitKeeps(x, c, item, tmout, true);
      }
    }
  }

  lemma TrcvKeeps(x: DtqState, c: DtqConfig, tmout: int)
    requires DtqOk(x, c) && tmout <= x.s.cfg.time.tmax
    ensures DtqOk(TrcvStep(x, c, tmout).x, c)
  {
    hide Inv, HandOver, S.WaitOn, InPriOrder;
    if S.MayWait(x.s) {
      ReceiveKeeps(x, c);
      if ReceiveStep(x, c).None? && S.TMO_FEVR <= tmout && tmout != S.TMO_POL {
        DtqWaitKeeps(x, c, Item(0, 0), tmout, false);
      }
    }
  }
}
