/**
 When the service calls on semaphores, data queues and memory pools succeed, wait and fail, in
 terms of what is there, and that a call that fails changes nothing.
 */
module Outcomes {
  import opened Common
  import opened KernelState
  import opened KernelSpec
  import opened ObjectSteps
  import opened DataQueues
  import opened DataQueueRuns
  import Sm = Semaphores
  import Mp = MemPools

  // ----- semaphores -----

  /** The error codes of a call on a semaphore; a call with none of them returns E_OK or waits. */
  function SemError(x: Sm.SemState, c: Sm.SemConfig, op: Sm.SemOp): Ercd {
    match op
    case Sig(fromInt) =>
      if !InContext(x.s, fromInt) then E_CTX
      else if c.q in x.s.queue && x.s.queue[c.q] == [] && x.cnt == c.maxsem then E_QOVR
      else E_OK
    case Twai(tmout) =>
      if !MayWait(x.s) then E_CTX else if tmout < -1 then E_PAR else if x.cnt == 0 && tmout == 0 then E_TMOUT else E_OK
    case Pol => if !InTask(x.s) then E_CTX else if x.cnt == 0 then E_TMOUT else E_OK
    case Ini => if !InTask(x.s) then E_CTX else E_OK
    case Other(_) => E_OK
  }

  /** A call fails exactly when it must, and then changes nothing. A task waits for a resource if and
      only if there is none; a signal that nobody waits for is kept. */
  lemma SemOutcome(x: Sm.SemState, c: Sm.SemConfig, op: Sm.SemOp)
    requires Sm.SemOk(x, c) && Sm.SemEnabled(x, c, op) && !op.Other?
    ensures var r := Sm.SemDo(x, c, op);
      var e := SemError(x, c, op);
      && (e != E_OK ==> r == Sm.SemResult(x, Returns(e)))
      && (e == E_OK ==> r.out == if op.Twai? && x.cnt == 0 then Blocks else Returns(E_OK))
      && (e == E_OK && (op.Twai? || op.Pol?) && x.cnt > 0 ==> r.x == x.(cnt := r.x.cnt) && r.x.cnt + 1 == x.cnt)
      && (e == E_OK && op.Sig? && x.s.queue[c.q] == [] ==> r.x == x.(cnt := r.x.cnt) && r.x.cnt == x.cnt + 1)
      && (e == E_OK && op.Sig? && x.s.queue[c.q] != [] ==> r.x.cnt == x.cnt == 0)
      && (e == E_OK && op.Ini? ==> r.x.cnt == c.isemcnt)
  {
    hide Inv, HandOver, MakeWait, Dispatch, ReleaseAll;
  }

  // ----- data queues and priority data queues -----

  /** Something can be sent without waiting, or received. */
  predicate CanSend(x: DtqState, c: DtqConfig) {
    |x.items| < c.cnt || (c.rq in x.s.queue && x.s.queue[c.rq] != [])
  }

  predicate CanReceive(x: DtqState, c: DtqConfig) {
    |x.items| > 0 || (c.sq in x.s.queue && x.s.queue[c.sq] != [])
  }

  /** The priority of a datum is out of range. */
  predicate BadPri(c: DtqConfig, item: Item) {
    c.prio && (item.pri < 1 || item.pri > c.maxdpri)
  }

  function DtqError(x: DtqState, c: DtqConfig, op: DtqOp): Ercd {
    match op
    case Tsnd(item, tmout) =>
      if !MayWait(x.s) then E_CTX else if BadPri(c, item) || tmout < -1 then E_PAR
      else if !CanSend(x, c) && tmout == 0 then E_TMOUT else E_OK
    case Psnd(item, fromInt) =>
      if !InContext(x.s, fromInt) then E_CTX else if BadPri(c, item) then E_PAR
      else if !CanSend(x, c) then E_TMOUT else E_OK
    case Fsnd(item, fromInt) => if !InContext(x.s, fromInt) then E_CTX else if c.cnt == 0 then E_ILUSE else E_OK
    case Trcv(tmout) =>
      if !MayWait(x.s) then E_CTX else if tmout < -1 then E_PAR
      else if !CanReceive(x, c) && tmout == 0 then E_TMOUT else E_OK
    case Prcv => if !InTask(x.s) then E_CTX else if !CanReceive(x, c) then E_TMOUT else E_OK
    case Ini => if !InTask(x.s) then E_CTX else E_OK
    case Other(_) => E_OK
  }

  /** A call fails exactly when it must, and then changes nothing. A sender waits if and only if the
      buffer is full and no receiver waits, a receiver if and only if there is no datum and no
      sender waits; a call that receives returns a datum. */
  lemma DtqOutcome(x: DtqState, c: DtqConfig, op: DtqOp)
    requires DtqOk(x, c) && DtqEnabled(x, c, op) && !op.Other?
    ensures var r := DtqDo(x, c, op);
      var e := DtqError(x, c, op);
      && (e != E_OK ==> r == DtqResult(x, Returns(e), None))
      && (r.out == Blocks <==> e == E_OK && ((op.Tsnd? && !CanSend(x, c)) || (op.Trcv? && !CanReceive(x, c))))
      && (e == E_OK && r.out != Blocks ==> r.out == Returns(E_OK))
      && (r.item.Some? <==> (op.Trcv? || op.Prcv?) && r.out == Returns(E_OK))
      && (r.out == Blocks ==> r.x.items == x.items)
      && (e == E_OK && op.Ini? ==> r.x.items == [])
  {
    hide Inv, HandOver, MakeWait, Dispatch, ReleaseAll, InPriOrder, Insert, InsertPri;
  }

  // ----- memory pools -----

  function MpfError(x: Mp.MpfState, c: Mp.MpfConfig, op: Mp.MpfOp): Ercd {
    match op
    case Tget(tmout) =>
      if !MayWait(x.s) then E_CTX else if tmout < -1 then E_PAR else if Mp.Free(x.pool, c) == 0 && tmout == 0 then E_TMOUT else E_OK
    case Pget => if !InTask(x.s) then E_CTX else if Mp.Free(x.pool, c) == 0 then E_TMOUT else E_OK
    case Rel(blk) => if !InTask(x.s) then E_CTX else if c.blksz > 0 && Mp.GoodBlock(x.pool, c, blk) then E_OK else E_PAR
    case Ini => if !InTask(x.s) then E_CTX else E_OK
    case Other(_) => E_OK
  }

  /** A call fails exactly when it must, and then changes nothing. A task waits for a block if and
      only if all blocks are in use; a call that gets a block returns its address. */
  lemma MpfOutcome(x: Mp.MpfState, c: Mp.MpfConfig, op: Mp.MpfOp)
    requires Mp.MpfOk(x, c) && Mp.MpfEnabled(x, c, op) && !op.Other?
    ensures var r := Mp.MpfDo(x, c, op);
      var e := MpfError(x, c, op);
      && (e != E_OK ==> r == Mp.MpfResult(x, Returns(e), None))
      && (e == E_OK ==> r.out == if op.Tget? && Mp.Free(x.pool, c) == 0 then Blocks else Returns(E_OK))
      && (r.blk.Some? <==> (op.Tget? || op.Pget?) && r.out == Returns(E_OK))
      && (r.blk.Some? ==> exists i: nat :: r.blk == Some(Mp.Addr(c, i)) && i < c.blkcnt && !Mp.Allocated(x.pool, i) && Mp.Allocated(r.x.pool, i))
      && (r.out == Blocks ==> r.x.pool == x.pool && forall i: nat :: i < c.blkcnt ==> Mp.Allocated(x.pool, i))
      && (e == E_OK && op.Ini? ==> forall i: nat :: !Mp.Allocated(r.x.pool, i))
  {
    hide Inv, HandOver, MakeWait, Dispatch, ReleaseAll;
  }

  // ----- initialisation -----

  /** All tasks that waited in `q` return with E_DLT. */
  ghost predicate AllDeleted(s: State, s': State, q: QName) {
    && q in s.queue && q in s'.queue && s'.queue[q] == [] && |s'.tcb| == |s.tcb|
    && forall t :: t in s.queue[q] ==> t < |s.tcb| && !s'.tcb[t].tstat.waiting && s'.tcb[t].winfo == Wercd(E_DLT)
  }

  lemma FlushDeletes(s: State, q: QName)
    requires Inv(s) && q in s.cfg.queues && q in s.queue && AllTasks(s.queue[q], |s.tcb|)
    ensures AllDeleted(s, EndWaits(s, s.queue[q], E_DLT), q)
  {
    hide CoreOk, DispatchOk, ReleaseAll, Sched;
    ObjectQueue(s, q);
    FlushFacts(s, q, E_DLT);
  }

  /** ini_sem and ini_mpf end all waits. */
  lemma SemDeletes(x: Sm.SemState, c: Sm.SemConfig)
    requires Sm.SemOk(x, c) && InTask(x.s)
    ensures AllDeleted(x.s, Sm.SemDo(x, c, Sm.Ini).x.s, c.q)
  {
    hide Inv, EndWaits, AllDeleted;
    FlushDeletes(x.s, c.q);
  }

  lemma MpfDeletes(x: Mp.MpfState, c: Mp.MpfConfig)
    requires Mp.MpfOk(x, c) && InTask(x.s)
    ensures AllDeleted(x.s, Mp.MpfDo(x, c, Mp.Ini).x.s, c.q)
  {
    hide Inv, EndWaits, AllDeleted;
    FlushDeletes(x.s, c.q);
  }

  /** ini_dtq and ini_pdq end the waits of senders and of receivers. */
  lemma DtqDeletes(x: DtqState, c: DtqConfig)
    requires DtqOk(x, c) && InTask(x.s)
    ensures AllDeleted(x.s, DtqDo(x, c, DataQueueRuns.Ini).x.s, c.sq)
    ensures AllDeleted(x.s, DtqDo(x, c, DataQueueRuns.Ini).x.s, c.rq)
  {
    hide CoreOk, DispatchOk, ReleaseAll, Sched, InPriOrder;
    ObjectQueue(x.s, c.sq);
    ObjectQueue(x.s, c.rq);
    FlushFacts(x.s, c.sq, E_DLT);
    ResetFacts(x, c);
    var s1 := ReleaseAll(x.s, x.s.queue[c.sq], E_DLT);
    FlushFacts(s1, c.rq, E_DLT);
    assert forall t :: t in x.s.queue[c.rq] ==> t !in x.s.queue[c.sq];
  }
}
