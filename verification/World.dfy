/**
 The kernel with all its objects: any number of semaphores, event flags, data queues, priority
 data queues and memory pools share one kernel. What a call on one of them does to the kernel
 is a step of the kernel that is none on any other.
 */
module Worlds {
  import opened Common
  import opened KernelState
  import opened KernelRuns
  import opened WaitSteps
  import opened ObjectSteps
  import S = KernelSpec
  import Sm = Semaphores
  import Fl = EventFlags
  import Dq = DataQueues
  import Dr = DataQueueRuns
  import Mp = MemPools

  /** An object: what the configurator generates, and what it holds. */
  datatype Obj =
    | Sem(sc: Sm.SemConfig, cnt: nat)
    | Flg(fc: Fl.FlgConfig, ptn: Fl.FlgPtn, wait: map<TaskId, Fl.FlgWait>, seen: map<TaskId, Fl.FlgPtn>)
    | Dtq(dc: Dq.DtqConfig, items: seq<Dq.Item>, sdata: map<TaskId, Dq.Item>, rdata: map<TaskId, Dq.Item>)
    | Mpf(mc: Mp.MpfConfig, pool: Mp.Pool, blk: map<TaskId, nat>)

  /** The wait queues of an object. */
  function QueuesOf(o: Obj): set<QName> {
    match o
    case Sem(c, _) => {c.q}
    case Flg(c, _, _, _) => {c.q}
    case Dtq(c, _, _, _) => {c.sq, c.rq}
    case Mpf(c, _, _) => {c.q}
  }

  ghost predicate ObjOk(s: State, o: Obj) {
    match o
    case Sem(c, cnt) => Sm.SemOk(Sm.SemState(s, cnt), c)
    case Flg(c, ptn, wait, seen) => Fl.FlgOk(Fl.FlgState(s, ptn, wait, seen), c)
    case Dtq(c, items, sdata, rdata) => Dq.DtqOk(Dq.DtqState(s, items, sdata, rdata), c)
    case Mpf(c, pool, blk) => Mp.MpfOk(Mp.MpfState(s, pool, blk), c)
  }

  datatype World = World(s: State, objs: seq<Obj>)

  ghost predicate AllApart(objs: seq<Obj>) {
    forall i, j :: 0 <= i < j < |objs| ==> QueuesOf(objs[i]) !! QueuesOf(objs[j])
  }

  ghost predicate WorldOk(w: World) {
    && Inv(w.s) && AllApart(w.objs)
    && forall i :: 0 <= i < |w.objs| ==> ObjOk(w.s, w.objs[i])
  }

  // ----- a call on one object -----

  datatype Call = SemCall(sop: Sm.SemOp) | FlgCall(fop: Fl.FlgOp) | DtqCall(dop: Dr.DtqOp) | MpfCall(mop: Mp.MpfOp)

  ghost predicate CallEnabled(s: State, o: Obj, call: Call)
    requires ObjOk(s, o)
  {
    match o
    case Sem(c, cnt) => call.SemCall? && !call.sop.Other? && Sm.SemEnabled(Sm.SemState(s, cnt), c, call.sop)
    case Flg(c, ptn, wait, seen) => call.FlgCall? && !call.fop.Other? && Fl.FlgEnabled(Fl.FlgState(s, ptn, wait, seen), c, call.fop)
    case Dtq(c, items, sdata, rdata) =>
      call.DtqCall? && !call.dop.Other? && Dr.DtqEnabled(Dq.DtqState(s, items, sdata, rdata), c, call.dop)
    case Mpf(c, pool, blk) => call.MpfCall? && !call.mop.Other? && Mp.MpfEnabled(Mp.MpfState(s, pool, blk), c, call.mop)
  }

  ghost function CallDo(s: State, o: Obj, call: Call): (State, Obj)
    requires ObjOk(s, o) && CallEnabled(s, o, call)
  {
    match o
    case Sem(c, cnt) =>
      var x := Sm.SemDo(Sm.SemState(s, cnt), c, call.sop).x;
      (x.s, Sem(c, x.cnt))
    case Flg(c, ptn, wait, seen) =>
      var x := Fl.FlgDo(Fl.FlgState(s, ptn, wait, seen), c, call.fop);
      (x.s, Flg(c, x.flgptn, x.wait, x.seen))
    case Dtq(c, items, sdata, rdata) =>
      var x := Dr.DtqDo(Dq.DtqState(s, items, sdata, rdata), c, call.dop).x;
      (x.s, Dtq(c, x.items, x.sdata, x.rdata))
    case Mpf(c, pool, blk) =>
      var x := Mp.MpfDo(Mp.MpfState(s, pool, blk), c, call.mop).x;
      (x.s, Mpf(c, x.pool, x.blk))
  }

  /** The call keeps its own object in order. */
  lemma CallKeeps(s: State, o: Obj, call: Call)
    requires ObjOk(s, o) && CallEnabled(s, o, call)
    ensures var (s', o') := CallDo(s, o, call); ObjOk(s', o') && QueuesOf(o') == QueuesOf(o)
  {
    hide Sm.SemOk, Fl.FlgOk, Dq.DtqOk, Mp.MpfOk, Sm.SemEnabled, Fl.FlgEnabled, Dr.DtqEnabled, Mp.MpfEnabled;
    hide Sm.SemDo, Fl.FlgDo, Dr.DtqDo, Mp.MpfDo;
    match o
    case Sem(c, cnt) => Sm.SemStepKeeps(Sm.SemState(s, cnt), c, call.sop);
    case Flg(c, ptn, wait, seen) => Fl.FlgStepKeeps(Fl.FlgState(s, ptn, wait, seen), c, call.fop);
    case Dtq(c, items, sdata, rdata) => Dr.DtqStepKeeps(Dq.DtqState(s, items, sdata, rdata), c, call.dop);
    case Mpf(c, pool, blk) => Mp.MpfStepKeeps(Mp.MpfState(s, pool, blk), c, call.mop);
  }

  // ----- what it does to the kernel -----

  /** The step `op`, if it is one, leads from `s` to `s'` and is no call on the objects with
      other wait queues than `qs`. */
  ghost predicate IsStep(s: State, op: Option<Op>, s': State, qs: set<QName>) {
    match op
    case None => s' == s
    case Some(op) =>
      && ShapeOk(s) && Enabled(s, op) && Do(s, op) == s'
      && forall q :: q in s.cfg.queues && q !in qs ==> Foreign(s, op, q)
  }

  /** Serving tasks in one wait queue is no call on the objects with other wait queues. */
  lemma ServeIsStep(s: State, q: QName, ts: seq<TaskId>, ercd: Ercd)
    requires Inv(s) && q in s.cfg.queues && q in s.queue && NoDup(ts) && forall t :: t in ts ==> t in s.queue[q]
    ensures S.AllTasks(ts, |s.tcb|)
    ensures S.InTask(s) ==> IsStep(s, Some(OpEndWaits(ts, ercd)), S.EndWaits(s, ts, ercd), {q})
    ensures s.intctx ==> IsStep(s, Some(OpIEndWaits(ts)), S.IEndWaits(s, ts), {q})
  {
    hide Inv, ShapeOk, S.EndWaits, S.IEndWaits;
    ObjectQueue(s, q);
    forall i | 0 <= i < |ts|
      ensures ts[i] < |s.tcb| && s.tcb[ts[i]].tstat.waiting && WaitsIn(s.tcb[ts[i]], q)
    {
      assert ts[i] in ts;
    }
  }

  lemma HandOverIsStep(s: State, q: QName, fromInt: bool)
    requires Inv(s) && q in s.cfg.queues && q in s.queue && s.queue[q] != [] && InContext(s, fromInt)
    ensures S.AllTasks(s.queue[q], |s.tcb|)
    ensures IsStep(s, Some(if fromInt then OpIEndWaits([s.queue[q][0]]) else OpEndWaits([s.queue[q][0]], E_OK)), HandOver(s, q, fromInt), {q})
  {
    hide Inv, IsStep, S.EndWaits, S.IEndWaits;
    ObjectQueue(s, q);
    ServeIsStep(s, q, [s.queue[q][0]], E_OK);
  }

  lemma WaitIsStep(s: State, q: QName, tmout: int)
    requires Inv(s) && q in s.cfg.queues && S.MayWait(s) && S.TMO_FEVR <= tmout <= s.cfg.time.tmax && tmout != S.TMO_POL
    ensures q.Wait? && s.cfg.time.Ok() && IsStep(s, Some(OpWaitOn(q, tmout)), S.WaitOn(s, q, tmout).s, {q})
  {
    hide Inv, ShapeOk, S.WaitOn;
    ObjectQueue(s, q);
  }

  lemma SemIsStep(s: State, c: Sm.SemConfig, cnt: nat, op: Sm.SemOp) returns (kop: Option<Op>)
    requires var x := Sm.SemState(s, cnt); Sm.SemOk(x, c) && !op.Other? && Sm.SemEnabled(x, c, op)
    ensures IsStep(s, kop, Sm.SemDo(Sm.SemState(s, cnt), c, op).x.s, {c.q})
  {
    hide Inv, IsStep, HandOver, S.WaitOn, S.EndWaits;
    NoStep(s, {c.q});
    ObjectQueue(s, c.q);
    kop := None;
    match op
    case Sig(fromInt) =>
      if InContext(s, fromInt) && s.queue[c.q] != [] {
        HandOverIsStep(s, c.q, fromInt);
        kop := Some(if fromInt then OpIEndWaits([s.queue[c.q][0]]) else OpEndWaits([s.queue[c.q][0]], E_OK));
      }
    case Twai(tmout) =>
      if S.MayWait(s) && S.TMO_FEVR <= tmout && tmout != S.TMO_POL && cnt == 0 {
        WaitIsStep(s, c.q, tmout);
        kop := Some(OpWaitOn(c.q, tmout));
      }
    case Pol =>
    case Ini =>
      if S.InTask(s) {
        ServeIsStep(s, c.q, s.queue[c.q], E_DLT);
        kop := Some(OpEndWaits(s.queue[c.q], E_DLT));
      }
  }

  lemma NoStep(s: State, qs: set<QName>)
    ensures IsStep(s, None, s, qs)
  {
  }

  lemma MpfIsStep(s: State, c: Mp.MpfConfig, pool: Mp.Pool, blk: map<TaskId, nat>, op: Mp.MpfOp) returns (kop: Option<Op>)
    requires var x := Mp.MpfState(s, pool, blk); Mp.MpfOk(x, c) && !op.Other? && Mp.MpfEnabled(x, c, op)
    ensures IsStep(s, kop, Mp.MpfDo(Mp.MpfState(s, pool, blk), c, op).x.s, {c.q})
  {
    hide Inv, IsStep, HandOver, S.WaitOn, S.EndWaits, Mp.PoolOk, Mp.Allocated, Mp.GoodBlock, Mp.Free, Mp.GetBlock;
    NoStep(s, {c.q});
    ObjectQueue(s, c.q);
    Mp.BlockSize(pool, c);
    kop := None;
    match op
    case Tget(tmout) =>
      if S.MayWait(s) && S.TMO_FEVR <= tmout && tmout != S.TMO_POL && Mp.Free(pool, c) <= 0 {
        WaitIsStep(s, c.q, tmout);
        kop := Some(OpWaitOn(c.q, tmout));
      }
    case Pget =>
    case Rel(b) =>
      if S.InTask(s) && Mp.GoodBlock(pool, c, b) && s.queue[c.q] != [] {
        HandOverIsStep(s, c.q, false);
        kop := Some(OpEndWaits([s.queue[c.q][0]], E_OK));
      }
    case Ini =>
      if S.InTask(s) {
        ServeIsStep(s, c.q, s.queue[c.q], E_DLT);
        kop := Some(OpEndWaits(s.queue[c.q], E_DLT));
      }
  }

  lemma FlgIsStep(x: Fl.FlgState, c: Fl.FlgConfig, op: Fl.FlgOp) returns (kop: Option<Op>)
    requires Fl.FlgOk(x, c) && !op.Other? && Fl.FlgEnabled(x, c, op)
    ensures IsStep(x.s, kop, Fl.FlgDo(x, c, op).s, {c.q})
  {
    hide Inv, IsStep, S.WaitOn, S.EndWaits, Fl.WakeUp, Fl.Woken, Fl.Satisfied, Fl.SetBits, Fl.KeepBits, Fl.Report;
    NoStep(x.s, {c.q});
    ObjectQueue(x.s, c.q);
    kop := None;
    match op
    case SetFlg(setptn, fromInt) =>
      if InContext(x.s, fromInt) {
        kop := SetIsStep(x, c, setptn, fromInt);
      }
    case TwaiFlg(w, tmout) =>
      if Fl.FlgDo(x, c, op).wait != x.wait || Fl.FlgDo(x, c, op).s != x.s {
        WaitIsStep(x.s, c.q, tmout);
        kop := Some(OpWaitOn(c.q, tmout));
      }
    case IniFlg =>
      if S.InTask(x.s) {
        ServeIsStep(x.s, c.q, x.s.queue[c.q], E_DLT);
        kop := Some(OpEndWaits(x.s.queue[c.q], E_DLT));
      }
    case _ =>
  }

  lemma SetIsStep(x: Fl.FlgState, c: Fl.FlgConfig, setptn: Fl.FlgPtn, fromInt: bool) returns (kop: Option<Op>)
    requires Fl.FlgOk(x, c) && InContext(x.s, fromInt)
    ensures IsStep(x.s, kop, Fl.SetStep(x, c, setptn, fromInt).x.s, {c.q})
  {
    hide Inv, IsStep, Fl.Woken, Fl.Satisfied, Fl.SetBits, Fl.KeepBits, Fl.Report, S.ReleaseAll, S.IEndWaits, S.Dispatch;
    var ptn := Fl.SetBits(x.flgptn, setptn);
    var ws := Fl.Woken(x.s.queue[c.q], ptn, x.wait, c.clr);
    Fl.FlgWoken(x, c, ptn);
    ServeIsStep(x.s, c.q, ws, E_OK);
    kop := Some(if fromInt then OpIEndWaits(ws) else OpEndWaits(ws, E_OK));
  }

  lemma DtqIsStep(x: Dq.DtqState, c: Dq.DtqConfig, op: Dr.DtqOp) returns (kop: Option<Op>)
    requires Dq.DtqOk(x, c) && !op.Other? && Dr.DtqEnabled(x, c, op)
    ensures IsStep(x.s, kop, Dr.DtqDo(x, c, op).x.s, {c.sq, c.rq})
  {
    hide Inv, IsStep, HandOver, S.WaitOn, Dq.InPriOrder, Dq.Insert, Dq.ResetStep;
    NoStep(x.s, {c.sq, c.rq});
    kop := None;
    var s' := Dr.DtqDo(x, c, op).x.s;
    match op
    case Tsnd(item, tmout) =>
      if S.MayWait(x.s) && Dq.GoodItem(c, item) && S.TMO_FEVR <= tmout {
        if x.s.queue[c.rq] != [] {
          kop := HeadIsStep(x, c, c.rq, false);
        } else if |x.items| >= c.cnt && tmout != S.TMO_POL {
          kop := WaitingIsStep(x, c, c.sq, tmout);
        }
      }
    case Psnd(item, fromInt) =>
      if InContext(x.s, fromInt) && Dq.GoodItem(c, item) && x.s.queue[c.rq] != [] {
        kop := HeadIsStep(x, c, c.rq, fromInt);
      }
    case Fsnd(item, fromInt) =>
      if InContext(x.s, fromInt) && c.cnt > 0 && x.s.queue[c.rq] != [] {
        kop := HeadIsStep(x, c, c.rq, fromInt);
      }
    case Trcv(tmout) =>
      if S.MayWait(x.s) && S.TMO_FEVR <= tmout {
        if x.s.queue[c.sq] != [] {
          kop := HeadIsStep(x, c, c.sq, false);
        } else if x.items == [] && tmout != S.TMO_POL {
          kop := WaitingIsStep(x, c, c.rq, tmout);
        }
      }
    case Prcv =>
      if S.InTask(x.s) && x.s.queue[c.sq] != [] {
        kop := HeadIsStep(x, c, c.sq, false);
      }
    case Ini =>
      if S.InTask(x.s) {
        kop := ResetIsStep(x, c);
      } else {
        assert s' == x.s by { NoReset(x, c); }
      }
  }

  lemma NoReset(x: Dq.DtqState, c: Dq.DtqConfig)
    requires Dq.DtqOk(x, c) && !S.InTask(x.s)
    ensures Dq.ResetStep(x, c).x == x
  {
  }

  lemma HeadIsStep(x: Dq.DtqState, c: Dq.DtqConfig, q: QName, fromInt: bool) returns (kop: Option<Op>)
    requires Dq.DtqOk(x, c) && (q == c.sq || q == c.rq) && x.s.queue[q] != [] && InContext(x.s, fromInt)
    ensures S.AllTasks(x.s.queue[q], |x.s.tcb|) && IsStep(x.s, kop, HandOver(x.s, q, fromInt), {c.sq, c.rq})
  {
    hide Inv, HandOver, Dq.InPriOrder, ShapeOk, Enabled, Do, Foreign;
    HandOverIsStep(x.s, q, fromInt);
    kop := Some(if fromInt then OpIEndWaits([x.s.queue[q][0]]) else OpEndWaits([x.s.queue[q][0]], E_OK));
  }

  lemma WaitingIsStep(x: Dq.DtqState, c: Dq.DtqConfig, q: QName, tmout: int) returns (kop: Option<Op>)
    requires Dq.DtqOk(x, c) && (q == c.sq || q == c.rq)
    requires S.MayWait(x.s) && S.TMO_FEVR <= tmout <= x.s.cfg.time.tmax && tmout != S.TMO_POL
    ensures IsStep(x.s, kop, S.WaitOn(x.s, q, tmout).s, {c.sq, c.rq})
  {
    hide Inv, S.WaitOn, Dq.InPriOrder, ShapeOk, Enabled, Do, Foreign;
    WaitIsStep(x.s, q, tmout);
    kop := Some(OpWaitOn(q, tmout));
  }

  /** ini_dtq releases the tasks of both queues: that is one step on both. */
  lemma ResetIsStep(x: Dq.DtqState, c: Dq.DtqConfig) returns (kop: Option<Op>)
    requires Dq.DtqOk(x, c) && S.InTask(x.s)
    ensures IsStep(x.s, kop, Dq.ResetStep(x, c).x.s, {c.sq, c.rq})
  {
    hide Inv, Dq.InPriOrder, ShapeOk, S.ReleaseAll, S.Dispatch, S.AllTasks;
    var s := x.s;
    var a, b := s.queue[c.sq], s.queue[c.rq];
    Dq.ResetFacts(x, c);
    ObjectQueue(s, c.sq);
    ObjectQueue(s, c.rq);
    BothWait(s, a, b, c);
    ReleaseBoth(s, a, b, E_DLT);
    kop := Some(OpEndWaits(a + b, E_DLT));
  }

  lemma BothWait(s: State, a: seq<TaskId>, b: seq<TaskId>, c: Dq.DtqConfig)
    requires Inv(s) && c.sq in s.cfg.queues && c.rq in s.cfg.queues && c.sq != c.rq && c.sq in s.queue && c.rq in s.queue
    requires a == s.queue[c.sq] && b == s.queue[c.rq]
    ensures AllWaiting(s, a + b) && S.AllTasks(a + b, |s.tcb|)
    ensures forall q :: q in s.cfg.queues && q != c.sq && q != c.rq ==> NoneWaits(s, a + b, q)
  {
    hide Inv;
    ObjectQueue(s, c.sq);
    ObjectQueue(s, c.rq);
    var both := a + b;
    forall i | 0 <= i < |both|
      ensures both[i] < |s.tcb| && s.tcb[both[i]].tstat.waiting
      ensures WaitsIn(s.tcb[both[i]], if i < |a| then c.sq else c.rq)
    {
      assert if i < |a| then both[i] == a[i] && a[i] in a else both[i] == b[i - |a|] && b[i - |a|] in b;
    }
    forall i, j | 0 <= i < j < |both|
      ensures both[i] != both[j]
    {
      assert j < |a| ==> a[i] != a[j];
      assert i >= |a| ==> b[i - |a|] != b[j - |a|];
    }
  }

  lemma {:induction false} ReleaseBoth(s: State, a: seq<TaskId>, b: seq<TaskId>, ercd: Ercd)
    requires S.AllTasks(a + b, |s.tcb|) && S.AllTasks(a, |s.tcb|)
    ensures var s1 := S.ReleaseAll(s, a, ercd);
      S.AllTasks(b, |s1.tcb|) && S.ReleaseAll(s, a + b, ercd) == S.ReleaseAll(s1, b, ercd)
    decreases |a|
  {
    hide S.Release;
    if a == [] {
      assert a + b == b;
    } else {
      assert (a + b)[1..] == a[1..] + b;
      assert forall i :: 0 <= i < |a[1..] + b| ==> (a[1..] + b)[i] == (a + b)[i + 1];
      ReleaseLength(s, a[0], ercd);
      assert (a + b)[0] == a[0];
      ReleaseBoth(S.Release(s, a[0], ercd), a[1..], b, ercd);
    }
  }

  lemma ReleaseLength(s: State, t: TaskId, ercd: Ercd)
    requires t < |s.tcb|
    ensures |S.Release(s, t, ercd).tcb| == |s.tcb|
  {
    hide S.Enter, S.Leave;
  }

  /** What a call on an object does to the kernel is a step of the kernel, or nothing; and it is
      no call on any other object. */
  lemma CallIsStep(s: State, o: Obj, call: Call) returns (kop: Option<Op>)
    requires ObjOk(s, o) && CallEnabled(s, o, call)
    ensures IsStep(s, kop, CallDo(s, o, call).0, QueuesOf(o))
  {
    hide Sm.SemOk, Fl.FlgOk, Dq.DtqOk, Mp.MpfOk, Sm.SemEnabled, Fl.FlgEnabled, Dr.DtqEnabled, Mp.MpfEnabled;
    hide Sm.SemDo, Fl.FlgDo, Dr.DtqDo, Mp.MpfDo, IsStep;
    match o
    case Sem(c, cnt) => kop := SemIsStep(s, c, cnt, call.sop);
    case Flg(c, ptn, wait, seen) => kop := FlgIsStep(Fl.FlgState(s, ptn, wait, seen), c, call.fop);
    case Dtq(c, items, sdata, rdata) => kop := DtqIsStep(Dq.DtqState(s, items, sdata, rdata), c, call.dop);
    case Mpf(c, pool, blk) => kop := MpfIsStep(s, c, pool, blk, call.mop);
  }

  /** A step of the kernel that is no call on the object keeps it in order. */
  lemma OthersKeep(s: State, o: Obj, op: Op)
    requires ObjOk(s, o) && s.cfg.time.Ok() && Enabled(s, op) && forall q :: q in QueuesOf(o) ==> Foreign(s, op, q)
    ensures ShapeOk(s) && ObjOk(Do(s, op), o)
  {
    hide Sm.SemOk, Fl.FlgOk, Dq.DtqOk, Mp.MpfOk, Enabled, Foreign, ShapeOk, Do;
    match o
    case Sem(c, cnt) =>
      Sm.SemShape(Sm.SemState(s, cnt), c);
      Sm.SemStepKeeps(Sm.SemState(s, cnt), c, Sm.Other(op));
    case Flg(c, ptn, wait, seen) =>
      Fl.FlgShape(Fl.FlgState(s, ptn, wait, seen), c);
      Fl.FlgStepKeeps(Fl.FlgState(s, ptn, wait, seen), c, Fl.Other(op));
    case Dtq(c, items, sdata, rdata) =>
      Dr.DtqShape(Dq.DtqState(s, items, sdata, rdata), c);
      Dr.DtqStepKeeps(Dq.DtqState(s, items, sdata, rdata), c, Dr.Other(op));
    case Mpf(c, pool, blk) =>
      Mp.MpfShape(Mp.MpfState(s, pool, blk), c);
      Mp.MpfStepKeeps(Mp.MpfState(s, pool, blk), c, Mp.Other(op));
  }

  // ----- runs of everything -----

  /** A step of the kernel that is no call on any object, or a call on the `i`-th object. */
  datatype WorldOp = Kernel(op: Op) | On(i: nat, call: Call)

  ghost predicate WorldEnabled(w: World, wop: WorldOp)
    requires WorldOk(w)
  {
    match wop
    case Kernel(op) =>
      && w.s.cfg.time.Ok() && Enabled(w.s, op)
      && forall i, q :: 0 <= i < |w.objs| && q in QueuesOf(w.objs[i]) ==> Foreign(w.s, op, q)
    case On(i, call) => i < |w.objs| && CallEnabled(w.s, w.objs[i], call)
  }

  lemma WorldShape(w: World)
    requires WorldOk(w)
    ensures ShapeOk(w.s) && w.s.cfg.time.Ok()
  {
    hide QueuesOk, TimersOk, Sorted, ClockOk, DispatchOk, ObjOk, QueueNames;
  }

  ghost function WorldDo(w: World, wop: WorldOp): World
    requires WorldOk(w) && WorldEnabled(w, wop)
  {
    match wop
    case Kernel(op) => WorldShape(w); World(Do(w.s, op), w.objs)
    case On(i, call) =>
      var (s', o') := CallDo(w.s, w.objs[i], call);
      World(s', w.objs[i := o'])
  }

  lemma WorldStepKeeps(w: World, wop: WorldOp)
    requires WorldOk(w) && WorldEnabled(w, wop)
    ensures WorldOk(WorldDo(w, wop))
  {
    hide Inv, ObjOk, ShapeOk, Enabled, Do, Foreign, CallEnabled, CallDo, QueuesOf;
    WorldShape(w);
    match wop
    case Kernel(op) =>
      StepKeeps(w.s, op);
      forall i | 0 <= i < |w.objs|
        ensures ObjOk(Do(w.s, op), w.objs[i])
      {
        OthersKeep(w.s, w.objs[i], op);
      }
    case On(i, call) =>
      var o := w.objs[i];
      var (s', o') := CallDo(w.s, o, call);
      CallKeeps(w.s, o, call);
      ObjInv(s', o');
      var kop := CallIsStep(w.s, o, call);
      forall j | 0 <= j < |w.objs| && j != i
        ensures ObjOk(s', w.objs[j])
      {
        assert QueuesOf(o) !! QueuesOf(w.objs[j]);
        ObjInv(w.s, w.objs[j]);
        if kop.Some? {
          OthersKeep(w.s, w.objs[j], kop.value);
        }
      }
  }

  lemma ObjInv(s: State, o: Obj)
    requires ObjOk(s, o)
    ensures Inv(s) && forall q :: q in QueuesOf(o) ==> q in s.cfg.queues
  {
    hide Inv, Mp.PoolOk, Dq.InPriOrder, Fl.Satisfied;
  }

  ghost predicate WorldRun(w: World, wops: seq<WorldOp>, w': World)
    decreases |wops|
  {
    if wops == [] then w == w'
    else WorldOk(w) && WorldEnabled(w, wops[0]) && WorldRun(WorldDo(w, wops[0]), wops[1..], w')
  }

  lemma {:induction false} WorldRunKeeps(w: World, wops: seq<WorldOp>, w': World)
    requires WorldOk(w) && WorldRun(w, wops, w')
    ensures WorldOk(w')
    decreases |wops|
  {
    hide WorldOk, WorldEnabled, WorldDo;
    if wops != [] {
      WorldStepKeeps(w, wops[0]);
      WorldRunKeeps(WorldDo(w, wops[0]), wops[1..], w');
    }
  }

  // ----- start-up -----

  /** An object as it is initialised, of a consistent configuration. */
  ghost predicate Fresh(cfg: Config, o: Obj) {
    && (forall q :: q in QueuesOf(o) ==> q in cfg.queues)
    && match o
       case Sem(c, cnt) => cnt == c.isemcnt <= c.maxsem
       case Flg(c, ptn, wait, seen) => ptn == c.iflgptn
       case Dtq(c, items, sdata, rdata) => items == [] && c.sq != c.rq && c.rq !in cfg.tpri
       case Mpf(c, pool, blk) => pool == Mp.Pool([], 0) && c.blksz > 0 && c.blkcnt <= Mp.INDEX_ALLOC
  }

  /** Activating tasks fills no wait queue. */
  lemma {:induction false} ActivateAllWaits(s: State, torder: seq<TaskId>, act: set<TaskId>, q: QName)
    requires S.AllTasks(torder, |s.tcb|) && NoDup(torder) && q.Wait? && q in s.queue
    requires forall t :: t in torder ==> s.tcb[t].tstat.Dormant()
    ensures var s' := ActivateAll(s, torder, act); q in s'.queue && s'.queue[q] == s.queue[q]
    decreases |torder|
  {
    if torder != [] {
      var t := torder[0];
      var s1 := if t in act then S.MakeActive(s, t) else s;
      assert forall x :: x in torder[1..] ==> x in torder && x != t;
      ActivateAllWaits(s1, torder[1..], act, q);
    }
  }

  lemma NobodyWaits(cfg: Config, torder: seq<TaskId>, act: set<TaskId>, sta: seq<bool>, q: QName)
    requires cfg.Ok() && |sta| == |cfg.cycphs| && S.AllTasks(torder, |cfg.ipriority|) && NoDup(torder) && q in cfg.queues
    ensures var s := Boot(cfg, torder, act, sta); s.cfg == cfg && q in s.queue && s.queue[q] == []
  {
    hide ActivateAll, Sched;
    EmptyOk(cfg, sta);
    ActivateAllKeeps(Empty(cfg, sta), torder, act);
    ActivateAllWaits(Empty(cfg, sta), torder, act, q);
  }

  /** After start-up every freshly initialised object is in order. */
  lemma FreshOk(cfg: Config, torder: seq<TaskId>, act: set<TaskId>, sta: seq<bool>, o: Obj)
    requires cfg.Ok() && |sta| == |cfg.cycphs| && S.AllTasks(torder, |cfg.ipriority|) && NoDup(torder) && Fresh(cfg, o)
    ensures ObjOk(Boot(cfg, torder, act, sta), o)
  {
    hide Inv, Boot;
    var s := Boot(cfg, torder, act, sta);
    BootOk(cfg, torder, act, sta);
    forall q | q in QueuesOf(o)
      ensures s.cfg == cfg && q in s.queue && s.queue[q] == [] && q.Wait? && cfg.time.Ok()
    {
      NobodyWaits(cfg, torder, act, sta, q);
      ObjectQueue(s, q);
    }
    match o
    case Sem(c, _) => assert c.q in QueuesOf(o);
    case Flg(c, _, _, _) => assert c.q in QueuesOf(o);
    case Dtq(c, _, _, _) => assert c.sq in QueuesOf(o) && c.rq in QueuesOf(o);
    case Mpf(c, _, _) => assert c.q in QueuesOf(o);
  }

  lemma BootWorldOk(cfg: Config, torder: seq<TaskId>, act: set<TaskId>, sta: seq<bool>, objs: seq<Obj>)
    requires cfg.Ok() && |sta| == |cfg.cycphs| && S.AllTasks(torder, |cfg.ipriority|) && NoDup(torder)
    requires AllApart(objs) && forall i :: 0 <= i < |objs| ==> Fresh(cfg, objs[i])
    ensures WorldOk(World(Boot(cfg, torder, act, sta), objs))
  {
    hide Inv, Boot, ObjOk, Fresh, QueuesOf;
    BootOk(cfg, torder, act, sta);
    forall i | 0 <= i < |objs|
      ensures ObjOk(Boot(cfg, torder, act, sta), objs[i])
    {
      FreshOk(cfg, torder, act, sta, objs[i]);
    }
  }

  /** In every state that is reached from start-up, with any number of objects of any kind and
      whatever calls tasks and interrupt handlers make on them, the kernel invariant holds, and
      so do the invariants of all objects. */
  lemma EveryObjectOk(cfg: Config, torder: seq<TaskId>, act: set<TaskId>, sta: seq<bool>, objs: seq<Obj>, wops: seq<WorldOp>, w: World)
    requires cfg.Ok() && |sta| == |cfg.cycphs| && S.AllTasks(torder, |cfg.ipriority|) && NoDup(torder)
    requires AllApart(objs) && forall i :: 0 <= i < |objs| ==> Fresh(cfg, objs[i])
    requires WorldRun(World(Boot(cfg, torder, act, sta), objs), wops, w)
    ensures Inv(w.s) && forall i :: 0 <= i < |w.objs| ==> ObjOk(w.s, w.objs[i])
  {
    hide Inv, Boot, ObjOk, Fresh, QueuesOf, WorldRun;
    BootWorldOk(cfg, torder, act, sta, objs);
    WorldRunKeeps(World(Boot(cfg, torder, act, sta), objs), wops, w);
  }
}
